/**
 * The typed HTTP errors: a base `GenericError` carrying a message, an
 * application error code and an HTTP status code, and four subclasses
 * (`BadRequest`, `Unauthorized`, `Forbidden`, `NotFound`) whose constructors
 * fix the status code and default the error code to "ANY".
 *
 * The source assigns the three fields once, in `__init__`, and never changes
 * them afterwards, so an error is an immutable value here.
 */
module Errors {
  import opened Wrappers

  /** The class an error was constructed as. */
  datatype ErrorClass = GenericErrorClass | BadRequestClass | UnauthorizedClass | ForbiddenClass | NotFoundClass
  {
    /** The status code the class's constructor fixes; `GenericError` takes it as an argument instead. */
    function FixedStatus(): Option<int>
    {
      match this
      case GenericErrorClass => None
      case BadRequestClass => Some(400)
      case UnauthorizedClass => Some(401)
      case ForbiddenClass => Some(403)
      case NotFoundClass => Some(404)
    }
  }

  /** The error code a subclass uses when the caller omits `code_error`. */
  const DefaultCodeError: string := "ANY"

  /**
   * An instance of `GenericError` or of one of its subclasses. `args` is the
   * argument tuple the `Exception` base keeps, which is what `str(err)` shows.
   */
  datatype AppError = AppError(kind: ErrorClass, message: string, codeError: string, statusCode: int, args: seq<string>)
  {
    /** What construction establishes: the base holds the message alone, and a subclass its fixed status. */
    predicate Valid()
    {
      && args == [message]
      && (kind.FixedStatus().Some? ==> statusCode == kind.FixedStatus().value)
    }

    /** `isinstance(err, cls)` within this hierarchy: every error is a `GenericError`. */
    predicate IsInstanceOf(cls: ErrorClass)
    {
      kind == cls || cls == GenericErrorClass
    }
  }

  /**
   * `GenericError.__init__` run on an object of class `kind`: stores the three
   * fields as given, with no validation, and passes the message to `Exception`.
   */
  function Init(kind: ErrorClass, message: string, codeError: string, statusCode: int): (e: AppError)
    ensures e.kind == kind && e.IsInstanceOf(GenericErrorClass)
    ensures e.message == message && e.codeError == codeError && e.statusCode == statusCode
    ensures e.args == [message]
    ensures e.Valid() <==> (kind.FixedStatus().Some? ==> statusCode == kind.FixedStatus().value)
  {
    AppError(kind, message, codeError, statusCode, [message])
  }

  /** `GenericError(message, code_error, status_code)`: every integer status is accepted. */
  function NewGenericError(message: string, codeError: string, statusCode: int): (e: AppError)
    ensures e.Valid() && e.kind == GenericErrorClass
    ensures e.message == message && e.codeError == codeError && e.statusCode == statusCode
  {
    Init(GenericErrorClass, message, codeError, statusCode)
  }

  /** The value of an optional `code_error` argument; `None` means it was omitted. */
  function CodeOrDefault(codeError: Option<string>): (c: string)
    ensures codeError.None? ==> c == DefaultCodeError
    ensures codeError.Some? ==> c == codeError.value
  {
    match codeError
    case None => DefaultCodeError
    case Some(code) => code
  }

  /** `BadRequest(message, code_error="ANY")`. */
  function NewBadRequest(message: string, codeError: Option<string>): (e: AppError)
    ensures e.Valid() && e.kind == BadRequestClass && e.IsInstanceOf(GenericErrorClass)
    ensures e.statusCode == 400
    ensures e.message == message && e.args == [message]
    ensures e.codeError == (if codeError.Some? then codeError.value else "ANY")
  {
    var statusCode := 400;
    Init(BadRequestClass, message, CodeOrDefault(codeError), statusCode)
  }

  /** `Unauthorized(message, code_error="ANY")`. */
  function NewUnauthorized(message: string, codeError: Option<string>): (e: AppError)
    ensures e.Valid() && e.kind == UnauthorizedClass && e.IsInstanceOf(GenericErrorClass)
    ensures e.statusCode == 401
    ensures e.message == message && e.args == [message]
    ensures e.codeError == (if codeError.Some? then codeError.value else "ANY")
  {
    var statusCode := 401;
    Init(UnauthorizedClass, message, CodeOrDefault(codeError), statusCode)
  }

  /** `Forbidden(message, code_error="ANY")`. */
  function NewForbidden(message: string, codeError: Option<string>): (e: AppError)
    ensures e.Valid() && e.kind == ForbiddenClass && e.IsInstanceOf(GenericErrorClass)
    ensures e.statusCode == 403
    ensures e.message == message && e.args == [message]
    ensures e.codeError == (if codeError.Some? then codeError.value else "ANY")
  {
    var statusCode := 403;
    Init(ForbiddenClass, message, CodeOrDefault(codeError), statusCode)
  }

  /** `NotFound(message, code_error="ANY")`. */
  function NewNotFound(message: string, codeError: Option<string>): (e: AppError)
    ensures e.Valid() && e.kind == NotFoundClass && e.IsInstanceOf(GenericErrorClass)
    ensures e.statusCode == 404
    ensures e.message == message && e.args == [message]
    ensures e.codeError == (if codeError.Some? then codeError.value else "ANY")
  {
    var statusCode := 404;
    Init(NotFoundClass, message, CodeOrDefault(codeError), statusCode)
  }

  /** Calls the constructor of `e`'s class again with the arguments `e` keeps. */
  function Reconstruct(e: AppError): AppError
  {
    match e.kind
    case GenericErrorClass => NewGenericError(e.message, e.codeError, e.statusCode)
    case BadRequestClass => NewBadRequest(e.message, Some(e.codeError))
    case UnauthorizedClass => NewUnauthorized(e.message, Some(e.codeError))
    case ForbiddenClass => NewForbidden(e.message, Some(e.codeError))
    case NotFoundClass => NewNotFound(e.message, Some(e.codeError))
  }

  /**
   * The constructors lose nothing and reach every valid error: the fields of
   * an error, fed back to its class's constructor, give the same error.
   */
  lemma ReconstructIsIdentity(e: AppError)
    requires e.Valid()
    ensures Reconstruct(e) == e
  {
  }

  /** Omitting `code_error` is the same as passing "ANY", for every subclass. */
  lemma OmittedCodeIsAny(message: string)
    ensures NewBadRequest(message, None) == NewBadRequest(message, Some("ANY"))
    ensures NewUnauthorized(message, None) == NewUnauthorized(message, Some("ANY"))
    ensures NewForbidden(message, None) == NewForbidden(message, Some("ANY"))
    ensures NewNotFound(message, None) == NewNotFound(message, Some("ANY"))
  {
  }
}
