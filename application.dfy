/**
 * The application's exception-handler table as `add_handdlers` fills it:
 * six successive registrations, each keyed by a numeric status or by an
 * error class. Registering a key that is already present replaces its
 * handler, as a dictionary assignment does.
 */
module Application {
  import opened Wrappers
  import opened Errors
  import opened ErrorsHandlers

  /** The three handlers of the translator. */
  datatype Handler = GenericErrorHandlerRef | InternalServerErrorHandlerRef | NotFoundHandlerRef

  /** What a handler is registered for: a numeric HTTP status or an error class. */
  datatype HandlerKey = StatusKey(status: int) | ClassKey(cls: ErrorClass)

  /** One `add_exception_handler(key, handler)` call. */
  datatype Registration = Registration(key: HandlerKey, handler: Handler)

  /** The calls `add_handdlers` makes, in order; 400 goes to `not_found_handler` as written. */
  const Registrations: seq<Registration> := [
    Registration(StatusKey(400), NotFoundHandlerRef),
    Registration(StatusKey(500), InternalServerErrorHandlerRef),
    Registration(ClassKey(BadRequestClass), GenericErrorHandlerRef),
    Registration(ClassKey(NotFoundClass), GenericErrorHandlerRef),
    Registration(ClassKey(ForbiddenClass), GenericErrorHandlerRef),
    Registration(ClassKey(UnauthorizedClass), GenericErrorHandlerRef)
  ]

  /** The keys a list of registrations names. */
  function KeysOf(regs: seq<Registration>): set<HandlerKey>
  {
    set i | 0 <= i < |regs| :: regs[i].key
  }

  /** No key is registered twice. */
  predicate DistinctKeys(regs: seq<Registration>)
  {
    forall i, j :: 0 <= i < j < |regs| ==> regs[i].key != regs[j].key
  }

  /** The table after applying `regs` to `table` in order, each one overwriting the key it names. */
  function Registered(table: map<HandlerKey, Handler>, regs: seq<Registration>): map<HandlerKey, Handler>
    decreases |regs|
  {
    if regs == [] then table
    else Registered(table[regs[0].key := regs[0].handler], regs[1..])
  }

  /** The handlers `add_handdlers` adds to a table that had none. */
  function DispatchTable(): map<HandlerKey, Handler>
  {
    Registered(map[], Registrations)
  }

  /** Registering adds exactly the registered keys. */
  lemma {:induction false} RegisteredKeys(table: map<HandlerKey, Handler>, regs: seq<Registration>)
    ensures Registered(table, regs).Keys == table.Keys + KeysOf(regs)
    decreases |regs|
  {
    if regs != [] {
      RegisteredKeys(table[regs[0].key := regs[0].handler], regs[1..]);
      assert KeysOf(regs) == {regs[0].key} + KeysOf(regs[1..]) by {
        forall k | k in KeysOf(regs) ensures k in {regs[0].key} + KeysOf(regs[1..]) {
          var i :| 0 <= i < |regs| && regs[i].key == k;
          if i > 0 { assert regs[1..][i - 1].key == k; }
        }
        forall k | k in KeysOf(regs[1..]) ensures k in KeysOf(regs) {
          var i :| 0 <= i < |regs[1..]| && regs[1..][i].key == k;
          assert regs[i + 1].key == k;
        }
      }
    }
  }

  /** A key no registration names keeps the handler it had. */
  lemma {:induction false} RegisteredKeepsOthers(table: map<HandlerKey, Handler>, regs: seq<Registration>, k: HandlerKey)
    requires k in table
    requires forall i :: 0 <= i < |regs| ==> regs[i].key != k
    ensures k in Registered(table, regs) && Registered(table, regs)[k] == table[k]
    decreases |regs|
  {
    if regs != [] {
      RegisteredKeepsOthers(table[regs[0].key := regs[0].handler], regs[1..], k);
    }
  }

  /** With distinct keys no registration overwrites another: each key ends up with the handler registered for it. */
  lemma {:induction false} RegisteredLookup(table: map<HandlerKey, Handler>, regs: seq<Registration>, i: int)
    requires DistinctKeys(regs)
    requires 0 <= i < |regs|
    ensures regs[i].key in Registered(table, regs)
    ensures Registered(table, regs)[regs[i].key] == regs[i].handler
    decreases |regs|
  {
    var next := table[regs[0].key := regs[0].handler];
    if i == 0 {
      RegisteredKeepsOthers(next, regs[1..], regs[0].key);
    } else {
      RegisteredLookup(next, regs[1..], i - 1);
    }
  }

  /** With distinct keys new to the table, every registration adds one entry. */
  lemma {:induction false} RegisteredSize(table: map<HandlerKey, Handler>, regs: seq<Registration>)
    requires DistinctKeys(regs)
    requires forall i :: 0 <= i < |regs| ==> regs[i].key !in table
    ensures |Registered(table, regs)| == |table| + |regs|
    decreases |regs|
  {
    if regs != [] {
      var next := table[regs[0].key := regs[0].handler];
      assert next.Keys == table.Keys + {regs[0].key};
      RegisteredSize(next, regs[1..]);
    }
  }

  /** The six registrations name six different keys. */
  lemma RegistrationsDistinct()
    ensures DistinctKeys(Registrations)
    ensures KeysOf(Registrations) == DispatchKeys
  {
    var r := Registrations;
    assert r[0].key == StatusKey(400) && r[1].key == StatusKey(500);
    assert r[2].key == ClassKey(BadRequestClass) && r[3].key == ClassKey(NotFoundClass);
    assert r[4].key == ClassKey(ForbiddenClass) && r[5].key == ClassKey(UnauthorizedClass);
  }

  /** The keys `add_handdlers` registers. */
  const DispatchKeys: set<HandlerKey> := {
    StatusKey(400), StatusKey(500), ClassKey(BadRequestClass),
    ClassKey(NotFoundClass), ClassKey(ForbiddenClass), ClassKey(UnauthorizedClass)
  }

  /**
   * The table `add_handdlers` builds holds exactly six entries: 400 and 500
   * go to the two fallbacks, the four subclasses to `generic_error_handler`.
   */
  lemma DispatchTableContents()
    ensures |DispatchTable()| == 6
    ensures DispatchTable().Keys == DispatchKeys
    ensures DispatchTable()[StatusKey(400)] == NotFoundHandlerRef
    ensures DispatchTable()[StatusKey(500)] == InternalServerErrorHandlerRef
    ensures DispatchTable()[ClassKey(BadRequestClass)] == GenericErrorHandlerRef
    ensures DispatchTable()[ClassKey(NotFoundClass)] == GenericErrorHandlerRef
    ensures DispatchTable()[ClassKey(ForbiddenClass)] == GenericErrorHandlerRef
    ensures DispatchTable()[ClassKey(UnauthorizedClass)] == GenericErrorHandlerRef
  {
    var empty: map<HandlerKey, Handler> := map[];
    var r := Registrations;
    RegistrationsDistinct();
    RegisteredSize(empty, r);
    RegisteredKeys(empty, r);
    RegisteredLookup(empty, r, 0);
    RegisteredLookup(empty, r, 1);
    RegisteredLookup(empty, r, 2);
    RegisteredLookup(empty, r, 3);
    RegisteredLookup(empty, r, 4);
    RegisteredLookup(empty, r, 5);
  }

  /** `GenericError` itself and the statuses 401, 403, 404 and 405 have no handler. */
  lemma DispatchTableGaps()
    ensures ClassKey(GenericErrorClass) !in DispatchTable()
    ensures forall s :: s in {401, 403, 404, 405} ==> StatusKey(s) !in DispatchTable()
  {
    DispatchTableContents();
  }

  /**
   * Runs a registered handler on what was raised. `generic_error_handler`
   * reads `status_code` first and `code_error` next, so an HTTP error, which
   * has a status but no code, fails on the second, and any other exception on
   * the first.
   */
  function Invoke(handler: Handler, request: Request, raised: RaisedError): (r: Result<JsonResponse, HandlerError>)
    ensures handler == NotFoundHandlerRef ==> r.Ok? && r.value.statusCode == 404
    ensures handler == InternalServerErrorHandlerRef ==> r.Ok? && r.value.statusCode == 500
    ensures handler == GenericErrorHandlerRef && raised.Typed? ==> r == GenericErrorHandler(request, raised.err)
    ensures handler == GenericErrorHandlerRef && raised.HttpException? ==> r == Err(AttributeError("code_error"))
    ensures handler == GenericErrorHandlerRef && raised.OtherException? ==> r == Err(AttributeError("status_code"))
  {
    match handler
    case NotFoundHandlerRef => NotFoundHandler(request, raised)
    case InternalServerErrorHandlerRef => InternalServerErrorHandler(request, raised)
    case GenericErrorHandlerRef =>
      match raised
      case Typed(err) => GenericErrorHandler(request, err)
      case HttpException(_, _) => Err(AttributeError("code_error"))
      case OtherException(_) => Err(AttributeError("status_code"))
  }

  /** The handler registered for `key`, if any. */
  function HandlerFor(table: map<HandlerKey, Handler>, key: HandlerKey): Option<Handler>
  {
    if key in table then Some(table[key]) else None
  }

  /** An HTTP 400 is answered by `not_found_handler`: status 404 and the URL-not-found body. */
  lemma Status400AnsweredAsNotFound(request: Request, raised: RaisedError)
    ensures HandlerFor(DispatchTable(), StatusKey(400)) == Some(NotFoundHandlerRef)
    ensures Invoke(NotFoundHandlerRef, request, raised).Ok?
    ensures Invoke(NotFoundHandlerRef, request, raised).value.statusCode == 404
    ensures ParseBody(Invoke(NotFoundHandlerRef, request, raised).value.content)
         == Some(ErrorResponse(404, "Url not found.", "URL_NOT_FOUND", "404: Not Found"))
  {
    DispatchTableContents();
  }

  /** An HTTP 500 is answered by `internal_server_error_handler`: status 500 and the fixed internal-error body. */
  lemma Status500AnsweredAsInternalError(request: Request, raised: RaisedError)
    ensures HandlerFor(DispatchTable(), StatusKey(500)) == Some(InternalServerErrorHandlerRef)
    ensures Invoke(InternalServerErrorHandlerRef, request, raised).Ok?
    ensures Invoke(InternalServerErrorHandlerRef, request, raised).value.statusCode == 500
    ensures ParseBody(Invoke(InternalServerErrorHandlerRef, request, raised).value.content)
         == Some(ErrorResponse(500, "An error has ocourred, contact the suport.", "INTERNAL_SERVER_ERROR", "500: Internal Server Error"))
  {
    DispatchTableContents();
  }

  /**
   * A typed error of one of the four subclasses is looked up by its class and
   * answered by `generic_error_handler` with its own status, code and message.
   */
  lemma TypedErrorAnsweredByGenericHandler(request: Request, e: AppError)
    requires e.Valid() && e.kind != GenericErrorClass
    ensures HandlerFor(DispatchTable(), ClassKey(e.kind)) == Some(GenericErrorHandlerRef)
    ensures Invoke(GenericErrorHandlerRef, request, Typed(e)).Ok?
    ensures Invoke(GenericErrorHandlerRef, request, Typed(e)).value.statusCode == e.statusCode
    ensures ParseBody(Invoke(GenericErrorHandlerRef, request, Typed(e)).value.content)
         == Some(ErrorResponse(e.statusCode, e.message, e.codeError, Titles[e.statusCode]))
  {
    DispatchTableContents();
  }

  /** The application object, reduced to its exception-handler table. */
  class App {
    var exceptionHandlers: map<HandlerKey, Handler>

    /** A new application; the framework's own default handlers are not part of this model. */
    constructor ()
      ensures exceptionHandlers == map[]
    {
      exceptionHandlers := map[];
    }

    /** `app.add_exception_handler(key, handler)`: sets the entry for `key`, replacing any earlier one. */
    method AddExceptionHandler(key: HandlerKey, handler: Handler)
      modifies this
      ensures exceptionHandlers == old(exceptionHandlers)[key := handler]
    {
      exceptionHandlers := exceptionHandlers[key := handler];
    }
  }

  /** `add_handdlers(app)`: the six registrations, in the order written. */
  method AddHandlers(app: App)
    modifies app
    ensures app.exceptionHandlers == Registered(old(app.exceptionHandlers), Registrations)
  {
    app.AddExceptionHandler(StatusKey(400), NotFoundHandlerRef);
    app.AddExceptionHandler(StatusKey(500), InternalServerErrorHandlerRef);
    app.AddExceptionHandler(ClassKey(BadRequestClass), GenericErrorHandlerRef);
    app.AddExceptionHandler(ClassKey(NotFoundClass), GenericErrorHandlerRef);
    app.AddExceptionHandler(ClassKey(ForbiddenClass), GenericErrorHandlerRef);
    app.AddExceptionHandler(ClassKey(UnauthorizedClass), GenericErrorHandlerRef);
  }

  /** On a fresh application, `add_handdlers` leaves exactly the dispatch table. */
  method NewAppWithHandlers() returns (app: App)
    ensures fresh(app) && app.exceptionHandlers == DispatchTable()
  {
    app := new App();
    AddHandlers(app);
  }
}
