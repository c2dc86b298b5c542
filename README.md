# Error normalisation of a FastAPI quick-start service, in Dafny

This project models the error-normalisation layer of a small FastAPI web
service scaffold:

- **Typed HTTP errors** (`core/infra/errors`). `GenericError` carries a
  message, an application error code (`code_error`) and an HTTP status code.
  `BadRequest`, `Unauthorized`, `Forbidden` and `NotFound` fix the status at
  400, 401, 403 and 404 and default the code to `"ANY"`. Module `Errors`
  models an error as an immutable value `AppError`, recording the class it was
  built as. Each Python constructor is a function (`Init` is
  `GenericError.__init__`, which the subclasses reach through `super()`). An
  omitted `code_error` is `None` of an `Option`.
- **The translator** (`core/infra/handlers/errors_handlers.py`). Module
  `ErrorsHandlers` has `generic_error_handler`, the six-entry title table,
  the `ErrorResponse` body and its `model_dump`, and the two fallback
  handlers. A handler either answers with a `JsonResponse` or raises; raising
  is the `Err` side of a `Result`. For a status outside the title table,
  `titles.get` gives `None`, and `ErrorResponse` rejects it because `title` is
  declared `str`. The model raises `ValidationError("title")` there.
  `ParseBody` is what a client reads back from a JSON error body. The
  handlers' contracts are stated through it.
- **The dispatch table** (`main.py`, `add_handdlers`). Module `Application`
  has a class `App` whose map field is the exception-handler table. The
  method `AddHandlers` makes the six `add_exception_handler` calls in source
  order; each call overwrites the entry for its key. The fold `Registered`
  specifies the resulting table. Lemmas about the fold prove the following:
  the six keys are distinct, so nothing is overwritten; the table holds
  exactly six entries; status 400 goes to `not_found_handler`, as written;
  `GenericError` itself and statuses 401, 403, 404 and 405 have no entry.
  `Invoke` runs a registered handler on what was raised. On
  `generic_error_handler`, an object that is not a typed error makes it raise
  an attribute error: an HTTP error lacks `code_error`, and any other
  exception lacks `status_code`, the first attribute the handler reads.

The model keeps these details of the code as written:
- There is no `InternalError` error class, only the four subclasses.
- The 500 fallback's detail text is `"An error has ocourred, contact the suport."`, spelling included.
- The 401 title is `"401 Unauthorized"`, with no colon.
- Status 400 is registered to `not_found_handler`, so an HTTP 400 is answered with the 404 `URL_NOT_FOUND` body. It is not remapped to a 400 handler.
- An unknown status makes `generic_error_handler` raise. There is no fallback title.

## Model

| member | source | states |
|---|---|---|
| `Errors.Init` | core/infra/errors/generic_error.py:2-7 | stores message, code and status exactly as given, with no validation of the status; the exception's args are the message alone; the object is a `GenericError` |
| `Errors.NewGenericError` | core/infra/errors/generic_error.py:1-7 | a `GenericError` built from any message, code and integer status keeps all three unchanged and is well formed |
| `Errors.CodeOrDefault` | core/infra/errors/bad_request.py:5 | an omitted `code_error` becomes `"ANY"`; a supplied one passes through unchanged |
| `Errors.NewBadRequest` | core/infra/errors/bad_request.py:4-7 | status is 400 whatever the arguments; message passes through; code defaults to `"ANY"` or is the one given; it is a `GenericError` |
| `Errors.NewUnauthorized` | core/infra/errors/unauthorized.py:4-7 | status is 401 whatever the arguments; message passes through; code defaults to `"ANY"` or is the one given; it is a `GenericError` |
| `Errors.NewForbidden` | core/infra/errors/forbidden.py:4-7 | status is 403 whatever the arguments; message passes through; code defaults to `"ANY"` or is the one given; it is a `GenericError` |
| `Errors.NewNotFound` | core/infra/errors/not_found.py:4-7 | status is 404 whatever the arguments; message passes through; code defaults to `"ANY"` or is the one given; it is a `GenericError` |
| `Errors.ReconstructIsIdentity` | core/infra/errors/generic_error.py:2-5 | the constructors lose nothing: a well-formed error's fields, given back to its class's constructor, rebuild the same error |
| `Errors.OmittedCodeIsAny` | core/infra/errors/bad_request.py:5 | for each subclass, omitting `code_error` is the same as passing `"ANY"` |
| `ErrorsHandlers.TitleOf` | core/infra/handlers/errors_handlers.py:17-25 | the title lookup succeeds for exactly 400, 401, 403, 404, 405 and 500, and is absent for every other status |
| `ErrorsHandlers.TitlesNameTheirStatus` | core/infra/handlers/errors_handlers.py:17-24 | every title opens with its status's three digits, followed by a colon for every status except 401 |
| `ErrorsHandlers.NewErrorResponse` | core/infra/handlers/errors_handlers.py:8-12 | building the body succeeds exactly when a title is present, keeping status, code and detail as given; a missing title is a validation error on `title` |
| `ErrorsHandlers.ModelDump` | core/infra/handlers/errors_handlers.py:30 | the dumped body is a JSON object with exactly the fields status, detail, code and title |
| `ErrorsHandlers.ModelDumpRoundTrip` | core/infra/handlers/errors_handlers.py:26-30 | a client parsing the dumped object recovers exactly the body that was dumped |
| `ErrorsHandlers.GenericErrorHandler` | core/infra/handlers/errors_handlers.py:15-32 | answers exactly when the status is in the title table; then the response status and body status are the error's status, and body code and detail are the error's code and message unchanged, with the table's title; otherwise raises a validation error on `title` |
| `ErrorsHandlers.InternalServerErrorHandler` | core/infra/handlers/errors_handlers.py:35-41 | whatever it is given, answers 500 with code `INTERNAL_SERVER_ERROR`, the fixed detail and title `500: Internal Server Error` |
| `ErrorsHandlers.NotFoundHandler` | core/infra/handlers/errors_handlers.py:44-48 | whatever it is given, answers 404 with code `URL_NOT_FOUND`, detail `Url not found.` and title `404: Not Found` |
| `ErrorsHandlers.TypedErrorsAreAnswered` | core/infra/handlers/errors_handlers.py:15-32 | every error a subclass constructor builds is answered, with its class's fixed status |
| `ErrorsHandlers.UntitledStatusRaises` | core/infra/handlers/errors_handlers.py:25-27 | an example of the failing path: a `GenericError` with a status outside the table (418) makes the handler raise instead of answering |
| `ErrorsHandlers.HandlersIgnoreRequest` | core/infra/handlers/errors_handlers.py:15-48 | no handler's answer depends on the request |
| `ErrorsHandlers.FallbacksIgnoreError` | core/infra/handlers/errors_handlers.py:35-48 | the two fallback handlers give the same answer for any two errors |
| `Application.RegisteredKeys` | main.py:30-35 | registering adds exactly the registered keys to the table's keys |
| `Application.RegisteredKeepsOthers` | main.py:30-35 | an entry whose key no registration names keeps its handler |
| `Application.RegisteredLookup` | main.py:30-35 | with distinct keys, each key ends up with the handler registered for it (none is overwritten) |
| `Application.RegisteredSize` | main.py:30-35 | with distinct keys new to the table, each registration adds exactly one entry |
| `Application.RegistrationsDistinct` | main.py:30-35 | the six registrations name six distinct keys: 400, 500 and the four subclasses |
| `Application.DispatchTableContents` | main.py:29-35 | the table has exactly six entries: 400 to `not_found_handler`, 500 to `internal_server_error_handler`, the four subclasses to `generic_error_handler` |
| `Application.DispatchTableGaps` | main.py:30-35 | there is no entry for `GenericError` itself, nor for statuses 401, 403, 404 or 405 |
| `Application.Invoke` | core/infra/handlers/errors_handlers.py:15-48 | running `not_found_handler` answers 404 and `internal_server_error_handler` 500 whatever was raised; `generic_error_handler` on a typed error gives that handler's answer, on an HTTP error raises for the missing `code_error`, on any other exception for the missing `status_code` |
| `Application.Status400AnsweredAsNotFound` | main.py:30 | status 400 is dispatched to `not_found_handler`, so it is answered 404 with the `URL_NOT_FOUND` body |
| `Application.Status500AnsweredAsInternalError` | main.py:31 | status 500 is dispatched to `internal_server_error_handler` and answered with the fixed 500 body |
| `Application.TypedErrorAnsweredByGenericHandler` | main.py:32-35 | each of the four subclasses is dispatched to `generic_error_handler`, which answers with the error's own status, code and message |
| `Application.App.constructor` | main.py:41 | a new application starts with an empty handler table |
| `Application.App.AddExceptionHandler` | main.py:30-35 | one registration sets the entry for its key, replacing an earlier one, and changes nothing else |
| `Application.AddHandlers` | main.py:29-35 | the six calls leave the table as the fold of the six registrations, in order, over the table it had |
| `Application.NewAppWithHandlers` | main.py:41-44 | on a fresh application, registering the handlers leaves exactly the dispatch table |

## Left out

- The access-logging middleware (`core/infra/middlewares/logging_middleware.py`) is not part of this model. It is asynchronous framework plumbing with a monotonic clock and float arithmetic for the process-time header.
- The Logtail sinks and log-record handler (`core/infra/logging/logging_handlers.py`, `core/infra/handlers/logging_handler.py`) are not modelled. They are calls into a third-party library.
- Configuration loading (`config.py`), the logger adapter, the health route and the response schemas are not modelled. They hold no logic of this layer.
- `add_middlewares`, `add_routers`, `setup_logging` and `uvicorn.run` in `main.py` are not modelled. They are framework and server wiring.
- The framework's own behaviour is not modelled. That covers how it picks a handler by walking an exception's class hierarchy, the default handlers a new `FastAPI` object already holds, and what it answers for a status with no handler. `App.constructor` therefore starts from an empty table.
- Python's dynamic typing is not modelled: message and code are strings. A non-string message or code, which `ErrorResponse` would also reject, cannot be expressed.
- The order of keys in the JSON body is not modelled: a body is a map from field name to value.
- Python attributes could be reassigned after construction. No code of this layer does that, so errors are immutable values.
