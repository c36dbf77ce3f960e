# screenshoter request handler, modelled in Dafny

The system is one authenticated HTTP endpoint. It takes `{"url": "..."}`, asks a capture
collaborator (a browser renderer) for a screenshot of that page and returns the PNG bytes.
This model covers the endpoint's handler, `Handle`. It passes each request through five gates
in a fixed order:

1. the method must be POST;
2. the `Authorization` header, with one leading `"Bearer "` removed, must equal the `APP_TOKEN`
   environment variable;
3. the body must decode as JSON;
4. the capture collaborator is called once with the decoded URL;
5. its outcome becomes the response.

Each failing gate ends the request with one fixed status and one fixed message.

Files and modules:

- `request_handler.dfy` (`RequestHandler`) has two parts. `Decide` is a pure function: the
  decision for one request, given the configured token and the collaborator. The class
  `Handler` holds the package-level `capture` variable, with `SetCapture` and `Handle`.
  `Handle` mutates a response writer step by step, as the Go code does, and is proved to leave
  exactly the response `Decide` gives. It is also proved to call capture exactly as `Decide`
  records and to write the status once. `SendErrorResponse` is the JSON error helper.
- `request_handler_properties.dfy` (`RequestHandlerProperties`) holds the lemmas: one per gate,
  the gate order, the accepted token forms, the mapping of capture outcomes, and error detail
  never leaking to the client. A scenario method replays the repository's handler tests
  through `Handle`.
- `http.dfy` (`Http`) models the parts of net/http the handler uses. `ResponseWriter` has an
  editable header map, and the first `WriteHeader` fixes the status and snapshots the headers.
  Later `WriteHeader` calls are ignored. `Write` implies `WriteHeader(200)` when no status
  was sent. `Error` models `http.Error`.
- `strings.dfy`, `os.dfy`, `errors.dfy` model `strings.HasPrefix`/`TrimPrefix`, `os.Getenv` and
  `errors.Is`. An error is its chain of `Unwrap` results. `Errors.Is` is the loop `Handle` runs
  over that chain. `Errors.Wraps` is the chain-membership meaning that `Decide` uses.
- `response_errors.dfy` holds the five messages. `wrappers.dfy` holds `Option`.

Abstractions:

- The JSON decoder is an oracle. The request carries its verdict as `Option<ScreenshotRequest>`.
- The capture collaborator is a function value from URL to Go's `(bytes, error)` pair. Its
  deadline-bound context is not passed.
- The environment is a map parameter.

Behaviour of the code a reader may not expect:

- The bare token without `"Bearer "` is accepted, as is an empty header when the token is empty.
- If `APP_TOKEN` is unset, `os.Getenv` gives `""`. A request with no `Authorization` header
  then passes the token check (`UnsetAppTokenAdmitsAnonymous`).
- A body that decodes without a `url` member is forwarded with the URL the decoder yields.
  The model does not validate it.
- A successful capture is answered with whatever bytes it returned, including none.
- Every capture error that does not wrap a deadline expiry is reported as 500. That includes a
  client disconnect (`context.Canceled`), which is not reported as a timeout
  (`ClientCancellationIsInternalError`).

## Model

| member | source | states |
|---|---|---|
| Strings.TrimPrefix | internal/request_handler.go:52 | the header loses "Bearer " exactly when it starts with it, at most once, and is otherwise unchanged |
| RequestHandler.TokenMatches | internal/request_handler.go:50-55 | the token gate admits exactly "Bearer "+token, and the bare token when the token does not itself start with "Bearer " |
| RequestHandler.JsonErrorReply | internal/request_handler.go:24-35 | an error reply has the given status, the application/json content type, and one body write whose "error" member is the message |
| Errors.Is | internal/request_handler.go:70 | errors.Is walks the Unwrap chain and reports true if and only if the target occurs in it |
| Http.Lookup | internal/request_handler.go:20-22 | finds the member of an encoded object by its exact name (the `error` member that the struct tag makes the encoder emit) if and only if a member of that name exists, and the value it returns belongs to that member |
| RequestHandler.Decide | internal/request_handler.go:44-88 | every request gets exactly one status from the endpoint's six, one body write, and at most one capture call |
| RequestHandler.SendErrorResponse | internal/request_handler.go:24-35 | sets the JSON content type, writes the status unless one was already written, and appends the envelope whose error member is the message |
| RequestHandler.Handler.constructor | internal/request_handler.go:38 | the package starts with a given capture collaborator |
| RequestHandler.Handler.SetCapture | internal/request_handler.go:40-42 | replaces the collaborator Handle uses |
| RequestHandler.Handler.Handle | internal/request_handler.go:44-88 | on an unused writer, leaves exactly the response Decide gives, calls capture exactly as Decide records, and calls WriteHeader exactly once |
| Http.ResponseWriter.Set | internal/request_handler.go:80-81 | Header().Set replaces one header's value and changes nothing else |
| Http.ResponseWriter.WriteHeader | internal/request_handler.go:82 | the first call fixes the status and the headers sent; later calls change neither |
| Http.ResponseWriter.Write | internal/request_handler.go:84 | appends the payload, first sending status 200 if no status was written |
| Http.Error | internal/request_handler.go:60 | a plain-text content type, the status unless one was written, and the message as a text line |
| RequestHandlerProperties.BearerTokenAccepted | test/main_test.go:34 | the documented "Bearer "+token header is admitted |
| RequestHandlerProperties.BareTokenAccepted | internal/request_handler.go:52 | the bare token is admitted if and only if it does not start with "Bearer " |
| RequestHandlerProperties.DoubledBearerPrefix | internal/request_handler.go:52 | "Bearer Bearer "+x matches only the token "Bearer "+x, so "Bearer Bearer "+token never matches token |
| RequestHandlerProperties.EmptyAuthorization | internal/request_handler.go:50-52 | an absent or empty header passes if and only if the configured token is empty |
| RequestHandlerProperties.UnsetAppTokenAdmitsAnonymous | internal/request_handler.go:52 | with APP_TOKEN unset, a request without an Authorization header passes the token gate |
| RequestHandlerProperties.FirstAuthorizationDecides | internal/request_handler.go:50 | with several Authorization headers only the first is compared |
| RequestHandlerProperties.MethodGate | internal/request_handler.go:45-48 | any non-POST gets 405 with the OnlyPostAllowed envelope whatever else the request holds, and capture is not called |
| RequestHandlerProperties.TokenGate | internal/request_handler.go:50-55 | a POST gets 401 if and only if the trimmed header differs from the token, with the TokenInvalid envelope and no capture call |
| RequestHandlerProperties.BodyGate | internal/request_handler.go:57-62 | an authorized POST whose body does not decode gets 400 with plain text, not the envelope, and no capture call |
| RequestHandlerProperties.CaptureCall | internal/request_handler.go:64-67 | capture is called if and only if the three earlier gates pass, once, with the decoded URL unchanged |
| RequestHandlerProperties.CaptureFailure | internal/request_handler.go:68-77 | a capture error gives 504 with RequestTimeOut if it wraps a deadline expiry and 500 with InternalError otherwise, as JSON envelopes |
| RequestHandlerProperties.ClientCancellationIsInternalError | internal/request_handler.go:64-73 | a cancelled, not expired, context is reported as 500 |
| RequestHandlerProperties.ErrorDetailNotLeaked | internal/request_handler.go:68-77 | the response does not depend on an error's message or on bytes returned beside an error |
| RequestHandlerProperties.Success | internal/request_handler.go:80-84 | a successful capture gives 200, image/png, the attachment disposition, and the body equal to the captured bytes |
| RequestHandlerProperties.FirstFailingGateDecides | internal/request_handler.go:44-88 | each status arises exactly when the gates before it pass and its own gate fails, in the order method, token, body, capture |
| RequestHandlerProperties.ErrorReplies | internal/response_errors.go:3-9 | every failure carries the message fixed for its status, as a JSON envelope except the plain-text 400, and the five messages are distinct |

## Left out

- Process start-up in cmd/main.go (loading .env, the listen loop, signal handling, graceful shutdown): process plumbing with no effect on a single response.
- The real screenshot backend and the test mock: foreign code. The collaborator is a parameter.
- The 60-second deadline and cancellation propagation: timing and concurrency. The deadline appears only as the `DeadlineExceeded` error identity.
- errors.Is: modelled over a linear Unwrap chain. Multi-error trees and custom Is methods are not modelled.
- JSON encoding and decoding internals: the decoder is an oracle, and the encoder output is the structured `Json` value. Trailing newlines and escaping are not spelled out.
- Http.Error: only the plain-text Content-Type it sets is modelled. Its other header edits are not.
- Logging (request_handler.go:34, 76) and the ignored result of `writer.Write` (84-87): neither affects the response.
- Go's byte strings are modelled as character sequences. This agrees with Go for the ASCII "Bearer " prefix.
- `SetCapture(nil)` followed by a request, which panics in Go: the collaborator in the model is always a function.
- Response content sniffing and headers net/http adds by itself: every path sets its Content-Type before writing.
- RequestHandler.Handler.Handle: requires an unused writer, which is what net/http gives each request. Its behaviour on a writer that was already written to follows from the writer's own contracts and is not restated.
