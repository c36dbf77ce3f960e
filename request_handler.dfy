/** The screenshot endpoint: five gates in a fixed order (method, bearer token, JSON body,
    capture, outcome), each failing gate ending the request with one status and one message. */
module RequestHandler {
  import opened Wrappers
  import opened Strings
  import opened Os
  import opened Errors
  import opened Http
  import opened ResponseErrors

  /** The JSON body the endpoint expects: {"url": "..."}. */
  datatype ScreenshotRequest = ScreenshotRequest(url: string)

  /** The JSON error envelope: {"error": "..."}. */
  datatype ErrorResponse = ErrorResponse(error: string)

  /** An inbound request as the handler sees it. `verb` is its method; `authorization` lists the values of the
      Authorization header in order; `body` is the JSON decoder's verdict on the body, None when
      decoding failed. */
  datatype HttpRequest = HttpRequest(verb: string, authorization: seq<string>, body: Option<ScreenshotRequest>)

  /** What the capture collaborator returns: Go's (bytes, error) pair. */
  datatype CaptureReturn = CaptureReturn(image: seq<Byte>, err: Option<Error>)

  /** The capture collaborator, applied to the URL (its deadline-bound context is abstracted). */
  type Capture = string -> CaptureReturn

  /** The outcome of one request: the response and the URLs handed to capture, in call order. */
  datatype Handled = Handled(response: Response, captureCalls: seq<string>)

  const BearerPrefix := "Bearer "
  const AppToken := "APP_TOKEN"
  const ImagePng := "image/png"
  const ApplicationJson := "application/json"
  const ContentDisposition := "Content-Disposition"
  const Attachment := "attachment; filename='screenshot.png'"

  /** The JSON encoding of the envelope: one member named "error". */
  function ToJson(e: ErrorResponse): Json {
    JObject([("error", JString(e.error))])
  }

  /** The body write json.NewEncoder(w).Encode makes for the envelope holding `message`. */
  function Envelope(message: string): Payload {
    Encoded(ToJson(ErrorResponse(message)))
  }

  /** Header.Get: the first value of the header, or "" when the request does not carry it. */
  function HeaderGet(values: seq<string>): string {
    if values == [] then "" else values[0]
  }

  /** The token comparison: the header with one leading "Bearer " removed must equal the
      configured token. That admits exactly "Bearer " followed by the token, and also the bare
      token when the token does not itself start with "Bearer ". */
  predicate TokenMatches(header: string, token: string)
    ensures TokenMatches(header, token) <==>
      header == BearerPrefix + token || (header == token && !HasPrefix(token, BearerPrefix))
  {
    TrimPrefix(header, BearerPrefix) == token
  }

  /** The bearer-token gate, applied to the first Authorization header ("" when there is none). */
  predicate Authorized(request: HttpRequest, token: string) {
    TokenMatches(HeaderGet(request.authorization), token)
  }

  /** What sendErrorResponse leaves in an unused writer: a JSON reply with the status whose one
      body write is an object whose "error" member is the message. */
  function JsonErrorReply(status: int, message: string): (r: Response)
    ensures r.status == status
    ensures ContentType in r.header && r.header[ContentType] == ApplicationJson
    ensures |r.body| == 1 && r.body[0].Encoded? && Field(r.body[0].doc, "error") == Some(JString(message))
  {
    Response(status, map[ContentType := ApplicationJson], [Envelope(message)])
  }

  /** What http.Error leaves in an unused writer. */
  function PlainTextReply(status: int, message: string): Response {
    Response(status, map[ContentType := PlainText], [TextLine(message)])
  }

  /** What the success path leaves in an unused writer. */
  function ImageReply(image: seq<Byte>): Response {
    Response(StatusOK, map[ContentType := ImagePng, ContentDisposition := Attachment], [Raw(image)])
  }

  /** The response to a capture that returned `ret`. */
  function CaptureOutcome(ret: CaptureReturn): Response {
    match ret.err
    case Some(e) =>
      if Wraps(e, DeadlineExceeded) then JsonErrorReply(StatusGatewayTimeout, RequestTimeOut)
      else JsonErrorReply(StatusInternalServerError, InternalError)
    case None => ImageReply(ret.image)
  }

  /** The decision Handle makes for one request, given the configured token and the capture
      collaborator. Exactly one status from the endpoint's fixed vocabulary is produced, and
      capture is called at most once. */
  function Decide(request: HttpRequest, token: string, capture: Capture): (r: Handled)
    ensures r.response.status in {StatusOK, StatusBadRequest, StatusUnauthorized, StatusMethodNotAllowed,
                                  StatusInternalServerError, StatusGatewayTimeout}
    ensures |r.captureCalls| <= 1
    ensures |r.response.body| == 1
  {
    if request.verb != MethodPost then
      Handled(JsonErrorReply(StatusMethodNotAllowed, OnlyPostAllowed), [])
    else if !Authorized(request, token) then
      Handled(JsonErrorReply(StatusUnauthorized, TokenInvalid), [])
    else match request.body
      case None => Handled(PlainTextReply(StatusBadRequest, InvalidRequestBody), [])
      case Some(screenshotRequest) =>
        var url := screenshotRequest.url;
        Handled(CaptureOutcome(capture(url)), [url])
  }

  /** sendErrorResponse: JSON content type, the status, then the envelope holding `message`. */
  method SendErrorResponse(w: ResponseWriter, status: int, message: string)
    modifies w
    ensures w.header == old(w.header)[ContentType := ApplicationJson]
    ensures w.body == old(w.body) + [Envelope(message)]
    ensures w.wroteHeader && w.headerWrites == old(w.headerWrites) + 1
    ensures old(w.wroteHeader) ==> w.status == old(w.status) && w.sentHeader == old(w.sentHeader)
    ensures !old(w.wroteHeader) ==> w.status == status && w.sentHeader == w.header
  {
    w.Set(ContentType, ApplicationJson);
    w.WriteHeader(status);
    w.Write(Envelope(message));
  }

  /** The package's state: the capture collaborator that SetCapture replaces and Handle uses. */
  class Handler {
    var capture: Capture

    constructor (initial: Capture)
      ensures capture == initial
    {
      capture := initial;
    }

    method SetCapture(c: Capture)
      modifies this
      ensures capture == c
    {
      capture := c;
    }

    /** Serves one request into an unused writer, reading the token from the environment.
        `calls` records the URLs handed to capture. */
    method Handle(writer: ResponseWriter, request: HttpRequest, env: Environment) returns (ghost calls: seq<string>)
      requires writer.Unused()
      modifies writer
      ensures writer.Sent() == Decide(request, Getenv(env, AppToken), capture).response
      ensures calls == Decide(request, Getenv(env, AppToken), capture).captureCalls
      ensures writer.headerWrites == 1
    {
      calls := [];
      if request.verb != MethodPost {
        SendErrorResponse(writer, StatusMethodNotAllowed, OnlyPostAllowed);
        return;
      }

      var authHeader := HeaderGet(request.authorization);
      if TrimPrefix(authHeader, BearerPrefix) != Getenv(env, AppToken) {
        SendErrorResponse(writer, StatusUnauthorized, TokenInvalid);
        return;
      }

      if request.body.None? {
        Http.Error(writer, InvalidRequestBody, StatusBadRequest);
        return;
      }
      var screenshotRequest := request.body.value;

      var ret := capture(screenshotRequest.url);
      calls := [screenshotRequest.url];
      if ret.err.Some? {
        var timedOut := Errors.Is(ret.err.value, DeadlineExceeded);
        if timedOut {
          SendErrorResponse(writer, StatusGatewayTimeout, RequestTimeOut);
        } else {
          SendErrorResponse(writer, StatusInternalServerError, InternalError);
        }
        return;
      }

      writer.Set(ContentType, ImagePng);
      writer.Set(ContentDisposition, Attachment);
      writer.WriteHeader(StatusOK);
      writer.Write(Raw(ret.image));
    }
  }
}
