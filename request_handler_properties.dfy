/** What the handler promises, stated over Decide (which Handle is proved to carry out) and over
    the bearer-token comparison. */
module RequestHandlerProperties {
  import opened Wrappers
  import opened Strings
  import opened Os
  import opened Errors
  import opened Http
  import opened ResponseErrors
  import opened RequestHandler

  /** All three early gates pass: POST, a matching token and a body that decodes. */
  predicate Admitted(request: HttpRequest, token: string) {
    request.verb == MethodPost && Authorized(request, token) && request.body.Some?
  }

  // ---- The bearer token -------------------------------------------------------------------

  /** The documented form "Bearer <token>" is admitted. */
  lemma BearerTokenAccepted(token: string)
    ensures TokenMatches(BearerPrefix + token, token)
  {
  }

  /** The bare token without "Bearer " is admitted too, unless the token itself starts with
      "Bearer " (then only the prefixed form is). */
  lemma BareTokenAccepted(token: string)
    ensures TokenMatches(token, token) <==> !HasPrefix(token, BearerPrefix)
  {
    assert |BearerPrefix + token| != |token|;
  }

  /** A doubled prefix is stripped only once: "Bearer Bearer " + x is admitted exactly when the
      configured token is "Bearer " + x, so "Bearer Bearer " + token never matches token. */
  lemma DoubledBearerPrefix(x: string, token: string)
    ensures TokenMatches(BearerPrefix + BearerPrefix + x, token) <==> token == BearerPrefix + x
    ensures !TokenMatches(BearerPrefix + BearerPrefix + token, token)
  {
    assert BearerPrefix + BearerPrefix + x == BearerPrefix + (BearerPrefix + x);
    assert BearerPrefix + BearerPrefix + token == BearerPrefix + (BearerPrefix + token);
  }

  /** An absent or empty Authorization header passes the token gate exactly when the configured
      token is empty. */
  lemma EmptyAuthorization(request: HttpRequest, token: string)
    requires HeaderGet(request.authorization) == ""
    ensures Authorized(request, token) <==> token == ""
  {
  }

  /** With APP_TOKEN unset the configured token reads as empty, so a request carrying no
      Authorization header at all passes the token gate. */
  lemma UnsetAppTokenAdmitsAnonymous(request: HttpRequest, env: Environment)
    requires AppToken !in env && request.authorization == []
    ensures Authorized(request, Getenv(env, AppToken))
  {
    EmptyAuthorization(request, Getenv(env, AppToken));
  }

  /** When several Authorization headers are sent, only the first one is compared. */
  lemma FirstAuthorizationDecides(request: HttpRequest, token: string)
    requires request.authorization != []
    ensures Authorized(request, token) <==> TrimPrefix(request.authorization[0], BearerPrefix) == token
  {
  }

  // ---- The gates, in order ----------------------------------------------------------------

  /** Any method other than POST gets 405 with the OnlyPostAllowed envelope, whatever the
      header, the body or the collaborator, and capture is not called. */
  lemma MethodGate(request: HttpRequest, token: string, capture: Capture)
    requires request.verb != MethodPost
    ensures var r := Decide(request, token, capture);
      r.response.status == StatusMethodNotAllowed &&
      r.response.header == map[ContentType := ApplicationJson] &&
      r.response.body == [Envelope(OnlyPostAllowed)] &&
      r.captureCalls == []
  {
  }

  /** A POST is refused with 401 and the TokenInvalid envelope exactly when the trimmed
      Authorization header differs from the token; capture is then not called. */
  lemma TokenGate(request: HttpRequest, token: string, capture: Capture)
    requires request.verb == MethodPost
    ensures var r := Decide(request, token, capture);
      (r.response.status == StatusUnauthorized <==>
         TrimPrefix(HeaderGet(request.authorization), BearerPrefix) != token) &&
      (r.response.status == StatusUnauthorized ==>
         r.response.header == map[ContentType := ApplicationJson] &&
         r.response.body == [Envelope(TokenInvalid)] && r.captureCalls == [])
  {
  }

  /** An authorized POST whose body does not decode gets 400 with the message as plain text,
      not the JSON envelope; capture is not called. */
  lemma BodyGate(request: HttpRequest, token: string, capture: Capture)
    requires request.verb == MethodPost && Authorized(request, token) && request.body.None?
    ensures var r := Decide(request, token, capture);
      r.response.status == StatusBadRequest &&
      r.response.header == map[ContentType := PlainText] &&
      r.response.body == [TextLine(InvalidRequestBody)] &&
      r.captureCalls == []
  {
  }

  /** Capture is called at most once, exactly when the three earlier gates pass, and with the
      decoded URL unchanged. */
  lemma CaptureCall(request: HttpRequest, token: string, capture: Capture)
    ensures var r := Decide(request, token, capture);
      (r.captureCalls != [] <==> Admitted(request, token)) &&
      (r.captureCalls != [] ==> r.captureCalls == [request.body.value.url])
  {
  }

  /** A failed capture gives 504 and RequestTimeOut when the error is a deadline expiry, and
      500 and InternalError otherwise, both as JSON envelopes. */
  lemma CaptureFailure(request: HttpRequest, token: string, capture: Capture)
    requires Admitted(request, token)
    requires capture(request.body.value.url).err.Some?
    ensures var e := capture(request.body.value.url).err.value;
      var r := Decide(request, token, capture).response;
      r.header == map[ContentType := ApplicationJson] &&
      (Wraps(e, DeadlineExceeded) ==> r.status == StatusGatewayTimeout && r.body == [Envelope(RequestTimeOut)]) &&
      (!Wraps(e, DeadlineExceeded) ==> r.status == StatusInternalServerError && r.body == [Envelope(InternalError)])
  {
  }

  /** A request cancelled by its client (context.Canceled, not a deadline) is reported as an
      internal error, not as a timeout. */
  lemma ClientCancellationIsInternalError(request: HttpRequest, token: string, capture: Capture)
    requires Admitted(request, token)
    requires capture(request.body.value.url).err.Some?
    requires var e := capture(request.body.value.url).err.value; Wraps(e, Canceled) && !Wraps(e, DeadlineExceeded)
    ensures Decide(request, token, capture).response.status == StatusInternalServerError
  {
  }

  /** Two collaborator answers that agree on success and its bytes, or on failure and whether
      it was a deadline expiry. */
  predicate SameVerdict(a: CaptureReturn, b: CaptureReturn) {
    match (a.err, b.err)
    case (None, None) => a.image == b.image
    case (Some(x), Some(y)) => Wraps(x, DeadlineExceeded) == Wraps(y, DeadlineExceeded)
    case _ => false
  }

  /** The response never depends on a capture error's detail, nor on bytes returned alongside
      an error: collaborators with the same verdict give the same response. */
  lemma ErrorDetailNotLeaked(request: HttpRequest, token: string, c1: Capture, c2: Capture)
    requires request.body.Some? ==> SameVerdict(c1(request.body.value.url), c2(request.body.value.url))
    ensures Decide(request, token, c1).response == Decide(request, token, c2).response
  {
  }

  /** A successful capture gives 200, the PNG content type, the attachment disposition and
      exactly the captured bytes. */
  lemma Success(request: HttpRequest, token: string, capture: Capture)
    requires Admitted(request, token)
    requires capture(request.body.value.url).err.None?
    ensures var r := Decide(request, token, capture).response;
      r.status == StatusOK &&
      r.header == map[ContentType := ImagePng, ContentDisposition := Attachment] &&
      r.body == [Raw(capture(request.body.value.url).image)]
  {
  }

  /** The status names the first failing gate in the order method, token, body, capture, and
      each status arises from exactly one gate. */
  lemma FirstFailingGateDecides(request: HttpRequest, token: string, capture: Capture)
    ensures var s := Decide(request, token, capture).response.status;
      var ret := capture(if request.body.Some? then request.body.value.url else "");
      (s == StatusMethodNotAllowed <==> request.verb != MethodPost) &&
      (s == StatusUnauthorized <==> request.verb == MethodPost && !Authorized(request, token)) &&
      (s == StatusBadRequest <==> request.verb == MethodPost && Authorized(request, token) && request.body.None?) &&
      (s == StatusGatewayTimeout <==> Admitted(request, token) && ret.err.Some? && Wraps(ret.err.value, DeadlineExceeded)) &&
      (s == StatusInternalServerError <==> Admitted(request, token) && ret.err.Some? && !Wraps(ret.err.value, DeadlineExceeded)) &&
      (s == StatusOK <==> Admitted(request, token) && ret.err.None?)
  {
  }

  /** The message fixed for each error status. */
  function MessageFor(status: int): string {
    if status == StatusMethodNotAllowed then OnlyPostAllowed
    else if status == StatusUnauthorized then TokenInvalid
    else if status == StatusBadRequest then InvalidRequestBody
    else if status == StatusGatewayTimeout then RequestTimeOut
    else InternalError
  }

  /** Every failure carries the one message fixed for its status: as a JSON envelope with a
      JSON content type, except the 400 reply, which is plain text. The five messages differ,
      so the body alone names the failing gate. */
  lemma ErrorReplies(request: HttpRequest, token: string, capture: Capture)
    ensures var r := Decide(request, token, capture).response;
      (r.status != StatusOK && r.status != StatusBadRequest ==>
         r.header == map[ContentType := ApplicationJson] && r.body == [Envelope(MessageFor(r.status))]) &&
      (r.status == StatusBadRequest ==>
         r.header == map[ContentType := PlainText] && r.body == [TextLine(MessageFor(r.status))])
    ensures forall s1, s2 | s1 in ErrorStatuses && s2 in ErrorStatuses && s1 != s2 :: MessageFor(s1) != MessageFor(s2)
  {
  }

  const ErrorStatuses := {StatusBadRequest, StatusUnauthorized, StatusMethodNotAllowed,
                          StatusInternalServerError, StatusGatewayTimeout}

  /** The four scenarios of the repository's handler tests, replayed through Handle: a GET with
      a valid token, a wrong token, a collaborator that times out and one that succeeds. */
  method HandlerScenarios(token: string, image: seq<Byte>)
    requires token != "12345"
  {
    var env := map[AppToken := token];
    var google := "https://google.com";
    var local := "http://localhost:81";
    var mock: Capture := u => if u == google then CaptureReturn(image, None)
                              else CaptureReturn([], Some(Error([DeadlineExceeded], "context deadline exceeded")));
    var handler := new Handler(mock);

    var w := new ResponseWriter();
    var calls := handler.Handle(w, HttpRequest("GET", [BearerPrefix + token], Some(ScreenshotRequest(google))), env);
    assert w.Sent().status == StatusMethodNotAllowed && w.Sent().body == [Envelope(OnlyPostAllowed)];

    w := new ResponseWriter();
    calls := handler.Handle(w, HttpRequest(MethodPost, [BearerPrefix + "12345"], Some(ScreenshotRequest(google))), env);
    assert w.Sent().status == StatusUnauthorized && w.Sent().body == [Envelope(TokenInvalid)];

    w := new ResponseWriter();
    calls := handler.Handle(w, HttpRequest(MethodPost, [BearerPrefix + token], Some(ScreenshotRequest(local))), env);
    assert w.Sent().status == StatusGatewayTimeout && calls == [local];

    w := new ResponseWriter();
    calls := handler.Handle(w, HttpRequest(MethodPost, [BearerPrefix + token], Some(ScreenshotRequest(google))), env);
    assert w.Sent().status == StatusOK && w.Sent().body == [Raw(image)] && calls == [google];
  }
}
