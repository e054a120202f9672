/** `Api::api` and `Api::checkResponse` (lib/Api.php:81-171) as functions on a
    value that holds every piece of state a call can read or change. The
    class `Client.Api` is proved to behave exactly like `Dispatch`. */
module Dispatcher {
  import opened Wrappers
  import opened Http
  import opened Url

  /** What the client is constructed with, plus the two library functions it
      calls. `expiredSentinel` is `self::EXPIRED_ACCESS_TOKEN`. */
  datatype Config = Config(baseUrl: string, userKey: string, expiredSentinel: string,
                           urlEncode: string -> string)

  /** The events `api` triggers, with their payloads. */
  datatype Event =
    | ApiRequestInit(url: string)
    | ApiRequestSend(url: string, httpMethod: HttpMethod, data: Option<string>)
    | ApiRequestComplete(url: string, response: Response)

  /** One request as the transport put it on the wire. */
  datatype Sent = Sent(url: string, httpMethod: HttpMethod, data: Option<string>,
                       contentType: Option<string>)

  /** Everything a call to `api` reads or changes:
      - the token provider: its token slot and the tokens a handshake would
        obtain next, in order;
      - the shared request object: its configured method, body and content
        type, its last response, the responses the server will give next, in
        order, and the log of what it sent;
      - the client itself: the expiry flag and the events it triggered. */
  datatype Session = Session(
    token: Option<string>,
    grants: seq<string>,
    httpMethod: HttpMethod,
    data: Option<string>,
    contentType: Option<string>,
    response: Response,
    pending: seq<Response>,
    sent: seq<Sent>,
    isTokenExpired: bool,
    events: seq<Event>)

  /** A state together with what the operation returned or threw. */
  datatype Outcome<+T> = Outcome(state: Session, result: Result<T>)

  const MISSING_TOKEN: string := "Cannot make an api request without an access token"
  const CONTENT_TYPE_PREFIX: string := "application/"

  /** PHP truthiness of an optional string: `null`, "" and "0" are false. */
  predicate Truthy(token: Option<string>): (b: bool)
    ensures b ==> token.Some? && |token.value| > 0
  {
    token.Some? && token.value != "" && token.value != "0"
  }

  /** The strings PHP treats as false are exactly "" and "0": "00", " " and
      "false" are all true. */
  lemma FalsyStrings(t: string)
    ensures !Truthy(None) && !Truthy(Some("")) && !Truthy(Some("0"))
    ensures Truthy(Some("00")) && Truthy(Some(" ")) && Truthy(Some("false"))
    ensures |t| == 1 && t != "0" ==> Truthy(Some(t))
    ensures |t| > 1 ==> Truthy(Some(t))
  {
    if |t| > 1 {
      assert |t| != |"0"|;
    }
  }

  /** The token provider's `authenticate()`: a token it holds is kept;
      without one it performs a handshake, which yields the next grant, or
      nothing when no handshake can succeed. */
  function Authenticate(s: Session): (t: Session)
    ensures t.token.Some? <==> s.token.Some? || s.grants != []
    ensures s.token.Some? || s.grants == [] ==> t == s
    ensures s.token.None? && s.grants != [] ==> t == s.(token := Some(s.grants[0]), grants := s.grants[1..])
  {
    if s.token.None? && s.grants != [] then
      s.(token := Some(s.grants[0]), grants := s.grants[1..])
    else
      s
  }

  /** The content type the request object holds after lines 117-119: a
      truthy one is prefixed with `application/`; otherwise (none, "" or "0")
      the request keeps whatever it held before. */
  function ContentTypeAfter(current: Option<string>, contentType: Option<string>): (r: Option<string>)
    ensures !Truthy(contentType) ==> r == current
    ensures Truthy(contentType) ==> r.Some? && CONTENT_TYPE_PREFIX <= r.value
                                    && r.value[|CONTENT_TYPE_PREFIX|..] == contentType.value
  {
    if Truthy(contentType) then Some(CONTENT_TYPE_PREFIX + contentType.value) else current
  }

  /** The request object's `send($url)`: the next scripted response becomes
      the current one and the request is logged as sent; with no response
      left, the transport fails. */
  function Send(s: Session, url: string): (r: Outcome<()>)
    ensures r.result.Ok? <==> s.pending != []
    ensures r.result.Ok? ==> r.state == s.(response := s.pending[0], pending := s.pending[1..],
                                           sent := s.sent + [Sent(url, s.httpMethod, s.data, s.contentType)])
    ensures r.result.Err? ==> r.state == s && r.result.error == TransportError
  {
    if s.pending == [] then Outcome(s, Err(TransportError))
    else
      Outcome(s.(response := s.pending[0], pending := s.pending[1..],
                 sent := s.sent + [Sent(url, s.httpMethod, s.data, s.contentType)]), Ok(()))
  }

  /** `checkResponse` (lines 154-171): true for an accepted response; false,
      after raising the expiry flag, for the expiry sentinel; an exception
      carrying the server's message for any other error envelope. */
  function CheckResponse(s: Session, sentinel: string): (r: Outcome<bool>)
    ensures r.state == s || r.state == s.(isTokenExpired := true)
    ensures r.result == Ok(true) ==> Classify(s.response, sentinel) == Accepted
    ensures r.result == Ok(false) ==> r.state.isTokenExpired
  {
    match Classify(s.response, sentinel)
    case Accepted => Outcome(s, Ok(true))
    case Expired => Outcome(s.(isTokenExpired := true), Ok(false))
    case Rejected(d) => Outcome(s, Err(ApiError(d)))
  }

  /** `checkResponse` returns false only after setting the expiry flag, so
      the replay condition `!$vaild && $this->isTokenExpired` at line 131 is
      the same as `!$vaild`; and the flag it sets is never lowered again. */
  lemma CheckResponseOutcomes(s: Session, sentinel: string)
    ensures var r := CheckResponse(s, sentinel);
      && (r.result == Ok(true) <==> Classify(s.response, sentinel) == Accepted)
      && (r.result == Ok(false) <==> s.response.Array? && ErrorDescription(s.response) == Some(sentinel))
      && (r.result == Ok(false) ==> r.state.isTokenExpired)
      && (r.result.Err? <==> Classify(s.response, sentinel).Rejected?)
      && (r.result.Err? ==> r.result.error == Exception(API_ERROR_PREFIX + ErrorDescription(s.response).value))
      && (s.isTokenExpired ==> r.state.isTokenExpired)
      && r.state.sent == s.sent && r.state.token == s.token && r.state.response == s.response
  {
  }

  /** Lines 113-129 for the decorated URL `full`: configure the shared
      request, trigger the send event, send, trigger the completion event
      and check the response. */
  function SendAndCheck(cfg: Config, s: Session, full: string, httpMethod: HttpMethod,
                        data: Option<string>, contentType: Option<string>): (r: Outcome<bool>)
    ensures r.result.Ok? ==> s.pending != [] && r.state.pending == s.pending[1..]
                             && r.state.response == s.pending[0]
    ensures r.result == Ok(true) ==> Classify(r.state.response, cfg.expiredSentinel) == Accepted
    ensures r.result == Ok(false) ==> r.state.isTokenExpired
  {
    var s3 := s.(httpMethod := httpMethod, data := data,
                 contentType := ContentTypeAfter(s.contentType, contentType));
    var s4 := s3.(events := s3.events + [ApiRequestSend(full, httpMethod, data)]);
    var sent := Send(s4, full);
    if sent.result.Err? then
      Outcome(sent.state, Err(sent.result.error))
    else
      var s5 := sent.state;
      CheckResponse(s5.(events := s5.events + [ApiRequestComplete(full, s5.response)]), cfg.expiredSentinel)
  }

  /** One pass through lines 84-129 for an already base-prefixed `url`: the
      init event, authentication, the token check, decoration, and then
      `SendAndCheck`. The result is `checkResponse`'s verdict. */
  function Attempt(cfg: Config, s: Session, url: string, httpMethod: HttpMethod,
                   data: Option<string>, contentType: Option<string>): (r: Outcome<bool>)
    ensures r.result.Ok? ==> s.pending != [] && r.state.pending == s.pending[1..]
                             && r.state.response == s.pending[0]
    ensures r.result == Ok(true) ==> Classify(r.state.response, cfg.expiredSentinel) == Accepted
    ensures r.result == Ok(false) ==> r.state.isTokenExpired
  {
    var s2 := Authenticate(s.(events := s.events + [ApiRequestInit(url)]));
    if !Truthy(s2.token) then
      Outcome(s2, Err(Exception(MISSING_TOKEN)))
    else
      SendAndCheck(cfg, s2, Decorate(url, s2.token.value, cfg.userKey, cfg.urlEncode),
                   httpMethod, data, contentType)
  }

  /** `api($url, $httpMethod, $data, $contentType)` as written: prefix the
      base URL, attempt, and on expiry clear the token and call `api` again
      with the saved request (the already prefixed URL, the method and the
      data; no content type); the value is the request's latest response. */
  function Dispatch(cfg: Config, s: Session, path: string, httpMethod: HttpMethod,
                    data: Option<string>, contentType: Option<string>): (r: Outcome<Response>)
    ensures r.result.Ok? ==> r.result.value == r.state.response
                             && Classify(r.result.value, cfg.expiredSentinel) == Accepted
    ensures |r.state.pending| <= |s.pending|
    decreases |s.pending|
  {
    var url := cfg.baseUrl + path;
    var first := Attempt(cfg, s, url, httpMethod, data, contentType);
    if first.result.Err? then
      Outcome(first.state, Err(first.result.error))
    else if !first.result.value && first.state.isTokenExpired then
      var cleared := first.state.(token := None);
      var replay := Dispatch(cfg, cleared, url, httpMethod, data, None);
      if replay.result.Err? then replay
      else Outcome(replay.state, Ok(replay.state.response))
    else
      Outcome(first.state, Ok(first.state.response))
  }

  // ---------------------------------------------------------------------
  // One attempt

  /** Without a usable token after `authenticate()`, the attempt throws
      before configuring or sending anything: the only trace is the init
      event (and whatever the handshake consumed). */
  lemma AttemptWithoutToken(cfg: Config, s: Session, url: string, httpMethod: HttpMethod,
                            data: Option<string>, contentType: Option<string>)
    requires !Truthy(Authenticate(s).token)
    ensures Attempt(cfg, s, url, httpMethod, data, contentType)
         == Outcome(Authenticate(s).(events := s.events + [ApiRequestInit(url)]), Err(Exception(MISSING_TOKEN)))
  {
  }

  /** With a usable token and a response to come, the attempt sends exactly
      one request, to the decorated URL, with the caller's method and body and
      the content type the request object then holds, triggers the three
      events in order, and returns `checkResponse`'s verdict on the response. */
  lemma AttemptSendsOnce(cfg: Config, s: Session, url: string, httpMethod: HttpMethod,
                         data: Option<string>, contentType: Option<string>)
    requires Truthy(Authenticate(s).token) && s.pending != []
    ensures var r := Attempt(cfg, s, url, httpMethod, data, contentType);
            var a := Authenticate(s);
            var full := Decorate(url, a.token.value, cfg.userKey, cfg.urlEncode);
            var v := Classify(s.pending[0], cfg.expiredSentinel);
      && r.state == a.(httpMethod := httpMethod, data := data,
                       contentType := ContentTypeAfter(s.contentType, contentType),
                       response := s.pending[0], pending := s.pending[1..],
                       sent := s.sent + [Sent(full, httpMethod, data, ContentTypeAfter(s.contentType, contentType))],
                       isTokenExpired := s.isTokenExpired || v == Expired,
                       events := s.events + [ApiRequestInit(url), ApiRequestSend(full, httpMethod, data),
                                             ApiRequestComplete(full, s.pending[0])])
      && r.state.sent == s.sent + [Sent(full, httpMethod, data, ContentTypeAfter(s.contentType, contentType))]
      && r.state.token == a.token
      && r.result == match v
                     case Accepted => Ok(true)
                     case Expired => Ok(false)
                     case Rejected(d) => Err(ApiError(d))
  {
  }

  /** Whatever happens, an attempt consumes at most one scripted response and
      logs exactly the sends it consumed them with, each carrying the caller's
      method and body; it returns a verdict only after a send, `true` exactly
      for an accepted response and `false` only with the expiry flag raised;
      and it never lowers that flag. */
  lemma AttemptSteps(cfg: Config, s: Session, url: string, httpMethod: HttpMethod,
                     data: Option<string>, contentType: Option<string>)
    ensures var r := Attempt(cfg, s, url, httpMethod, data, contentType);
            var n := |s.pending| - |r.state.pending|;
      && (n == 0 || n == 1) && r.state.pending == s.pending[n..]
      && |r.state.sent| == |s.sent| + n && r.state.sent[..|s.sent|] == s.sent
      && (n == 1 ==> r.state.sent[|s.sent|].httpMethod == httpMethod
                     && r.state.sent[|s.sent|].data == data
                     && r.state.sent[|s.sent|].contentType == ContentTypeAfter(s.contentType, contentType))
      && r.state.contentType in {s.contentType, ContentTypeAfter(s.contentType, contentType)}
      && (r.result.Ok? ==>
            && n == 1 && r.state.response == s.pending[0]
            && (r.result.value <==> Classify(s.pending[0], cfg.expiredSentinel) == Accepted)
            && (!r.result.value ==> r.state.isTokenExpired))
      && (s.isTokenExpired ==> r.state.isTokenExpired)
  {
    if Truthy(Authenticate(s).token) && s.pending != [] {
      AttemptSendsOnce(cfg, s, url, httpMethod, data, contentType);
    }
  }

  // ---------------------------------------------------------------------
  // The dispatcher as written

  /** From `before` to `after`, every send consumed the next scripted
      response and was logged after the earlier sends, with the given method
      and body. */
  ghost predicate SendsConsumeScript(before: Session, after: Session, httpMethod: HttpMethod,
                                     data: Option<string>)
  {
    var n := |before.pending| - |after.pending|;
    && 0 <= n && after.pending == before.pending[n..]
    && |after.sent| == |before.sent| + n && after.sent[..|before.sent|] == before.sent
    && (forall i :: |before.sent| <= i < |after.sent| ==>
          after.sent[i].httpMethod == httpMethod && after.sent[i].data == data)
  }

  /** The relation is transitive. */
  lemma SendsConsumeScriptTrans(a: Session, b: Session, c: Session, httpMethod: HttpMethod,
                                data: Option<string>)
    requires SendsConsumeScript(a, b, httpMethod, data) && SendsConsumeScript(b, c, httpMethod, data)
    ensures SendsConsumeScript(a, c, httpMethod, data)
  {
    var n := |a.pending| - |b.pending|;
    var m := |b.pending| - |c.pending|;
    assert a.pending[n..][m..] == a.pending[n + m..];
    assert c.sent[..|a.sent|] == c.sent[..|b.sent|][..|a.sent|];
  }

  /** One attempt sends at most once, consuming the script in order. */
  lemma AttemptConsumes(cfg: Config, s: Session, url: string, httpMethod: HttpMethod,
                        data: Option<string>, contentType: Option<string>)
    ensures var r := Attempt(cfg, s, url, httpMethod, data, contentType).state;
      SendsConsumeScript(s, r, httpMethod, data) && |r.sent| <= |s.sent| + 1
  {
    AttemptSteps(cfg, s, url, httpMethod, data, contentType);
  }

  /** Over a whole call, replays included: every send consumes the next
      scripted response and is logged after the earlier ones, and every send
      carries the caller's method and body (a replay repeats both). */
  lemma {:induction false} DispatchSends(cfg: Config, s: Session, path: string, httpMethod: HttpMethod,
                                         data: Option<string>, contentType: Option<string>)
    ensures SendsConsumeScript(s, Dispatch(cfg, s, path, httpMethod, data, contentType).state, httpMethod, data)
    decreases |s.pending|
  {
    var url := cfg.baseUrl + path;
    var first := Attempt(cfg, s, url, httpMethod, data, contentType);
    AttemptConsumes(cfg, s, url, httpMethod, data, contentType);
    if first.result.Ok? && !first.result.value && first.state.isTokenExpired {
      var cleared := first.state.(token := None);
      DispatchSends(cfg, cleared, url, httpMethod, data, None);
      SendsConsumeScriptTrans(s, cleared, Dispatch(cfg, cleared, url, httpMethod, data, None).state,
                              httpMethod, data);
    }
  }

  /** The value `api` returns is the request object's latest response, which
      is the last scripted response consumed and an accepted one (never an
      error envelope); and the expiry flag, once raised, stays raised. */
  lemma {:induction false} DispatchReturnsLatest(cfg: Config, s: Session, path: string, httpMethod: HttpMethod,
                                                 data: Option<string>, contentType: Option<string>)
    ensures var o := Dispatch(cfg, s, path, httpMethod, data, contentType);
            var n := |s.pending| - |o.state.pending|;
      && (o.result.Ok? ==> 0 < n <= |s.pending| && o.result.value == o.state.response == s.pending[n - 1]
                           && Classify(o.result.value, cfg.expiredSentinel) == Accepted)
      && (s.isTokenExpired ==> o.state.isTokenExpired)
    decreases |s.pending|
  {
    var url := cfg.baseUrl + path;
    var first := Attempt(cfg, s, url, httpMethod, data, contentType);
    AttemptSteps(cfg, s, url, httpMethod, data, contentType);
    DispatchSends(cfg, s, path, httpMethod, data, contentType);
    if first.result.Ok? && !first.result.value && first.state.isTokenExpired {
      var cleared := first.state.(token := None);
      DispatchReturnsLatest(cfg, cleared, url, httpMethod, data, None);
      DispatchSends(cfg, cleared, url, httpMethod, data, None);
      var o := Dispatch(cfg, cleared, url, httpMethod, data, None);
      var m := |cleared.pending| - |o.state.pending|;
      if o.result.Ok? {
        assert s.pending[1..][m - 1] == s.pending[m];
      }
    }
  }

  /** With a usable token and a response to come, the first thing `api`
      sends, whatever follows, is the caller's request: to the decorated
      base-prefixed URL, with the caller's method and body and the content
      type it configured. */
  lemma FirstSend(cfg: Config, s: Session, path: string, httpMethod: HttpMethod,
                  data: Option<string>, contentType: Option<string>)
    requires Truthy(Authenticate(s).token) && s.pending != []
    ensures var o := Dispatch(cfg, s, path, httpMethod, data, contentType);
      && |o.state.sent| > |s.sent|
      && o.state.sent[|s.sent|]
         == Sent(Decorate(cfg.baseUrl + path, Authenticate(s).token.value, cfg.userKey, cfg.urlEncode),
                 httpMethod, data, ContentTypeAfter(s.contentType, contentType))
  {
    var url := cfg.baseUrl + path;
    AttemptSendsOnce(cfg, s, url, httpMethod, data, contentType);
    var first := Attempt(cfg, s, url, httpMethod, data, contentType).state;
    var cleared := first.(token := None);
    DispatchSends(cfg, cleared, url, httpMethod, data, None);
    var o := Dispatch(cfg, cleared, url, httpMethod, data, None);
    assert o.state.sent[|s.sent|] == o.state.sent[..|cleared.sent|][|s.sent|];
  }

  /** No usable token after `authenticate()`: `api` throws "Cannot make an
      api request without an access token"; nothing is sent, no response is
      consumed, and the init event is the only event triggered. */
  lemma MissingTokenSendsNothing(cfg: Config, s: Session, path: string, httpMethod: HttpMethod,
                                 data: Option<string>, contentType: Option<string>)
    requires !Truthy(Authenticate(s).token)
    ensures var o := Dispatch(cfg, s, path, httpMethod, data, contentType);
      && o.result == Err(Exception(MISSING_TOKEN))
      && o.state.sent == s.sent && o.state.pending == s.pending
      && o.state.events == s.events + [ApiRequestInit(cfg.baseUrl + path)]
  {
    AttemptWithoutToken(cfg, s, cfg.baseUrl + path, httpMethod, data, contentType);
  }

  /** An accepted response: `api` returns it unchanged after exactly one
      send, to the decorated base-prefixed URL, and leaves the token alone. */
  lemma AcceptedResponseReturned(cfg: Config, s: Session, path: string, httpMethod: HttpMethod,
                                 data: Option<string>, contentType: Option<string>)
    requires Truthy(Authenticate(s).token) && s.pending != []
    requires Classify(s.pending[0], cfg.expiredSentinel) == Accepted
    ensures var o := Dispatch(cfg, s, path, httpMethod, data, contentType);
            var token := Authenticate(s).token;
      && o.result == Ok(s.pending[0])
      && o.state.sent == s.sent + [Sent(Decorate(cfg.baseUrl + path, token.value, cfg.userKey, cfg.urlEncode),
                                        httpMethod, data, ContentTypeAfter(s.contentType, contentType))]
      && o.state.token == token
      && o.state.isTokenExpired == s.isTokenExpired
  {
    AttemptSendsOnce(cfg, s, cfg.baseUrl + path, httpMethod, data, contentType);
  }

  /** Any other error envelope: `api` throws "API Error :: " followed by the
      server's message, after exactly one send and without a replay. */
  lemma RejectedResponseThrows(cfg: Config, s: Session, path: string, httpMethod: HttpMethod,
                               data: Option<string>, contentType: Option<string>)
    requires Truthy(Authenticate(s).token) && s.pending != []
    requires Classify(s.pending[0], cfg.expiredSentinel).Rejected?
    ensures var o := Dispatch(cfg, s, path, httpMethod, data, contentType);
      && o.result == Err(Exception(API_ERROR_PREFIX + ErrorDescription(s.pending[0]).value))
      && |o.state.sent| == |s.sent| + 1
      && o.state.token == Authenticate(s).token
      && o.state.pending == s.pending[1..]
  {
    AttemptSendsOnce(cfg, s, cfg.baseUrl + path, httpMethod, data, contentType);
  }

  /** The expiry sentinel: `api` raises the flag, clears the token, and its
      whole effect and value are those of calling `api` again on the saved
      URL (already base-prefixed), method and data, with no content type. */
  lemma ExpiredResponseReplays(cfg: Config, s: Session, path: string, httpMethod: HttpMethod,
                               data: Option<string>, contentType: Option<string>)
    requires Truthy(Authenticate(s).token) && s.pending != []
    requires Classify(s.pending[0], cfg.expiredSentinel) == Expired
    ensures var url := cfg.baseUrl + path;
            var first := Attempt(cfg, s, url, httpMethod, data, contentType).state;
      && first.isTokenExpired
      && first.sent == s.sent + [Sent(Decorate(url, Authenticate(s).token.value, cfg.userKey, cfg.urlEncode),
                                      httpMethod, data, ContentTypeAfter(s.contentType, contentType))]
      && Dispatch(cfg, s, path, httpMethod, data, contentType)
         == Dispatch(cfg, first.(token := None), url, httpMethod, data, None)
  {
    var url := cfg.baseUrl + path;
    AttemptSendsOnce(cfg, s, url, httpMethod, data, contentType);
    var first := Attempt(cfg, s, url, httpMethod, data, contentType).state;
    DispatchReturnsLatest(cfg, first.(token := None), url, httpMethod, data, None);
  }

  /** Expiry followed by an accepted replay with a fresh token: two sends,
      the second to the base URL prefixed TWICE, with the same method and
      data and the content type the first call left on the request object;
      the replay's response is returned and the fresh token is kept. */
  lemma ReplayAfterExpiry(cfg: Config, s: Session, path: string, httpMethod: HttpMethod,
                          data: Option<string>, contentType: Option<string>)
    requires Truthy(Authenticate(s).token) && |s.pending| >= 2
    requires Classify(s.pending[0], cfg.expiredSentinel) == Expired
    requires Classify(s.pending[1], cfg.expiredSentinel) == Accepted
    requires Authenticate(s).grants != [] && Truthy(Some(Authenticate(s).grants[0]))
    ensures var o := Dispatch(cfg, s, path, httpMethod, data, contentType);
            var t1 := Authenticate(s).token.value;
            var t2 := Authenticate(s).grants[0];
            var ct := ContentTypeAfter(s.contentType, contentType);
      && o.result == Ok(s.pending[1])
      && o.state.sent == s.sent + [
           Sent(Decorate(cfg.baseUrl + path, t1, cfg.userKey, cfg.urlEncode), httpMethod, data, ct),
           Sent(Decorate(cfg.baseUrl + (cfg.baseUrl + path), t2, cfg.userKey, cfg.urlEncode), httpMethod, data, ct)]
      && o.state.token == Some(t2)
      && o.state.isTokenExpired
  {
    var url := cfg.baseUrl + path;
    ExpiredResponseReplays(cfg, s, path, httpMethod, data, contentType);
    AttemptSendsOnce(cfg, s, url, httpMethod, data, contentType);
    var first := Attempt(cfg, s, url, httpMethod, data, contentType).state;
    var cleared := first.(token := None);
    assert cleared.token == None && cleared.grants == Authenticate(s).grants;
    assert cleared.contentType == ContentTypeAfter(s.contentType, contentType);
    assert cleared.pending[0] == s.pending[1];
    AcceptedResponseReturned(cfg, cleared, url, httpMethod, data, None);
  }

  /** `k` copies of `b`. */
  function Repeated(b: string, k: nat): string {
    if k == 0 then "" else Repeated(b, k - 1) + b
  }

  /** The state a replay starts from when a call that holds no token meets
      the expiry sentinel: one grant and one response consumed, one send
      logged with the first grant, no token, and the content type the call
      configured still on the request object. */
  function ReplayStart(cfg: Config, s: Session, path: string, httpMethod: HttpMethod,
                       data: Option<string>, contentType: Option<string>): (c: Session)
    requires s.token.None? && s.grants != [] && s.pending != []
    ensures c.token.None? && c.grants == s.grants[1..] && c.pending == s.pending[1..]
    ensures c.contentType == ContentTypeAfter(s.contentType, contentType)
  {
    var url := cfg.baseUrl + path;
    var ct := ContentTypeAfter(s.contentType, contentType);
    s.(token := None, grants := s.grants[1..], httpMethod := httpMethod, data := data, contentType := ct,
       response := s.pending[0], pending := s.pending[1..],
       sent := s.sent + [Sent(Decorate(url, s.grants[0], cfg.userKey, cfg.urlEncode), httpMethod, data, ct)],
       isTokenExpired := true,
       events := s.events + [ApiRequestInit(url),
                             ApiRequestSend(Decorate(url, s.grants[0], cfg.userKey, cfg.urlEncode), httpMethod, data),
                             ApiRequestComplete(Decorate(url, s.grants[0], cfg.userKey, cfg.urlEncode), s.pending[0])])
  }

  /** A call that starts without a token and meets the expiry sentinel
      continues as the replay from `ReplayStart`. */
  lemma ExpiredWithoutTokenReplays(cfg: Config, s: Session, path: string, httpMethod: HttpMethod,
                                   data: Option<string>, contentType: Option<string>)
    requires s.token.None? && s.grants != [] && Truthy(Some(s.grants[0])) && s.pending != []
    requires Classify(s.pending[0], cfg.expiredSentinel) == Expired
    ensures Dispatch(cfg, s, path, httpMethod, data, contentType)
         == Dispatch(cfg, ReplayStart(cfg, s, path, httpMethod, data, contentType),
                     cfg.baseUrl + path, httpMethod, data, None)
  {
    var url := cfg.baseUrl + path;
    assert Truthy(Authenticate(s).token);
    ExpiredResponseReplays(cfg, s, path, httpMethod, data, contentType);
    AttemptSendsOnce(cfg, s, url, httpMethod, data, contentType);
    var first := Attempt(cfg, s, url, httpMethod, data, contentType).state;
    assert first.(token := None) == ReplayStart(cfg, s, path, httpMethod, data, contentType);
  }

  /** The sends `ReplayIsUnbounded` promises for `n` responses to `path`, at
      positions `from` on of `sent`. */
  ghost predicate GrowingSends(cfg: Config, sent: seq<Sent>, from: nat, n: nat, path: string,
                               grants: seq<string>, httpMethod: HttpMethod, data: Option<string>,
                               ct: Option<string>)
  {
    && |sent| == from + n && n <= |grants|
    && forall i :: 0 <= i < n ==>
         sent[from + i]
         == Sent(Decorate(Repeated(cfg.baseUrl, i + 1) + path, grants[i], cfg.userKey, cfg.urlEncode),
                 httpMethod, data, ct)
  }

  /** One more send in front, to the path with one base prefix fewer, extends
      the pattern by one. */
  lemma GrowingSendsStep(cfg: Config, sent: seq<Sent>, from: nat, n: nat, path: string,
                         grants: seq<string>, httpMethod: HttpMethod, data: Option<string>,
                         ct: Option<string>)
    requires 0 < n <= |grants| && from < |sent|
    requires sent[from] == Sent(Decorate(cfg.baseUrl + path, grants[0], cfg.userKey, cfg.urlEncode),
                                httpMethod, data, ct)
    requires GrowingSends(cfg, sent, from + 1, n - 1, cfg.baseUrl + path, grants[1..], httpMethod, data, ct)
    ensures GrowingSends(cfg, sent, from, n, path, grants, httpMethod, data, ct)
  {
    assert Repeated(cfg.baseUrl, 1) == cfg.baseUrl;
    forall i | 0 <= i < n
      ensures sent[from + i]
           == Sent(Decorate(Repeated(cfg.baseUrl, i + 1) + path, grants[i], cfg.userKey, cfg.urlEncode),
                   httpMethod, data, ct)
    {
      if i > 0 {
        var shorter := Repeated(cfg.baseUrl, i) + (cfg.baseUrl + path);
        assert Repeated(cfg.baseUrl, i + 1) == Repeated(cfg.baseUrl, i) + cfg.baseUrl;
        assert shorter == Repeated(cfg.baseUrl, i + 1) + path;
        assert grants[1..][i - 1] == grants[i];
        assert sent[from + i] == sent[(from + 1) + (i - 1)];
      }
    }
  }

  /** With a usable token but no response left to give, the transport fails
      and `api` propagates the failure; nothing is logged as sent. */
  lemma ExhaustedScriptFails(cfg: Config, s: Session, path: string, httpMethod: HttpMethod,
                             data: Option<string>, contentType: Option<string>)
    requires Truthy(Authenticate(s).token) && s.pending == []
    ensures var o := Dispatch(cfg, s, path, httpMethod, data, contentType);
      o.result == Err(TransportError) && o.state.sent == s.sent && o.state.pending == []
  {
    var url := cfg.baseUrl + path;
    var s2 := Authenticate(s.(events := s.events + [ApiRequestInit(url)]));
    assert s2.token == Authenticate(s).token && s2.pending == [] && s2.sent == s.sent;
    var a := Attempt(cfg, s, url, httpMethod, data, contentType);
    assert a == SendAndCheck(cfg, s2, Decorate(url, s2.token.value, cfg.userKey, cfg.urlEncode),
                             httpMethod, data, contentType);
    assert a.result == Err(TransportError) && a.state.sent == s.sent && a.state.pending == [];
  }

  /** Every scripted response is the expiry sentinel. */
  ghost predicate AllExpired(pending: seq<Response>, sentinel: string) {
    forall i :: 0 <= i < |pending| ==> Classify(pending[i], sentinel) == Expired
  }

  /** Every token the provider will obtain passes the token check. */
  ghost predicate AllUsable(grants: seq<string>) {
    forall i :: 0 <= i < |grants| ==> Truthy(Some(grants[i]))
  }

  /** What `ReplayIsUnbounded` states about one call. */
  ghost predicate ReplaysUntilTransportFails(cfg: Config, s: Session, path: string, httpMethod: HttpMethod,
                                             data: Option<string>, contentType: Option<string>)
  {
    var o := Dispatch(cfg, s, path, httpMethod, data, contentType);
    && o.result == Err(TransportError)
    && GrowingSends(cfg, o.state.sent, |s.sent|, |s.pending|, path, s.grants, httpMethod, data,
                    ContentTypeAfter(s.contentType, contentType))
    && o.state.sent[..|s.sent|] == s.sent
  }

  /** The inductive step of `ReplayIsUnbounded`: what holds of the replay
      holds of the call that triggered it. */
  lemma ReplayIsUnboundedStep(cfg: Config, s: Session, path: string, httpMethod: HttpMethod,
                              data: Option<string>, contentType: Option<string>)
    requires s.token.None? && s.pending != [] && |s.grants| > |s.pending|
    requires AllExpired(s.pending, cfg.expiredSentinel) && AllUsable(s.grants)
    requires ReplaysUntilTransportFails(cfg, ReplayStart(cfg, s, path, httpMethod, data, contentType),
                                        cfg.baseUrl + path, httpMethod, data, None)
    ensures ReplaysUntilTransportFails(cfg, s, path, httpMethod, data, contentType)
  {
    assert Truthy(Some(s.grants[0]));
    assert Classify(s.pending[0], cfg.expiredSentinel) == Expired;
    ExpiredWithoutTokenReplays(cfg, s, path, httpMethod, data, contentType);
    var cleared := ReplayStart(cfg, s, path, httpMethod, data, contentType);
    var sent := Dispatch(cfg, cleared, cfg.baseUrl + path, httpMethod, data, None).state.sent;
    assert sent[..|s.sent|] == sent[..|cleared.sent|][..|s.sent|];
    assert sent[|s.sent|] == cleared.sent[|s.sent|];
    GrowingSendsStep(cfg, sent, |s.sent|, |s.pending|, path, s.grants, httpMethod, data,
                     ContentTypeAfter(s.contentType, contentType));
  }

  /** Nothing bounds the replay: starting without a token, against a server
      that answers every request with the expiry sentinel and a provider
      that keeps issuing usable tokens, `api` sends once per scripted
      response, the i-th time to the base URL prefixed i+1 times with the
      i-th token, and stops only when the transport fails. */
  lemma {:induction false} ReplayIsUnbounded(cfg: Config, s: Session, path: string, httpMethod: HttpMethod,
                                             data: Option<string>, contentType: Option<string>)
    requires s.token.None? && |s.grants| > |s.pending|
    requires AllExpired(s.pending, cfg.expiredSentinel) && AllUsable(s.grants)
    ensures ReplaysUntilTransportFails(cfg, s, path, httpMethod, data, contentType)
    decreases |s.pending|
  {
    if s.pending == [] {
      assert Truthy(Some(s.grants[0]));
      ExhaustedScriptFails(cfg, s, path, httpMethod, data, contentType);
    } else {
      var cleared := ReplayStart(cfg, s, path, httpMethod, data, contentType);
      assert forall i :: 0 <= i < |cleared.pending| ==> cleared.pending[i] == s.pending[i + 1];
      assert forall i :: 0 <= i < |cleared.grants| ==> cleared.grants[i] == s.grants[i + 1];
      ReplayIsUnbounded(cfg, cleared, cfg.baseUrl + path, httpMethod, data, None);
      ReplayIsUnboundedStep(cfg, s, path, httpMethod, data, contentType);
    }
  }

  // ---------------------------------------------------------------------
  // The dispatcher as evidently intended

  /** `api` with the two defects of the replay removed: the replay targets
      the path under the base URL once (the saved URL is not prefixed
      again), and it happens at most once per call; a replay that meets the
      expiry sentinel again surfaces it as an API error. */
  function DispatchCorrected(cfg: Config, s: Session, path: string, httpMethod: HttpMethod,
                             data: Option<string>, contentType: Option<string>): (r: Outcome<Response>)
    ensures r.result.Ok? ==> r.result.value == r.state.response
                             && Classify(r.result.value, cfg.expiredSentinel) == Accepted
  {
    var url := cfg.baseUrl + path;
    var first := Attempt(cfg, s, url, httpMethod, data, contentType);
    if first.result.Err? then
      Outcome(first.state, Err(first.result.error))
    else if !first.result.value && first.state.isTokenExpired then
      ReplayOnce(cfg, first.state.(token := None), url, httpMethod, data)
    else
      Outcome(first.state, Ok(first.state.response))
  }

  /** The corrected replay: one more attempt on the same URL with no content
      type; a second expiry is reported as an API error. */
  function ReplayOnce(cfg: Config, s: Session, url: string, httpMethod: HttpMethod,
                      data: Option<string>): (r: Outcome<Response>)
    ensures r.result.Ok? ==> r.result.value == r.state.response
                             && Classify(r.result.value, cfg.expiredSentinel) == Accepted
  {
    var replay := Attempt(cfg, s, url, httpMethod, data, None);
    if replay.result.Err? then Outcome(replay.state, Err(replay.result.error))
    else if replay.result.value then Outcome(replay.state, Ok(replay.state.response))
    else Outcome(replay.state, Err(ApiError(cfg.expiredSentinel)))
  }

  /** The corrected replay sends at most once, consuming the script in order. */
  lemma ReplayOnceConsumes(cfg: Config, s: Session, url: string, httpMethod: HttpMethod, data: Option<string>)
    ensures var r := ReplayOnce(cfg, s, url, httpMethod, data).state;
      SendsConsumeScript(s, r, httpMethod, data) && |r.sent| <= |s.sent| + 1
  {
    AttemptConsumes(cfg, s, url, httpMethod, data, None);
  }

  /** Whatever the server and the token provider do, the corrected
      dispatcher sends at most twice, with the caller's method and body. */
  lemma CorrectedSendsAtMostTwice(cfg: Config, s: Session, path: string, httpMethod: HttpMethod,
                                  data: Option<string>, contentType: Option<string>)
    ensures var o := DispatchCorrected(cfg, s, path, httpMethod, data, contentType);
      && SendsConsumeScript(s, o.state, httpMethod, data)
      && |o.state.sent| <= |s.sent| + 2
  {
    var url := cfg.baseUrl + path;
    var first := Attempt(cfg, s, url, httpMethod, data, contentType);
    AttemptConsumes(cfg, s, url, httpMethod, data, contentType);
    var o := DispatchCorrected(cfg, s, path, httpMethod, data, contentType);
    if first.result.Ok? && !first.result.value && first.state.isTokenExpired {
      var cleared := first.state.(token := None);
      assert o == ReplayOnce(cfg, cleared, url, httpMethod, data);
      ReplayOnceConsumes(cfg, cleared, url, httpMethod, data);
      assert SendsConsumeScript(s, cleared, httpMethod, data);
      SendsConsumeScriptTrans(s, cleared, o.state, httpMethod, data);
    } else {
      assert o.state == first.state;
    }
  }

  /** After the expiry sentinel, the corrected replay goes to the same
      base-prefixed URL as the first send, with the fresh token, and the
      replay's response decides the outcome. */
  lemma CorrectedReplayTargetsSameUrl(cfg: Config, s: Session, path: string, httpMethod: HttpMethod,
                                      data: Option<string>, contentType: Option<string>)
    requires Truthy(Authenticate(s).token) && |s.pending| >= 2
    requires Classify(s.pending[0], cfg.expiredSentinel) == Expired
    requires Authenticate(s).grants != [] && Truthy(Some(Authenticate(s).grants[0]))
    ensures var o := DispatchCorrected(cfg, s, path, httpMethod, data, contentType);
            var t1 := Authenticate(s).token.value;
            var t2 := Authenticate(s).grants[0];
            var ct := ContentTypeAfter(s.contentType, contentType);
      && o.state.sent == s.sent + [
           Sent(Decorate(cfg.baseUrl + path, t1, cfg.userKey, cfg.urlEncode), httpMethod, data, ct),
           Sent(Decorate(cfg.baseUrl + path, t2, cfg.userKey, cfg.urlEncode), httpMethod, data, ct)]
      && o.result == match Classify(s.pending[1], cfg.expiredSentinel)
                     case Accepted => Ok(s.pending[1])
                     case Expired => Err(ApiError(cfg.expiredSentinel))
                     case Rejected(d) => Err(ApiError(d))
  {
    var url := cfg.baseUrl + path;
    AttemptSendsOnce(cfg, s, url, httpMethod, data, contentType);
    var first := Attempt(cfg, s, url, httpMethod, data, contentType).state;
    var cleared := first.(token := None);
    assert Authenticate(cleared).token == Some(Authenticate(s).grants[0]);
    assert cleared.pending[0] == s.pending[1];
    AttemptSendsOnce(cfg, cleared, url, httpMethod, data, None);
  }

  /** When the first response is not the expiry sentinel (or nothing could
      be sent), the correction changes nothing. */
  lemma CorrectedAgreesWithoutExpiry(cfg: Config, s: Session, path: string, httpMethod: HttpMethod,
                                     data: Option<string>, contentType: Option<string>)
    requires !(Truthy(Authenticate(s).token) && s.pending != []
               && Classify(s.pending[0], cfg.expiredSentinel) == Expired)
    ensures DispatchCorrected(cfg, s, path, httpMethod, data, contentType)
         == Dispatch(cfg, s, path, httpMethod, data, contentType)
  {
    var url := cfg.baseUrl + path;
    if Truthy(Authenticate(s).token) && s.pending != [] {
      AttemptSendsOnce(cfg, s, url, httpMethod, data, contentType);
    } else {
      AttemptSteps(cfg, s, url, httpMethod, data, contentType);
    }
  }
}
