/** The client object of lib/Api.php and the two collaborators it drives,
    as classes whose fields change in place. `Api.Api` is proved to have
    exactly the effect and result `Dispatcher.Dispatch` describes. */
module Client {
  import opened Wrappers
  import opened Http
  import opened Url
  import opened Dispatcher
  import opened Accounts

  /** The token provider, reduced to its token slot and the tokens its OAuth2
      handshake would obtain next. */
  class Authentication {
    var token: Option<string>
    var grants: seq<string>

    constructor (grants: seq<string>)
      ensures token == None && this.grants == grants
    {
      token := None;
      this.grants := grants;
    }

    /** Keep a token already held; otherwise obtain the next one, if any. */
    method Authenticate()
      modifies this
      ensures old(token).Some? ==> token == old(token) && grants == old(grants)
      ensures old(token).None? && old(grants) != [] ==> token == Some(old(grants)[0]) && grants == old(grants)[1..]
      ensures old(token).None? && old(grants) == [] ==> token == None && grants == []
    {
      if token.None? && grants != [] {
        token := Some(grants[0]);
        grants := grants[1..];
      }
    }

    method GetAccessToken() returns (t: Option<string>)
      ensures t == token
    {
      t := token;
    }

    method ClearAccessToken()
      modifies this`token
      ensures token == None
    {
      token := None;
    }
  }

  /** The shared HTTP request object: what it is configured with, its last
      response, the responses the server will give, and what it sent. */
  class Request {
    var httpMethod: HttpMethod
    var data: Option<string>
    var contentType: Option<string>
    var response: Response
    var pending: seq<Response>
    var sent: seq<Sent>

    constructor (script: seq<Response>)
      ensures httpMethod == Get && data == None && contentType == None && response == Null
      ensures pending == script && sent == []
    {
      httpMethod, data, contentType, response := Get, None, None, Null;
      pending, sent := script, [];
    }

    method SetMethod(m: HttpMethod)
      modifies this`httpMethod
      ensures httpMethod == m
    {
      httpMethod := m;
    }

    method SetData(d: Option<string>)
      modifies this`data
      ensures data == d
    {
      data := d;
    }

    method SetContentType(mime: string)
      modifies this`contentType
      ensures contentType == Some(mime)
    {
      contentType := Some(mime);
    }

    /** Put the configured request on the wire; the next scripted response
      becomes the current one, or the transport fails when none is left. */
    method Send(url: string) returns (r: Result<()>)
      modifies this`response, this`pending, this`sent
      ensures r.Ok? <==> old(pending) != []
      ensures r.Ok? ==> response == old(pending)[0] && pending == old(pending)[1..]
                        && sent == old(sent) + [Sent(url, httpMethod, data, contentType)]
      ensures r.Err? ==> r.error == TransportError && unchanged(this)
    {
      if pending == [] {
        return Err(TransportError);
      }
      response := pending[0];
      pending := pending[1..];
      sent := sent + [Sent(url, httpMethod, data, contentType)];
      r := Ok(());
    }

    method GetResponse() returns (resp: Response)
      ensures resp == response
    {
      resp := response;
    }
  }

  /** The base URL the client uses unless told otherwise. */
  const DEFAULT_BASE_URL: string := "https://go.trackvia.com/"

  class Api {
    const baseUrl: string
    const userKey: string
    const expiredSentinel: string
    const urlEncode: string -> string
    const request: Request
    const auth: Authentication
    var isTokenExpired: bool
    var events: seq<Event>
    var user: Option<User>
    var accountId: Option<string>

    function Cfg(): Config {
      Config(baseUrl, userKey, expiredSentinel, urlEncode)
    }

    /** Every field a call to `api` can read or change, as one value. */
    ghost function State(): Session
      reads this, request, auth
    {
      Session(auth.token, auth.grants, request.httpMethod, request.data, request.contentType,
              request.response, request.pending, request.sent, isTokenExpired, events)
    }

    /** The user, password and port are handed to the token provider and the
        transport in the source; here the token provider is given its grants
        and the transport its script. */
    constructor (userKey: string, expiredSentinel: string, urlEncode: string -> string,
                 grants: seq<string>, script: seq<Response>, baseUrl: string := DEFAULT_BASE_URL)
      ensures Cfg() == Config(baseUrl, userKey, expiredSentinel, urlEncode)
      ensures fresh(request) && fresh(auth)
      ensures State() == Session(None, grants, Get, None, None, Null, script, [], false, [])
      ensures user == None && accountId == None
    {
      this.baseUrl := baseUrl;
      this.userKey := userKey;
      this.expiredSentinel := expiredSentinel;
      this.urlEncode := urlEncode;
      request := new Request(script);
      auth := new Authentication(grants);
      isTokenExpired := false;
      events := [];
      user := None;
      accountId := None;
    }

    method Trigger(e: Event)
      modifies this`events
      ensures events == old(events) + [e]
    {
      events := events + [e];
    }

    /** `checkResponse`: classify the request's latest response, raising the
        expiry flag for the sentinel and throwing for any other error. */
    method CheckResponse() returns (r: Result<bool>)
      modifies this`isTokenExpired
      ensures Outcome(State(), r) == Dispatcher.CheckResponse(old(State()), expiredSentinel)
    {
      var response := request.GetResponse();
      match Classify(response, expiredSentinel)
      case Accepted =>
        r := Ok(true);
      case Expired =>
        isTokenExpired := true;
        r := Ok(false);
      case Rejected(d) =>
        r := Err(ApiError(d));
    }

    /** Lines 84-129 of `api` for the already base-prefixed `url`: the init
        event, authentication and the token check, decoration, configuring
        the shared request, the send event, the send, the completion event
        and `checkResponse`. */
    method Attempt(url: string, httpMethod: HttpMethod, data: Option<string>, contentType: Option<string>)
        returns (r: Result<bool>)
      modifies this`isTokenExpired, this`events, request, auth
      ensures Outcome(State(), r) == Dispatcher.Attempt(Cfg(), old(State()), url, httpMethod, data, contentType)
    {
      ghost var s0 := State();
      Trigger(ApiRequestInit(url));
      auth.Authenticate();
      var accessToken := auth.GetAccessToken();
      ghost var s2 := State();
      assert s2 == Authenticate(s0.(events := s0.events + [ApiRequestInit(url)]));
      if !Truthy(accessToken) {
        return Err(Exception(MISSING_TOKEN));
      }
      var full := Decorate(url, accessToken.value, userKey, urlEncode);
      r := SendChecked(full, httpMethod, data, contentType);
    }

    /** Lines 113-129 of `api`: configure, announce, send and check the
        request to the decorated URL `full`. */
    method SendChecked(full: string, httpMethod: HttpMethod, data: Option<string>, contentType: Option<string>)
        returns (r: Result<bool>)
      modifies this`isTokenExpired, this`events, request
      ensures Outcome(State(), r) == SendAndCheck(Cfg(), old(State()), full, httpMethod, data, contentType)
    {
      ghost var s := State();
      request.SetMethod(httpMethod);
      request.SetData(data);
      if Truthy(contentType) {
        request.SetContentType(CONTENT_TYPE_PREFIX + contentType.value);
      }
      Trigger(ApiRequestSend(full, httpMethod, data));
      ghost var s4 := State();
      assert s4 == s.(httpMethod := httpMethod, data := data,
                      contentType := ContentTypeAfter(s.contentType, contentType),
                      events := s.events + [ApiRequestSend(full, httpMethod, data)]);
      var sent := request.Send(full);
      if sent.Err? {
        assert State() == s4;
        return Err(sent.error);
      }
      ghost var s5 := State();
      assert s5 == Dispatcher.Send(s4, full).state;
      var response := request.GetResponse();
      Trigger(ApiRequestComplete(full, response));
      assert State() == s5.(events := s5.events + [ApiRequestComplete(full, s5.response)]);
      r := CheckResponse();
    }

    /** `api($url, $httpMethod, $data, $contentType)`: prefix the base URL,
        attempt, and on expiry clear the token and call itself again with
        the saved URL, method and data; return the latest response. */
    method Api(path: string, httpMethod: HttpMethod := Get, data: Option<string> := None,
               contentType: Option<string> := None)
        returns (r: Result<Response>)
      modifies this`isTokenExpired, this`events, request, auth
      ensures Outcome(State(), r) == Dispatch(Cfg(), old(State()), path, httpMethod, data, contentType)
      decreases |request.pending|
    {
      ghost var s0 := State();
      var url := baseUrl + path;
      var lastUrl, lastMethod, lastData := url, httpMethod, data;
      var valid := Attempt(url, httpMethod, data, contentType);
      ghost var s1 := State();
      assert Outcome(s1, valid) == Dispatcher.Attempt(Cfg(), s0, url, httpMethod, data, contentType);
      if valid.Err? {
        return Err(valid.error);
      }
      if !valid.value && isTokenExpired {
        auth.ClearAccessToken();
        assert State() == s1.(token := None);
        var replay := Api(lastUrl, lastMethod, lastData, None);
        ghost var o := Dispatch(Cfg(), s1.(token := None), url, httpMethod, data, None);
        assert Outcome(State(), replay) == o;
        assert Dispatch(Cfg(), s0, path, httpMethod, data, contentType)
            == if o.result.Err? then o else Outcome(o.state, Ok(o.state.response));
        if replay.Err? {
          return replay;
        }
      }
      var latest := request.GetResponse();
      r := Ok(latest);
    }

    /** `api` with the replay fixed: it goes to the same base-prefixed URL
        and happens at most once. */
    method ApiCorrected(path: string, httpMethod: HttpMethod := Get, data: Option<string> := None,
                        contentType: Option<string> := None)
        returns (r: Result<Response>)
      modifies this`isTokenExpired, this`events, request, auth
      ensures Outcome(State(), r) == DispatchCorrected(Cfg(), old(State()), path, httpMethod, data, contentType)
    {
      ghost var s0 := State();
      var url := baseUrl + path;
      var valid := Attempt(url, httpMethod, data, contentType);
      ghost var s1 := State();
      assert Outcome(s1, valid) == Dispatcher.Attempt(Cfg(), s0, url, httpMethod, data, contentType);
      if valid.Err? {
        assert DispatchCorrected(Cfg(), s0, path, httpMethod, data, contentType) == Outcome(s1, Err(valid.error));
        return Err(valid.error);
      }
      if !valid.value && isTokenExpired {
        auth.ClearAccessToken();
        assert State() == s1.(token := None);
        assert DispatchCorrected(Cfg(), s0, path, httpMethod, data, contentType)
            == Dispatcher.ReplayOnce(Cfg(), s1.(token := None), url, httpMethod, data);
        r := ReplayOnce(url, httpMethod, data);
        return;
      }
      assert DispatchCorrected(Cfg(), s0, path, httpMethod, data, contentType) == Outcome(s1, Ok(s1.response));
      var latest := request.GetResponse();
      r := Ok(latest);
    }

    /** The corrected replay, after the token is cleared: attempt once more on the
        same URL without a content type, and report a second expiry. */
    method ReplayOnce(url: string, httpMethod: HttpMethod, data: Option<string>) returns (r: Result<Response>)
      modifies this`isTokenExpired, this`events, request, auth
      ensures Outcome(State(), r) == Dispatcher.ReplayOnce(Cfg(), old(State()), url, httpMethod, data)
    {
      var again := Attempt(url, httpMethod, data, None);
      if again.Err? {
        return Err(again.error);
      }
      if !again.value {
        return Err(ApiError(expiredSentinel));
      }
      var latest := request.GetResponse();
      r := Ok(latest);
    }

    /** `login`, with `profile` standing for what `getUser()` returns. */
    method Login(profile: User) returns (r: Result<User>)
      modifies this`user, this`accountId
      ensures var l := LoginWith(profile, old(accountId));
              user == Some(l.user) && accountId == l.accountId && r == l.result
    {
      user := Some(profile);
      if profile.accounts != [] {
        var account := profile.accounts[0];
        user := Some(profile.(accounts := profile.accounts[1..]));
        if account.id.Some? {
          accountId := account.id;
        } else {
          return Err(Exception(NO_ACCOUNT_ID));
        }
      } else {
        return Err(Exception(NO_ACCOUNT));
      }
      r := Ok(user.value);
    }
  }
}
