/** What the endpoint methods put on the wire once the dispatcher has
    decorated their paths (lib/Api.php:178-304 through lines 81-143). */
module Facade {
  import opened Wrappers
  import opened Http
  import opened Url
  import opened Endpoints
  import opened Dispatcher

  /** `api` turns the subtype the record writers pass into the full MIME type. */
  lemma JsonContentType()
    ensures forall current :: ContentTypeAfter(current, Some(JSON_CONTENT_TYPE))
                              == Some("application/json;charset=UTF-8")
  {
    assert CONTENT_TYPE_PREFIX + JSON_CONTENT_TYPE == "application/json;charset=UTF-8";
  }

  /** `createRecord` POSTs the JSON-encoded record to the view's records,
      with content type `application/json;charset=UTF-8`. */
  lemma CreateRecordSendsJson<D>(cfg: Config, s: Session, viewId: int, record: D, jsonEncode: D -> string)
    requires Truthy(Authenticate(s).token) && s.pending != []
    ensures var c := CreateRecord(viewId, record, jsonEncode);
            var o := Dispatch(cfg, s, c.path, c.httpMethod, c.data, c.contentType);
      && |o.state.sent| > |s.sent|
      && o.state.sent[|s.sent|]
         == Sent(Decorate(cfg.baseUrl + RecordsPath(viewId), Authenticate(s).token.value, cfg.userKey, cfg.urlEncode),
                 Post, Some(jsonEncode(record)), Some("application/json;charset=UTF-8"))
  {
    var c := CreateRecord(viewId, record, jsonEncode);
    assert c.path == RecordsPath(viewId);
    JsonContentType();
    FirstSend(cfg, s, c.path, c.httpMethod, c.data, c.contentType);
  }

  /** `updateRecord` PUTs the JSON-encoded changes to the record, with
      content type `application/json;charset=UTF-8`. */
  lemma UpdateRecordSendsJson<D>(cfg: Config, s: Session, viewId: int, recordId: int, changes: D,
                                 jsonEncode: D -> string)
    requires Truthy(Authenticate(s).token) && s.pending != []
    ensures var c := UpdateRecord(viewId, recordId, changes, jsonEncode);
            var o := Dispatch(cfg, s, c.path, c.httpMethod, c.data, c.contentType);
      && |o.state.sent| > |s.sent|
      && o.state.sent[|s.sent|]
         == Sent(Decorate(cfg.baseUrl + RecordPath(viewId, recordId), Authenticate(s).token.value,
                          cfg.userKey, cfg.urlEncode),
                 Put, Some(jsonEncode(changes)), Some("application/json;charset=UTF-8"))
  {
    var c := UpdateRecord(viewId, recordId, changes, jsonEncode);
    assert c.path == RecordPath(viewId, recordId);
    JsonContentType();
    FirstSend(cfg, s, c.path, c.httpMethod, c.data, c.contentType);
  }

  /** A GET that follows a JSON write on the same client still carries the
      JSON content type: the request object is shared and `api` only ever
      sets a content type, never clears one. */
  lemma ContentTypeOutlivesTheCall(cfg: Config, s: Session, viewId: int, recordId: int)
    requires Truthy(Authenticate(s).token) && s.pending != []
    requires s.contentType == Some("application/json;charset=UTF-8")
    ensures var c := GetRecord(viewId, recordId);
            var o := Dispatch(cfg, s, c.path, c.httpMethod, c.data, c.contentType);
      |o.state.sent| > |s.sent| && o.state.sent[|s.sent|].contentType == Some("application/json;charset=UTF-8")
  {
    var c := GetRecord(viewId, recordId);
    FirstSend(cfg, s, c.path, c.httpMethod, c.data, c.contentType);
  }

  /** The two decorations of the views listing: a plain listing starts the
      query with the access token; the name filter already has a query, so
      the token is joined to it with `&`. */
  lemma ViewListUrls(cfg: Config, accessToken: string, name: string)
    requires '?' !in cfg.baseUrl
    ensures Decorate(cfg.baseUrl + GetViewList().path, accessToken, cfg.userKey, cfg.urlEncode)
         == cfg.baseUrl + "/openapi/views" + "?" + "access_token=" + cfg.urlEncode(accessToken)
            + "&user_key=" + cfg.userKey
    ensures Decorate(cfg.baseUrl + GetViewListFilterOnName(name, cfg.urlEncode).path, accessToken,
                     cfg.userKey, cfg.urlEncode)
         == cfg.baseUrl + "/openapi/views?name=" + cfg.urlEncode(name) + "&" + "access_token="
            + cfg.urlEncode(accessToken) + "&user_key=" + cfg.userKey
  {
    var plain := cfg.baseUrl + GetViewList().path;
    assert '?' !in plain;
    SpelledOut(plain, "?", accessToken, cfg.userKey, cfg.urlEncode);
    var filtered := cfg.baseUrl + GetViewListFilterOnName(name, cfg.urlEncode).path;
    assert filtered == cfg.baseUrl + "/openapi/views?name=" + cfg.urlEncode(name);
    assert filtered[|cfg.baseUrl| + |VIEWS|] == '?';
    SpelledOut(filtered, "&", accessToken, cfg.userKey, cfg.urlEncode);
  }

  /** The token parameters written out. */
  lemma SpelledOut(url: string, pre: string, accessToken: string, userKey: string,
                   urlEncode: string -> string)
    ensures url + pre + TokenParams(accessToken, userKey, urlEncode)
         == url + pre + "access_token=" + urlEncode(accessToken) + "&user_key=" + userKey
  {
  }
}
