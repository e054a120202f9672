/** The endpoint methods of `Api` (lib/Api.php:178-304): each builds a path
    and hands it, with an HTTP method and optionally a body and a content
    type, to the dispatcher. A `Call` is that hand-over. */
module Endpoints {
  import opened Wrappers
  import opened Http
  import opened Url

  /** The arguments one endpoint passes to `Api::api`. */
  datatype Call = Call(path: string, httpMethod: HttpMethod, data: Option<string>,
                       contentType: Option<string>)

  /** A call with no body and no content type. */
  predicate Bare(c: Call) {
    c.data.None? && c.contentType.None?
  }

  const OPENAPI: string := "/openapi"
  const VIEWS: string := "/openapi/views"
  const JSON_CONTENT_TYPE: string := "json;charset=UTF-8"

  /** `/openapi/views/{viewId}` */
  function ViewPath(viewId: int): (p: string)
    ensures '?' !in p
    ensures VIEWS + "/" <= p && p[|VIEWS| + 1..] == IntToString(viewId)
  {
    var v := IntToString(viewId);
    VIEWS + "/" + v
  }

  /** `/openapi/views/{viewId}/records` */
  function RecordsPath(viewId: int): (p: string)
    ensures '?' !in p
    ensures p == ViewPath(viewId) + "/records"
  {
    ViewPath(viewId) + "/records"
  }

  /** `/openapi/views/{viewId}/records/{recordId}` */
  function RecordPath(viewId: int, recordId: int): (p: string)
    ensures '?' !in p
    ensures p == RecordsPath(viewId) + "/" + IntToString(recordId)
  {
    var r := IntToString(recordId);
    RecordsPath(viewId) + "/" + r
  }

  /** `getViewList`: the views, with no query of its own. */
  function GetViewList(): (c: Call)
    ensures c.httpMethod == Get && Bare(c) && '?' !in c.path
    ensures c.path == "/openapi/views"
  {
    Call(VIEWS, Get, None, None)
  }

  /** `getViewListFilterOnName`: the views whose name is exactly `name`,
      which travels URL-encoded as the whole query. */
  function GetViewListFilterOnName(name: string, urlEncode: string -> string): (c: Call)
    ensures c.httpMethod == Get && Bare(c)
    ensures PathOf(c.path) == VIEWS && QueryOf(c.path) == "name=" + urlEncode(name)
  {
    var query := "name=" + urlEncode(name);
    StartQuery(VIEWS, query);
    Call(VIEWS + "?" + query, Get, None, None)
  }

  /** `getRecordsInView`: one page of a view, `start` and `max` defaulting to
      0 and 1000. */
  function GetRecordsInView(viewId: int, start: int := 0, max: int := 1000): (c: Call)
    ensures c.httpMethod == Get && Bare(c)
    ensures PathOf(c.path) == ViewPath(viewId)
    ensures QueryOf(c.path) == "start=" + IntToString(start) + "&max=" + IntToString(max)
  {
    var query := "start=" + IntToString(start) + "&max=" + IntToString(max);
    StartQuery(ViewPath(viewId), query);
    Call(ViewPath(viewId) + "?" + query, Get, None, None)
  }

  /** `getRecordsInViewSearch`: one page of the records of a view that match
      `queryString`, which is URL-encoded as the last parameter. */
  function GetRecordsInViewSearch(viewId: int, queryString: string, urlEncode: string -> string,
                                  start: int := 0, max: int := 1000): (c: Call)
    ensures c.httpMethod == Get && Bare(c)
    ensures PathOf(c.path) == ViewPath(viewId) + "/find"
    ensures QueryOf(c.path) == "start=" + IntToString(start) + "&max=" + IntToString(max)
                               + "&q=" + urlEncode(queryString)
  {
    var query := "start=" + IntToString(start) + "&max=" + IntToString(max)
                 + "&q=" + urlEncode(queryString);
    StartQuery(ViewPath(viewId) + "/find", query);
    Call(ViewPath(viewId) + "/find" + "?" + query, Get, None, None)
  }

  /** `getApps`. */
  function GetApps(): (c: Call)
    ensures c.httpMethod == Get && Bare(c) && '?' !in c.path
    ensures c.path == "/openapi/apps"
  {
    Call(OPENAPI + "/apps", Get, None, None)
  }

  /** `getUsers`. */
  function GetUsers(): (c: Call)
    ensures c.httpMethod == Get && Bare(c) && '?' !in c.path
    ensures c.path == "/openapi/users"
  {
    Call(OPENAPI + "/users", Get, None, None)
  }

  /** `$timeZone != null` is PHP's loose comparison: an empty string equals
      `null`, so an empty time zone is left out just like a missing one. */
  predicate HasTimeZone(timeZone: Option<string>): (b: bool)
    ensures b ==> timeZone.Some?
  {
    timeZone.Some? && timeZone.value != ""
  }

  /** Under the loose comparison, null and "" count as no time zone, while
      "0" (unlike under PHP truthiness) counts as one. */
  lemma TimeZoneLooseNull()
    ensures !HasTimeZone(None) && !HasTimeZone(Some(""))
    ensures HasTimeZone(Some("0")) && HasTimeZone(Some("America/Denver"))
  {
  }

  /** The query `createUser` builds, with the time-zone parameter named
      `timeZoneParam`. */
  function UserQuery(firstName: string, lastName: string, email: string,
                     timeZone: Option<string>, urlEncode: string -> string,
                     timeZoneParam: string): string
  {
    "firstName=" + urlEncode(firstName) + "&lastName=" + urlEncode(lastName)
    + "&email=" + urlEncode(email)
    + (if HasTimeZone(timeZone) then "&" + timeZoneParam + "=" + urlEncode(timeZone.value) else "")
  }

  /** `createUser` as written: a POST whose whole payload is the query, the
      time zone (when given) under the parameter name `timeZoie`. */
  function CreateUser(firstName: string, lastName: string, email: string,
                      urlEncode: string -> string, timeZone: Option<string> := None): (c: Call)
    ensures c.httpMethod == Post && Bare(c)
    ensures PathOf(c.path) == OPENAPI + "/users"
    ensures QueryOf(c.path) == UserQuery(firstName, lastName, email, timeZone, urlEncode, "timeZoie")
  {
    var query := UserQuery(firstName, lastName, email, timeZone, urlEncode, "timeZoie");
    StartQuery(OPENAPI + "/users", query);
    Call(OPENAPI + "/users" + "?" + query, Post, None, None)
  }

  /** The name of `createUser`'s own time-zone argument (lib/Api.php:246). */
  const TIME_ZONE_PARAM: string := "timeZone"

  /** `createUser` with the time zone sent under `timeZone`. */
  function CreateUserCorrected(firstName: string, lastName: string, email: string,
                               urlEncode: string -> string, timeZone: Option<string> := None): (c: Call)
    ensures c.httpMethod == Post && Bare(c)
    ensures PathOf(c.path) == OPENAPI + "/users"
    ensures QueryOf(c.path) == UserQuery(firstName, lastName, email, timeZone, urlEncode, TIME_ZONE_PARAM)
  {
    var query := UserQuery(firstName, lastName, email, timeZone, urlEncode, TIME_ZONE_PARAM);
    StartQuery(OPENAPI + "/users", query);
    Call(OPENAPI + "/users" + "?" + query, Post, None, None)
  }

  /** With a non-empty time zone, the query `createUser` sends ends in a
      `timeZoie` parameter, so the server never sees a `timeZone` one there;
      the corrected builder ends in `timeZone` and is otherwise the same. */
  lemma CreateUserTimeZoneName(firstName: string, lastName: string, email: string,
                               urlEncode: string -> string, timeZone: string)
    requires timeZone != ""
    ensures var written := QueryOf(CreateUser(firstName, lastName, email, urlEncode, Some(timeZone)).path);
            var tail := "&timeZoie=" + urlEncode(timeZone);
            |tail| <= |written| && written[|written| - |tail|..] == tail
    ensures var fixed := QueryOf(CreateUserCorrected(firstName, lastName, email, urlEncode, Some(timeZone)).path);
            var tail := "&timeZone=" + urlEncode(timeZone);
            |tail| <= |fixed| && fixed[|fixed| - |tail|..] == tail
    ensures CreateUser(firstName, lastName, email, urlEncode, None)
         == CreateUserCorrected(firstName, lastName, email, urlEncode, None)
  {
    var head := "firstName=" + urlEncode(firstName) + "&lastName=" + urlEncode(lastName)
                + "&email=" + urlEncode(email);
    assert UserQuery(firstName, lastName, email, Some(timeZone), urlEncode, "timeZoie")
        == head + ("&timeZoie=" + urlEncode(timeZone));
    assert UserQuery(firstName, lastName, email, Some(timeZone), urlEncode, TIME_ZONE_PARAM)
        == head + ("&timeZone=" + urlEncode(timeZone));
  }

  /** `getRecord`. */
  function GetRecord(viewId: int, recordId: int): (c: Call)
    ensures c.httpMethod == Get && Bare(c) && c.path == RecordPath(viewId, recordId)
  {
    Call(RecordPath(viewId, recordId), Get, None, None)
  }

  /** `createRecord`: POST of the JSON-encoded record to the view's records. */
  function CreateRecord<D>(viewId: int, data: D, jsonEncode: D -> string): (c: Call)
    ensures c.httpMethod == Post && c.path == RecordsPath(viewId)
    ensures c.data == Some(jsonEncode(data)) && c.contentType == Some(JSON_CONTENT_TYPE)
  {
    Call(RecordsPath(viewId), Post, Some(jsonEncode(data)), Some(JSON_CONTENT_TYPE))
  }

  /** `updateRecord`: PUT of the JSON-encoded changes to one record. */
  function UpdateRecord<D>(viewId: int, recordId: int, data: D, jsonEncode: D -> string): (c: Call)
    ensures c.httpMethod == Put && c.path == RecordPath(viewId, recordId)
    ensures c.data == Some(jsonEncode(data)) && c.contentType == Some(JSON_CONTENT_TYPE)
  {
    Call(RecordPath(viewId, recordId), Put, Some(jsonEncode(data)), Some(JSON_CONTENT_TYPE))
  }

  /** `deleteRecord`. */
  function DeleteRecord(viewId: int, recordId: int): (c: Call)
    ensures c.httpMethod == Delete && Bare(c) && c.path == RecordPath(viewId, recordId)
  {
    Call(RecordPath(viewId, recordId), Delete, None, None)
  }

  /** Each path names its view and record: different ids give different
      paths. */
  lemma PathsIdentifyIds(v: int, r: int, v': int, r': int)
    ensures ViewPath(v) == ViewPath(v') ==> v == v'
    ensures RecordsPath(v) == RecordsPath(v') ==> v == v'
    ensures RecordPath(v, r) == RecordPath(v', r') ==> v == v' && r == r'
  {
    if ViewPath(v) == ViewPath(v') {
      IntToStringInjective(v, v');
    }
    if RecordsPath(v) == RecordsPath(v') {
      assert RecordsPath(v) == ViewPath(v) + "/" + "records";
      assert RecordsPath(v') == ViewPath(v') + "/" + "records";
      ViewsSegment(v, "records", v', "records");
    }
    if RecordPath(v, r) == RecordPath(v', r') {
      RecordSegment(v, r, v', r');
    }
  }

  /** The record id is what follows the records path. */
  lemma RecordSegment(v: int, r: int, v': int, r': int)
    requires RecordPath(v, r) == RecordPath(v', r')
    ensures v == v' && r == r'
  {
    var y, y' := "records/" + IntToString(r), "records/" + IntToString(r');
    RecordsRegroup(ViewPath(v), IntToString(r));
    RecordsRegroup(ViewPath(v'), IntToString(r'));
    ViewsSegment(v, y, v', y');
    assert IntToString(r) == y[8..] && IntToString(r') == y'[8..];
    IntToStringInjective(r, r');
  }

  /** `{view}/records/{id}` read as `{view}/` followed by the rest. */
  lemma RecordsRegroup(view: string, id: string)
    ensures view + "/records" + "/" + id == view + "/" + ("records/" + id)
  {
    assert "/records" + "/" == "/" + "records/";
  }

  /** Below the views path, the view id is the segment up to the next `/`. */
  lemma ViewsSegment(v: int, rest: string, v': int, rest': string)
    requires ViewPath(v) + "/" + rest == ViewPath(v') + "/" + rest'
    ensures v == v' && rest == rest'
  {
    var n := |VIEWS| + 1;
    var x, x' := IntToString(v), IntToString(v');
    assert ViewPath(v) + "/" + rest == VIEWS + "/" + (x + "/" + rest);
    assert ViewPath(v') + "/" + rest' == VIEWS + "/" + (x' + "/" + rest');
    assert x + "/" + rest == (ViewPath(v) + "/" + rest)[n..];
    assert x' + "/" + rest' == (ViewPath(v') + "/" + rest')[n..];
    SplitAtSlash(x, rest, x', rest');
    IntToStringInjective(v, v');
  }

  /** The record paths of view 42: the listing/creation path and one record's. */
  lemma RecordPathsOfView42()
    ensures CreateRecord(42, 0, (n: int) => "{}").path == "/openapi/views/42/records"
    ensures GetRecord(42, 7).path == "/openapi/views/42/records/7"
  {
    assert NatToString(4) == "4";
    assert NatToString(42) == NatToString(4) + [DigitChar(2)];
  }
}
