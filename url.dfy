/** String work on request URLs: the access-token decoration `Api::api`
    applies before every send, and PHP's rendering of integers inside paths. */
module Url {

  /** The position of the first `c` in `s`, or `|s|` when there is none
      (PHP's `strpos`, with "not found" written as the length). */
  function IndexOf(s: string, c: char): (i: nat)
    ensures i <= |s|
    ensures i < |s| ==> s[i] == c
    ensures forall j :: 0 <= j < i ==> s[j] != c
    ensures i == |s| <==> c !in s
  {
    if s == [] then 0
    else if s[0] == c then 0
    else 1 + IndexOf(s[1..], c)
  }

  /** Any position that has the defining properties of the first `c` is it. */
  lemma IndexOfUnique(s: string, c: char, i: nat)
    requires i <= |s|
    requires i < |s| ==> s[i] == c
    requires forall j :: 0 <= j < i ==> s[j] != c
    ensures IndexOf(s, c) == i
  {
  }

  /** Everything before the first `?`. */
  function PathOf(url: string): string {
    url[..IndexOf(url, '?')]
  }

  /** Everything after the first `?`, or nothing when the URL has no query. */
  function QueryOf(url: string): string {
    var i := IndexOf(url, '?');
    if i < |url| then url[i + 1..] else ""
  }

  const ACCESS_TOKEN_PARAM: string := "access_token="
  const USER_KEY_PARAM: string := "&user_key="

  /** The two query parameters the decoration adds. */
  function TokenParams(accessToken: string, userKey: string, urlEncode: string -> string): string {
    ACCESS_TOKEN_PARAM + urlEncode(accessToken) + USER_KEY_PARAM + userKey
  }

  /** lib/Api.php:104-110: `?` or `&` depending on whether the URL already has
      a `?`, then the URL-encoded access token, then the user key (not encoded). */
  function Decorate(url: string, accessToken: string, userKey: string,
                    urlEncode: string -> string): (d: string)
  {
    var pre := if '?' in url then "&" else "?";
    url + pre + TokenParams(accessToken, userKey, urlEncode)
  }

  /** Appending to a URL that already has a query extends that query. */
  lemma AppendToQuery(url: string, t: string)
    requires '?' in url
    ensures PathOf(url + t) == PathOf(url)
    ensures QueryOf(url + t) == QueryOf(url) + t
  {
    var i := IndexOf(url, '?');
    assert (url + t)[i] == '?';
    IndexOfUnique(url + t, '?', i);
    assert (url + t)[..i] == url[..i];
    assert (url + t)[i + 1..] == url[i + 1..] + t;
  }

  /** Appending `?` and a query to a URL without one starts its query. */
  lemma StartQuery(url: string, t: string)
    requires '?' !in url
    ensures PathOf(url + "?" + t) == url
    ensures QueryOf(url + "?" + t) == t
  {
    var d := url + "?" + t;
    assert d[|url|] == '?';
    assert forall j :: 0 <= j < |url| ==> d[j] == url[j];
    IndexOfUnique(d, '?', |url|);
    assert d[..|url|] == url;
    assert d[|url| + 1..] == t;
  }

  /** The decoration never touches the path and appends the two parameters to
      the query: after what was there, joined by `&`, or as a new query. */
  lemma DecorateAppendsQuery(url: string, accessToken: string, userKey: string,
                             urlEncode: string -> string)
    ensures url <= Decorate(url, accessToken, userKey, urlEncode)
    ensures PathOf(Decorate(url, accessToken, userKey, urlEncode)) == PathOf(url)
    ensures QueryOf(Decorate(url, accessToken, userKey, urlEncode))
         == (if '?' in url then QueryOf(url) + "&" else "") + TokenParams(accessToken, userKey, urlEncode)
  {
    var tail := TokenParams(accessToken, userKey, urlEncode);
    if '?' in url {
      AppendToQuery(url, "&");
      assert '?' in url + "&" by { assert (url + "&")[IndexOf(url, '?')] == '?'; }
      AppendToQuery(url + "&", tail);
    } else {
      StartQuery(url, tail);
    }
  }

  function DigitChar(d: nat): char
    requires d < 10
  {
    "0123456789"[d]
  }

  function DigitValue(c: char): nat
    requires '0' <= c <= '9'
  {
    (c - '0') as nat
  }

  /** PHP's rendering of a non-negative integer in decimal. */
  function NatToString(n: nat): (s: string)
    ensures |s| > 0
    ensures forall i :: 0 <= i < |s| ==> '0' <= s[i] <= '9'
    ensures |s| > 1 ==> s[0] != '0'
  {
    if n < 10 then [DigitChar(n)] else NatToString(n / 10) + [DigitChar(n % 10)]
  }

  /** The value a string of decimal digits denotes. */
  function DecimalValue(s: string): nat
    requires forall i :: 0 <= i < |s| ==> '0' <= s[i] <= '9'
  {
    if s == [] then 0 else 10 * DecimalValue(s[..|s| - 1]) + DigitValue(s[|s| - 1])
  }

  lemma {:induction false} DecimalRoundTrip(n: nat)
    ensures DecimalValue(NatToString(n)) == n
  {
    var s := NatToString(n);
    if n >= 10 {
      DecimalRoundTrip(n / 10);
      assert s[..|s| - 1] == NatToString(n / 10);
    }
  }

  /** Different naturals render differently. */
  lemma NatToStringInjective(m: nat, n: nat)
    requires NatToString(m) == NatToString(n)
    ensures m == n
  {
    DecimalRoundTrip(m);
    DecimalRoundTrip(n);
  }

  /** Different integers render differently. */
  lemma IntToStringInjective(a: int, b: int)
    requires IntToString(a) == IntToString(b)
    ensures a == b
  {
    // A rendering starts with `-` exactly when the integer is negative.
    if a >= 0 && b >= 0 {
      NatToStringInjective(a, b);
    } else if a < 0 && b < 0 {
      NatToStringInjective(-a, -b);
    }
  }

  /** A segment without `/` followed by `/` can be read back off the front. */
  lemma SplitAtSlash(x: string, p: string, y: string, q: string)
    requires '/' !in x && '/' !in y
    requires x + "/" + p == y + "/" + q
    ensures x == y && p == q
  {
    var u := x + "/" + p;
    assert u[|x|] == '/' && forall j :: 0 <= j < |x| ==> u[j] == x[j];
    IndexOfUnique(u, '/', |x|);
    assert u[|y|] == '/' && forall j :: 0 <= j < |y| ==> u[j] == y[j];
    IndexOfUnique(u, '/', |y|);
    assert x == u[..|x|] && y == u[..|y|];
    assert p == u[|x| + 1..] && q == u[|y| + 1..];
  }

  /** PHP's rendering of an integer when it is concatenated onto a string. */
  function IntToString(n: int): (s: string)
    ensures n >= 0 ==> s == NatToString(n)
    ensures n < 0 ==> |s| > 1 && s[0] == '-' && s[1..] == NatToString(-n)
    ensures '?' !in s && '&' !in s && '/' !in s
  {
    if n < 0 then "-" + NatToString(-n) else NatToString(n)
  }
}
