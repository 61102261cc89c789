/**
 * Requests the client issues with `fetch` and the responses it reads back.
 * A response is its status and its body text; `res.text()` is the text and
 * `res.json()` the parse of that text.
 */
module Http {
  import opened Js
  import opened Decimal

  /** The REST API root, as utils/Auth.js and both posts.js files declare it. */
  const ApiBaseUrl := "https://tec-social-network.onrender.com/api"

  datatype Response = Response(status: nat, text: string) {
    /** `res.ok`: the status is in the range 200 to 299 (the Fetch standard's "ok status"). */
    predicate Ok() {
      200 <= status <= 299
    }
  }

  /** One call of `fetch`: method (verb), URL, headers in order, and the JSON value sent as body, if any. */
  datatype Request = Request(verb: string, url: string, headers: seq<(string, string)>, body: Option<Json>)

  /** A request and what the client makes of the response to it. */
  datatype Exchange = Exchange(request: Request, outcome: Result<Json>)

  function JsonHeaders(): seq<(string, string)> {
    [("Content-Type", "application/json")]
  }

  function BearerHeaders(token: string): seq<(string, string)> {
    JsonHeaders() + [("Authorization", "Bearer " + token)]
  }

  /** `` `Error ${res.status}` ``. */
  function StatusMessage(status: nat): (m: string)
    ensures |m| > 6 && m[..6] == "Error "
    ensures AllDigits(m[6..])
  {
    "Error " + NatToString(status)
  }

  /** Reads the status back out of a StatusMessage text. */
  function StatusOfMessage(m: string): Option<nat> {
    if |m| >= 6 && m[..6] == "Error " then ParseNat(m[6..]) else None
  }

  /** The fallback message is never empty and names the status it was built from. */
  lemma StatusMessageRoundTrip(status: nat)
    ensures StatusMessage(status) != ""
    ensures StatusOfMessage(StatusMessage(status)) == Some(status)
  {
    var m := StatusMessage(status);
    assert m[6..] == NatToString(status);
    ParseNatToString(status);
  }

  /** `` `${BASE_URL}${path}?page=${page}&limit=${limit}` ``. */
  function PageUrl(path: string, page: nat, limit: nat): (url: string)
    ensures var prefix := ApiBaseUrl + path + "?page=";
      |prefix| < |url| && url[..|prefix|] == prefix
    ensures var tail := "&limit=" + NatToString(limit);
      |tail| < |url| && url[|url| - |tail|..] == tail
  {
    ApiBaseUrl + path + "?page=" + NatToString(page) + "&limit=" + NatToString(limit)
  }

  /** Reads page and limit back out of a PageUrl for `path`. */
  function PageQuery(path: string, url: string): Option<(nat, nat)> {
    var prefix := ApiBaseUrl + path + "?page=";
    if |url| < |prefix| || url[..|prefix|] != prefix then None
    else
      var rest := url[|prefix|..];
      var k := FirstIndex(rest, '&');
      var tail := rest[k..];
      if |tail| < 7 || tail[..7] != "&limit=" then None
      else
        match (ParseNat(rest[..k]), ParseNat(tail[7..]))
        case (Some(p), Some(l)) => Some((p, l))
        case _ => None
  }

  /** The page and limit a list URL was built from can be read back from it. */
  lemma PageUrlRoundTrip(path: string, page: nat, limit: nat)
    ensures PageQuery(path, PageUrl(path, page, limit)) == Some((page, limit))
  {
    var p, l := NatToString(page), NatToString(limit);
    assert PageUrl(path, page, limit) == ApiBaseUrl + path + "?page=" + (p + "&limit=" + l);
    QueryOfParts(path, page, limit);
  }

  /** PageQuery on the parts a list URL is made of. */
  lemma QueryOfParts(path: string, page: nat, limit: nat)
    ensures var p, l := NatToString(page), NatToString(limit);
      PageQuery(path, ApiBaseUrl + path + "?page=" + (p + "&limit=" + l)) == Some((page, limit))
  {
    var prefix := ApiBaseUrl + path + "?page=";
    var p, l := NatToString(page), NatToString(limit);
    var rest := p + "&limit=" + l;
    SplitAfter(prefix, rest);
    QueryTail(p, l);
    ParseNatToString(page);
    ParseNatToString(limit);
  }

  /** Cutting `prefix + rest` at the length of `prefix` gives both parts back. */
  lemma SplitAfter(prefix: string, rest: string)
    ensures (prefix + rest)[..|prefix|] == prefix && (prefix + rest)[|prefix|..] == rest
  {
  }

  /** In `p&limit=l` with `p` all digits, the first `&` ends `p` and `l` follows the marker. */
  lemma QueryTail(p: string, l: string)
    requires AllDigits(p)
    ensures var rest := p + "&limit=" + l;
      var k := FirstIndex(rest, '&');
      && k == |p| && rest[..k] == p
      && |rest[k..]| >= 7 && rest[k..][..7] == "&limit=" && rest[k..][7..] == l
  {
    var rest := p + "&limit=" + l;
    assert rest[|p|] == '&';
    assert forall i :: 0 <= i < |p| ==> rest[i] == p[i] && IsDigit(p[i]);
    assert rest[..|p|] == p;
    assert rest[|p|..] == "&limit=" + l;
  }
}
