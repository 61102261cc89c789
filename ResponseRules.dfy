/**
 * The three ways the posts helpers turn a response into a value or an error
 * message. Both copies of posts.js (api/posts.js and lpalsmegapro/api/posts.js)
 * use them; the modules MegaproPosts and Posts say which helper uses which.
 */
module ResponseRules {
  import opened Js
  import opened Http

  /** `text || \`Error ${res.status}\``: the message of last resort. */
  function TextOrStatus(res: Response): (m: string)
    ensures res.text != "" ==> m == res.text
    ensures res.text == "" ==> StatusOfMessage(m) == Some(res.status)
  {
    StatusMessageRoundTrip(res.status);
    OrText(res.text, StatusMessage(res.status))
  }

  lemma TextOrStatusNonEmpty(res: Response)
    ensures TextOrStatus(res) != ""
  {
    StatusMessageRoundTrip(res.status);
  }

  /**
   * fetchPosts, createPost, fetchFeed: read the body as text and parse it
   * BEFORE looking at `res.ok`. A parse failure is an error whatever the
   * status; a parsed non-OK response fails with the first truthy value among
   * `data?.message`, the text and `Error <status>`.
   */
  function ReadText(res: Response, parse: Parser): (r: Result<Json>)
    ensures r.Ok? <==> parse(res.text).Some? && res.Ok()
    ensures r.Ok? ==> parse(res.text) == Some(r.value)
    ensures r.Err? ==> r.error.Thrown? && Truthy(r.error.message)
    ensures parse(res.text).None? ==> r == Err(Thrown(JStr(TextOrStatus(res))))
  {
    TextOrStatusNonEmpty(res);
    match parse(res.text)
    case None => Err(Thrown(JStr(TextOrStatus(res))))
    case Some(data) =>
      if !res.Ok() then Err(Thrown(Or(Member(data, "message"), JStr(TextOrStatus(res)))))
      else Ok(data)
  }

  /** Where the message of a ReadText failure comes from, in order of preference. */
  lemma ReadTextMessage(res: Response, parse: Parser)
    requires ReadText(res, parse).Err?
    ensures var m := ReadText(res, parse).error.message;
      && (parse(res.text).Some? && !res.Ok() && Member(parse(res.text).value, "message").Some?
          && Truthy(Member(parse(res.text).value, "message").value)
          ==> m == Member(parse(res.text).value, "message").value)
      && (res.text != "" && (parse(res.text).None? || !Truthy(Member(parse(res.text).value, "message").GetOr(JNull)))
          ==> m == JStr(res.text))
      && (res.text == "" && (parse(res.text).None? || !Truthy(Member(parse(res.text).value, "message").GetOr(JNull)))
          ==> m.JStr? && StatusOfMessage(m.s) == Some(res.status))
  {
    StatusMessageRoundTrip(res.status);
  }

  /**
   * fetchPosts, fetchFeed: ReadText, then `Array.isArray(data) ? data : []`.
   * A successful list read always yields an array: the parsed one, or an
   * empty one in place of anything else.
   */
  function ReadList(res: Response, parse: Parser): (r: Result<Json>)
    ensures r.Ok? <==> parse(res.text).Some? && res.Ok()
    ensures r.Ok? ==> r.value.JArr?
    ensures r.Ok? && parse(res.text).value.JArr? ==> r.value == parse(res.text).value
    ensures r.Ok? && !parse(res.text).value.JArr? ==> r.value == JArr([])
    ensures r.Err? ==> r == ReadText(res, parse)
  {
    match ReadText(res, parse)
    case Ok(data) => Ok(if data.JArr? then data else JArr([]))
    case Err(e) => Err(e)
  }

  /**
   * followId, unfollowId: `await res.json()` inside a try whose catch makes the
   * body `null`; a non-OK response fails with `body?.message` or
   * `Error <status>`. The raw text is never a message.
   */
  function ReadLenient(res: Response, parse: Parser): (r: Result<Json>)
    ensures r.Ok? <==> res.Ok()
    ensures r.Ok? ==> r.value == parse(res.text).GetOr(JNull)
    ensures r.Err? ==> r.error.Thrown? && Truthy(r.error.message)
  {
    StatusMessageRoundTrip(res.status);
    var body := parse(res.text).GetOr(JNull);
    if !res.Ok() then Err(Thrown(Or(Member(body, "message"), JStr(StatusMessage(res.status)))))
    else Ok(body)
  }

  /** The outcome of ReadLenient depends on the status and the parse outcome alone, not on the text. */
  lemma ReadLenientIgnoresText(res1: Response, res2: Response, parse1: Parser, parse2: Parser)
    requires res1.status == res2.status
    requires parse1(res1.text) == parse2(res2.text)
    ensures ReadLenient(res1, parse1) == ReadLenient(res2, parse2)
  {
  }

  /** A ReadLenient failure carries the body's message, or else names the status. */
  lemma ReadLenientMessage(res: Response, parse: Parser)
    requires !res.Ok()
    ensures var m := ReadLenient(res, parse).error.message;
      var hint := Member(parse(res.text).GetOr(JNull), "message");
      && (hint.Some? && Truthy(hint.value) ==> m == hint.value)
      && (!(hint.Some? && Truthy(hint.value)) ==> m.JStr? && StatusOfMessage(m.s) == Some(res.status))
  {
    StatusMessageRoundTrip(res.status);
  }

  /**
   * getUserInfo: `await res.json()` with no catch, so a parse failure escapes
   * as a SyntaxError; a non-OK response fails with `data?.message` or
   * `Error <status>`.
   */
  function ReadJson(res: Response, parse: Parser): (r: Result<Json>)
    ensures parse(res.text).None? ==> r == Err(SyntaxError)
    ensures r.Ok? <==> parse(res.text).Some? && res.Ok()
    ensures r.Ok? ==> parse(res.text) == Some(r.value)
    ensures parse(res.text).Some? && !res.Ok() ==> r.error.Thrown? && Truthy(r.error.message)
  {
    StatusMessageRoundTrip(res.status);
    match parse(res.text)
    case None => Err(SyntaxError)
    case Some(data) =>
      if !res.Ok() then Err(Thrown(Or(Member(data, "message"), JStr(StatusMessage(res.status)))))
      else Ok(data)
  }

  /** A ReadJson failure on a parsed body carries the body's message, or else names the status. */
  lemma ReadJsonMessage(res: Response, parse: Parser)
    requires parse(res.text).Some? && !res.Ok()
    ensures var m := ReadJson(res, parse).error.message;
      var hint := Member(parse(res.text).value, "message");
      && (hint.Some? && Truthy(hint.value) ==> m == hint.value)
      && (!(hint.Some? && Truthy(hint.value)) ==> m.JStr? && StatusOfMessage(m.s) == Some(res.status))
  {
    StatusMessageRoundTrip(res.status);
  }
}
