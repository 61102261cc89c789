/**
 * The fetch helpers of the root app (api/posts.js), the copy its screens
 * import. The file repeats fetchPosts and createPost of
 * lpalsmegapro/api/posts.js; SameAsMegapro proves the two copies behave alike.
 */
module Posts {
  import opened Js
  import opened Http
  import opened ResponseRules
  import MegaproPosts

  /** `fetchPosts(token, page, limit)`: GET a page of posts; the result is always an array. */
  function FetchPosts(token: string, page: Option<nat>, limit: Option<nat>, res: Response, parse: Parser): (x: Exchange)
    ensures x.request.verb == "GET" && x.request.headers == BearerHeaders(token) && x.request.body == None
    ensures PageQuery("/posts", x.request.url) == Some((page.GetOr(MegaproPosts.DefaultPage), limit.GetOr(MegaproPosts.DefaultLimit)))
    ensures x.outcome == ReadList(res, parse)
    ensures x.outcome.Ok? ==> x.outcome.value.JArr?
  {
    PageUrlRoundTrip("/posts", page.GetOr(MegaproPosts.DefaultPage), limit.GetOr(MegaproPosts.DefaultLimit));
    Exchange(
      Request("GET", PageUrl("/posts", page.GetOr(MegaproPosts.DefaultPage), limit.GetOr(MegaproPosts.DefaultLimit)), BearerHeaders(token), None),
      ReadList(res, parse))
  }

  /** `createPost(token, content)`: POST `{content}`; the parsed body is returned as it is. */
  function CreatePost(token: string, content: string, res: Response, parse: Parser): (x: Exchange)
    ensures x.request.verb == "POST" && x.request.url == ApiBaseUrl + "/posts"
    ensures x.request.headers == BearerHeaders(token)
    ensures x.request.body.Some? && Member(x.request.body.value, "content") == Some(JStr(content))
    ensures x.request.body.value.JObj? && x.request.body.value.fields.Keys == {"content"}
    ensures x.outcome == ReadText(res, parse)
    ensures x.outcome.Ok? ==> parse(res.text) == Some(x.outcome.value)
  {
    Exchange(
      Request("POST", ApiBaseUrl + "/posts", BearerHeaders(token), Some(JObj(map["content" := JStr(content)]))),
      ReadText(res, parse))
  }

  /** The two copies of fetchPosts and createPost issue the same requests and read responses the same way. */
  lemma SameAsMegapro(token: string, page: Option<nat>, limit: Option<nat>, content: string, res: Response, parse: Parser)
    ensures FetchPosts(token, page, limit, res, parse) == MegaproPosts.FetchPosts(token, page, limit, res, parse)
    ensures CreatePost(token, content, res, parse) == MegaproPosts.CreatePost(token, content, res, parse)
  {
  }
}
