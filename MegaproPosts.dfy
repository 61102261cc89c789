/**
 * The fetch helpers of the second app (lpalsmegapro/api/posts.js). Each helper
 * is one request and one of the rules of ResponseRules applied to its response.
 */
module MegaproPosts {
  import opened Js
  import opened Http
  import opened ResponseRules

  /** Defaults of the `page` and `limit` parameters, used when the caller passes `undefined`. */
  const DefaultPage: nat := 1
  const DefaultLimit: nat := 10

  /** `fetchPosts(token, page, limit)`: GET a page of posts; the result is always an array. */
  function FetchPosts(token: string, page: Option<nat>, limit: Option<nat>, res: Response, parse: Parser): (x: Exchange)
    ensures x.request.verb == "GET" && x.request.headers == BearerHeaders(token) && x.request.body == None
    ensures PageQuery("/posts", x.request.url) == Some((page.GetOr(DefaultPage), limit.GetOr(DefaultLimit)))
    ensures x.outcome == ReadList(res, parse)
    ensures x.outcome.Ok? ==> x.outcome.value.JArr?
  {
    PageUrlRoundTrip("/posts", page.GetOr(DefaultPage), limit.GetOr(DefaultLimit));
    Exchange(
      Request("GET", PageUrl("/posts", page.GetOr(DefaultPage), limit.GetOr(DefaultLimit)), BearerHeaders(token), None),
      ReadList(res, parse))
  }

  /** `createPost(token, content)`: POST `{content}`; the parsed body is returned as it is. */
  function CreatePost(token: string, content: string, res: Response, parse: Parser): (x: Exchange)
    ensures x.request.verb == "POST" && x.request.url == ApiBaseUrl + "/posts"
    ensures x.request.headers == BearerHeaders(token)
    ensures x.request.body.Some? && Member(x.request.body.value, "content") == Some(JStr(content))
    ensures x.request.body.value.JObj? && x.request.body.value.fields.Keys == {"content"}
    ensures x.outcome == ReadText(res, parse)
    ensures x.outcome.Ok? ==> parse(res.text) == Some(x.outcome.value)
  {
    Exchange(
      Request("POST", ApiBaseUrl + "/posts", BearerHeaders(token), Some(JObj(map["content" := JStr(content)]))),
      ReadText(res, parse))
  }

  /** `fetchFeed(token, page, limit)`: GET a page of the feed; the result is always an array. */
  function FetchFeed(token: string, page: Option<nat>, limit: Option<nat>, res: Response, parse: Parser): (x: Exchange)
    ensures x.request.verb == "GET" && x.request.headers == BearerHeaders(token) && x.request.body == None
    ensures PageQuery("/feed", x.request.url) == Some((page.GetOr(DefaultPage), limit.GetOr(DefaultLimit)))
    ensures x.outcome == ReadList(res, parse)
    ensures x.outcome.Ok? ==> x.outcome.value.JArr?
  {
    PageUrlRoundTrip("/feed", page.GetOr(DefaultPage), limit.GetOr(DefaultLimit));
    Exchange(
      Request("GET", PageUrl("/feed", page.GetOr(DefaultPage), limit.GetOr(DefaultLimit)), BearerHeaders(token), None),
      ReadList(res, parse))
  }

  /** `` `${BASE_URL}/users/${id}/follow` ``. */
  function FollowUrl(id: string): (url: string)
    ensures |url| == |ApiBaseUrl + "/users/"| + |id| + |"/follow"|
    ensures url[|ApiBaseUrl + "/users/"|..|url| - |"/follow"|] == id
  {
    ApiBaseUrl + "/users/" + id + "/follow"
  }

  /** Reads the user id back out of a FollowUrl. */
  function FollowedId(url: string): Option<string> {
    var prefix, suffix := ApiBaseUrl + "/users/", "/follow";
    if |url| >= |prefix| + |suffix| && url[..|prefix|] == prefix && url[|url| - |suffix|..] == suffix
    then Some(url[|prefix|..|url| - |suffix|])
    else None
  }

  lemma FollowUrlRoundTrip(id: string)
    ensures FollowedId(FollowUrl(id)) == Some(id)
  {
    var prefix, suffix := ApiBaseUrl + "/users/", "/follow";
    var url := FollowUrl(id);
    assert url == prefix + id + suffix;
    assert url[..|prefix|] == prefix;
    assert url[|url| - |suffix|..] == suffix;
    assert url[|prefix|..|url| - |suffix|] == id;
  }

  /** `followId(id, token)`: PUT on the user's follow resource; an unparsable body is `null`. */
  function FollowId(id: string, token: string, res: Response, parse: Parser): (x: Exchange)
    ensures x.request.verb == "PUT" && FollowedId(x.request.url) == Some(id)
    ensures x.request.headers == BearerHeaders(token) && x.request.body == None
    ensures x.outcome == ReadLenient(res, parse)
    ensures x.outcome.Ok? <==> res.Ok()
  {
    FollowUrlRoundTrip(id);
    Exchange(Request("PUT", FollowUrl(id), BearerHeaders(token), None), ReadLenient(res, parse))
  }

  /** `unfollowId(id, token)`: DELETE on the same resource FollowId writes to. */
  function UnfollowId(id: string, token: string, res: Response, parse: Parser): (x: Exchange)
    ensures x.request.verb == "DELETE" && FollowedId(x.request.url) == Some(id)
    ensures x.request.headers == BearerHeaders(token) && x.request.body == None
    ensures x.outcome == ReadLenient(res, parse)
    ensures x.outcome.Ok? <==> res.Ok()
  {
    FollowUrlRoundTrip(id);
    Exchange(Request("DELETE", FollowUrl(id), BearerHeaders(token), None), ReadLenient(res, parse))
  }

  /** Follow and unfollow address the same URL and differ only in the method. */
  lemma FollowUnfollowSameResource(id: string, token: string, res: Response, parse: Parser)
    ensures var f, u := FollowId(id, token, res, parse), UnfollowId(id, token, res, parse);
      f.request.url == u.request.url && f.request.verb != u.request.verb
      && f.request.headers == u.request.headers && f.outcome == u.outcome
  {
  }

  /** `getUserInfo(id, token)`: GET the user; a parse failure is not caught. */
  function GetUserInfo(id: string, token: string, res: Response, parse: Parser): (x: Exchange)
    ensures x.request.verb == "GET" && x.request.url == ApiBaseUrl + "/users/" + id
    ensures x.request.headers == BearerHeaders(token) && x.request.body == None
    ensures x.outcome == ReadJson(res, parse)
    ensures parse(res.text).None? ==> x.outcome == Err(SyntaxError)
  {
    Exchange(Request("GET", ApiBaseUrl + "/users/" + id, BearerHeaders(token), None), ReadJson(res, parse))
  }
}
