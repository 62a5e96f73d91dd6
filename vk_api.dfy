/**
 * The VK API as the crawler sees it: decoded JSON documents, the four
 * read-only endpoints (as an immutable oracle), a client that records every
 * call it makes, and the rate-limit retry loop of `request_vk_api`.
 */
module VkApi {
  import opened Wrappers

  type UserId = int
  type GroupId = int

  /** The fixed API version every request carries. */
  const ApiVersion: string := "5.131"
  /** The VK error code for "too many requests per second". */
  const TooManyRequests: int := 6
  /** The base URL used when the environment does not set one. */
  const DefaultApiUrl: string := "https://api.vk.com/method/"

  /** The base URL of every request: the configured one, or the default when none is set. */
  function ApiUrl(configured: Option<string>): (url: string)
    ensures configured.Some? ==> url == configured.value
    ensures configured.None? ==> url == DefaultApiUrl
  {
    configured.GetOr(DefaultApiUrl)
  }

  /** The `error` object of a reply; `error_code` may be missing. */
  datatype VkError = VkError(errorCode: Option<int>)

  /**
   * A decoded reply: the optional `response` key and the optional `error` key.
   * `Doc(None, None)` is the empty object `{}`, which Python treats as false.
   */
  datatype Doc<P> = Doc(response: Option<P>, error: Option<VkError>)

  /** The `{}` document, which stands for any reply without `response`. */
  function EmptyDoc<P>(): Doc<P> { Doc(None, None) }

  /** The `city` object of a user; its `title` may be missing. */
  datatype City = City(title: Option<string>)

  /** A user item as VK returns it; only `id` is always present. */
  datatype ApiUser = ApiUser(
    id: UserId,
    screenName: Option<string>,
    firstName: Option<string>,
    lastName: Option<string>,
    city: Option<City>)

  /** A group item; the crawler indexes `screen_name` and `name` directly, so both are present. */
  datatype ApiGroup = ApiGroup(id: GroupId, screenName: string, name: string)

  /** The `response` object of the list endpoints; `items` may be missing. */
  datatype Listing<T> = Listing(items: Option<seq<T>>)

  /**
   * The remote API, fixed for the whole run: what each endpoint answers for
   * each user id. An id missing from a map is answered with `{}`.
   */
  datatype Oracle = Oracle(
    usersGet: map<UserId, Doc<seq<ApiUser>>>,
    followers: map<UserId, Doc<Listing<ApiUser>>>,
    subscriptions: map<UserId, Doc<Listing<ApiUser>>>,
    groupsGet: map<UserId, Doc<Listing<ApiGroup>>>)

  function Lookup<P>(m: map<UserId, Doc<P>>, id: UserId): (d: Doc<P>)
    ensures id in m ==> d == m[id]
    ensures id !in m ==> d == EmptyDoc()
  {
    if id in m then m[id] else EmptyDoc()
  }

  /** One request the crawler sends, named by its VK method and user id. */
  datatype Call =
    | UsersGet(userId: UserId)
    | UsersGetFollowers(userId: UserId)
    | UsersGetSubscriptions(userId: UserId)
    | GroupsGet(userId: UserId)

  /**
   * The profile check of `process_user`: a profile exists exactly when the
   * reply is non-empty, has `response`, and that list is non-empty; it is
   * then the first element of the list.
   */
  function ProfileOf(d: Doc<seq<ApiUser>>): (r: Option<ApiUser>)
    ensures r.None? <==> (d.response.None? || d.response.value == [])
    ensures r.Some? ==> r.value == d.response.value[0]
  {
    if d.response.Some? && d.response.value != [] then Some(d.response.value[0]) else None
  }

  /**
   * The list check of `process_user`: the items to iterate over, which are
   * none unless the reply has `response` and that object has `items`.
   */
  function ItemsOf<T>(d: Doc<Listing<T>>): (r: seq<T>)
    ensures d.response.None? ==> r == []
    ensures d.response.Some? && d.response.value.items.None? ==> r == []
    ensures d.response.Some? && d.response.value.items.Some? ==> r == d.response.value.items.value
  {
    if d.response.Some? && d.response.value.items.Some? then d.response.value.items.value else []
  }

  /**
   * The client for the four endpoints. The answers come from `oracle`;
   * `log` is the sequence of requests sent so far.
   */
  class VkClient {
    const oracle: Oracle
    var log: seq<Call>

    constructor (oracle: Oracle)
      ensures this.oracle == oracle && log == []
    {
      this.oracle := oracle;
      log := [];
    }

    method GetUserInfo(userId: UserId) returns (d: Doc<seq<ApiUser>>)
      modifies this
      ensures d == Lookup(oracle.usersGet, userId)
      ensures log == old(log) + [UsersGet(userId)]
    {
      d := Lookup(oracle.usersGet, userId);
      log := log + [UsersGet(userId)];
    }

    method GetFollowers(userId: UserId) returns (d: Doc<Listing<ApiUser>>)
      modifies this
      ensures d == Lookup(oracle.followers, userId)
      ensures log == old(log) + [UsersGetFollowers(userId)]
    {
      d := Lookup(oracle.followers, userId);
      log := log + [UsersGetFollowers(userId)];
    }

    method GetSubscriptions(userId: UserId) returns (d: Doc<Listing<ApiUser>>)
      modifies this
      ensures d == Lookup(oracle.subscriptions, userId)
      ensures log == old(log) + [UsersGetSubscriptions(userId)]
    {
      d := Lookup(oracle.subscriptions, userId);
      log := log + [UsersGetSubscriptions(userId)];
    }

    method GetGroups(userId: UserId) returns (d: Doc<Listing<ApiGroup>>)
      modifies this
      ensures d == Lookup(oracle.groupsGet, userId)
      ensures log == old(log) + [GroupsGet(userId)]
    {
      d := Lookup(oracle.groupsGet, userId);
      log := log + [GroupsGet(userId)];
    }
  }

  // ---------------------------------------------------------------------
  // request_vk_api: the generic call with its rate-limit retry loop
  // ---------------------------------------------------------------------

  /** A reply that asks the caller to slow down and try again. */
  predicate IsRateLimited<P>(d: Doc<P>) {
    d.error.Some? && d.error.value.errorCode == Some(TooManyRequests)
  }

  /**
   * Where the retry loop stops on the replies `feed`: the index of the first
   * reply that is not a rate-limit error, or `|feed|` if every reply is one.
   */
  function SettledAt<P>(feed: seq<Doc<P>>): (k: nat)
    ensures k <= |feed|
    ensures forall i :: 0 <= i < k ==> IsRateLimited(feed[i])
    ensures k < |feed| ==> !IsRateLimited(feed[k])
  {
    if feed == [] then 0
    else if IsRateLimited(feed[0]) then 1 + SettledAt(feed[1..])
    else 0
  }

  /** One GET as it goes over the wire: the URL and its query parameters. */
  datatype HttpGet = HttpGet(url: string, params: map<string, string>)

  /**
   * What `request_vk_api` has produced after consuming the replies it was
   * given: it returned (the reply, or None after an error), or every reply
   * so far was a rate-limit error and it is still sleeping and retrying.
   */
  datatype Outcome<P> = Returned(reply: Option<Doc<P>>) | Retrying

  /**
   * The `while True` loop of `request_vk_api`: send `get`, read the next
   * reply of `feed`; on error code 6 sleep and retry, on another error give
   * up with None, otherwise return the reply. `sent` is the requests issued,
   * `sleeps` the one-second pauses taken.
   */
  method AwaitReply<P>(get: HttpGet, feed: seq<Doc<P>>) returns (outcome: Outcome<P>, sent: seq<HttpGet>, sleeps: nat)
    ensures sleeps == SettledAt(feed)
    ensures |sent| == (if sleeps < |feed| then sleeps + 1 else sleeps)
    ensures forall i :: 0 <= i < |sent| ==> sent[i] == get
    ensures sleeps == |feed| <==> outcome == Retrying
    ensures sleeps < |feed| && feed[sleeps].error.Some? ==> outcome == Returned(None)
    ensures sleeps < |feed| && feed[sleeps].error.None? ==> outcome == Returned(Some(feed[sleeps]))
  {
    var i := 0;
    sent := [];
    sleeps := 0;
    while i < |feed|
      invariant 0 <= i <= |feed|
      invariant sleeps == i && |sent| == i
      invariant forall j :: 0 <= j < i ==> IsRateLimited(feed[j])
      invariant forall j :: 0 <= j < |sent| ==> sent[j] == get
      invariant SettledAt(feed) == i + SettledAt(feed[i..])
    {
      sent := sent + [get];
      var reply := feed[i];
      if reply.error.Some? {
        if reply.error.value.errorCode == Some(TooManyRequests) {
          sleeps := sleeps + 1;
          i := i + 1;
          continue;
        } else {
          return Returned(None), sent, sleeps;
        }
      }
      return Returned(Some(reply)), sent, sleeps;
    }
    outcome := Retrying;
  }

  /** The caller's `params` dict, which `request_vk_api` updates in place. */
  class Params {
    var entries: map<string, string>

    constructor (entries: map<string, string>)
      ensures this.entries == entries
    {
      this.entries := entries;
    }
  }

  /**
   * `request_vk_api(method, params)`: puts the access token and the API
   * version into the caller's `params`, then runs the retry loop against
   * `apiUrl + method`.
   */
  method RequestVkApi<P>(apiUrl: string, accessToken: string, vkMethod: string, params: Params, feed: seq<Doc<P>>)
    returns (outcome: Outcome<P>, sent: seq<HttpGet>, sleeps: nat)
    modifies params
    ensures params.entries == old(params.entries)["access_token" := accessToken]["v" := ApiVersion]
    ensures forall i :: 0 <= i < |sent| ==>
      sent[i].url == apiUrl + vkMethod &&
      sent[i].params == params.entries &&
      sent[i].params["access_token"] == accessToken && sent[i].params["v"] == ApiVersion
    ensures sleeps == SettledAt(feed)
    ensures |sent| == (if sleeps < |feed| then sleeps + 1 else sleeps)
    ensures sleeps == |feed| <==> outcome == Retrying
    ensures sleeps < |feed| && feed[sleeps].error.Some? ==> outcome == Returned(None)
    ensures sleeps < |feed| && feed[sleeps].error.None? ==> outcome == Returned(Some(feed[sleeps]))
  {
    params.entries := params.entries["access_token" := accessToken];
    params.entries := params.entries["v" := ApiVersion];
    outcome, sent, sleeps := AwaitReply(HttpGet(apiUrl + vkMethod, params.entries), feed);
  }

  /**
   * Rate-limit handling: N rate-limit errors followed by a reply that is not
   * an error yield that reply after N sleeps, so no error reaches the caller.
   */
  lemma RateLimitedThenSuccess<P>(feed: seq<Doc<P>>, n: nat)
    requires n < |feed|
    requires forall i :: 0 <= i < n ==> IsRateLimited(feed[i])
    requires feed[n].error.None?
    ensures SettledAt(feed) == n
  {
  }

  /** Any error other than code 6 ends the loop at once: nothing is retried. */
  lemma OtherErrorStopsAtOnce<P>(feed: seq<Doc<P>>)
    requires feed != [] && feed[0].error.Some?
    requires feed[0].error.value.errorCode != Some(TooManyRequests)
    ensures SettledAt(feed) == 0
  {
  }
}
