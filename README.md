# vk_neo4j_parser, modelled in Dafny

The program crawls the VK social network from a seed user to a fixed depth.
It writes users, groups and the Follow and Subscribe relationships between
them into a Neo4j graph, then runs a few reporting queries. This project
models that crawl, the store it writes, the generic `request_vk_api` call with
its rate-limit retry loop, and the three ranking and pairing queries. It then
proves what each of them promises.

- `wrappers.dfy`, module `Wrappers`: `Option`, with `GetOr` for Python's `dict.get(key, default)`.
- `vk_api.dfy`, module `VkApi`: decoded VK replies (`Doc`: an optional
  `response` and an optional `error`); the API as an immutable `Oracle` from
  user id to the reply of each of the four endpoints; a `VkClient` class whose
  `get_*` methods answer from the oracle and append each request to `log`;
  and `request_vk_api` over a finite sequence of replies.
- `graph_store.dfy`, module `GraphStore`: the User and Group records and the
  relationships. `Snapshot` is the store's contents as a value, and the merge
  functions say what one merge does. `Wf` is the store's well-formedness: each
  node sits under its own id, and every relationship joins existing nodes. The
  `GraphStore` class is the store updated in place.
- `crawler.dfy`, module `Crawler`: `create_user_node`'s record (`MakeUser`).
  `Visit`, `Expand`, `FollowerLoop`, `SubscriptionLoop` and `GroupLoop` state
  as functions what `process_user` writes and which requests it sends.
  `ProcessUser` and its three loop methods are the crawl itself, proved equal
  to `Visit`. The section also holds the lemmas about the crawl.
- `queries.dfy`, module `Queries`: the top-5 queries (a generic `TopK`
  selection) and the mutual-followers query, as functions of a `Snapshot`.
- `app.dfy`, module `App`: `main` (`Run`) and two small crawls worked out in full.

The crawl function returns a `World`: the store plus the list of requests sent.
So "no endpoint is consulted" and "lists are never fetched" are statements
about that list. The visited user's node is keyed on the id in the profile
reply (app.py:86-87). Its follower, subscription and group lists are fetched
for the requested id (app.py:89, 96, 103). The model keeps both.

A few points about app.py itself, which the model follows:
- app.py defines five queries (app.py:110-137) and no others; `main` runs
  three of them and uses only the lengths of the other two.
- A user with no first or last name is named `" "`: the two empty halves
  joined by a space (app.py:71).
- The crawl never goes through `request_vk_api`. The four `get_*` functions
  build their URLs and call the network directly (app.py:46-64), so the crawl
  has no rate-limit retry.

Assumption about py2neo: merging a node whose id already exists replaces its
properties. Merging a relationship that already exists adds nothing.

## Model

| member | source | states |
|---|---|---|
| VkApi.ProfileOf | app.py:81-86 | a profile exists exactly when the reply has a non-empty `response` list, and it is the list's first element |
| VkApi.ItemsOf | app.py:90-91 | the items iterated are those of `response.items`, and none when the reply lacks `response` or `items` |
| VkApi.VkClient.GetUserInfo | app.py:46-49 | returns the oracle's users.get reply for the id and appends exactly that request to the log |
| VkApi.VkClient.GetFollowers | app.py:51-54 | returns the oracle's users.getFollowers reply and logs exactly that request |
| VkApi.VkClient.GetSubscriptions | app.py:56-59 | returns the oracle's users.getSubscriptions reply and logs exactly that request |
| VkApi.VkClient.GetGroups | app.py:61-64 | returns the oracle's groups.get reply and logs exactly that request |
| VkApi.ApiUrl | app.py:15 | requests go to the configured API URL, or to `https://api.vk.com/method/` when none is set |
| VkApi.SettledAt | app.py:33-44 | the loop stops at the first reply that is not an error with code 6; every earlier reply is one |
| VkApi.AwaitReply | app.py:33-44 | every GET is the same request; one sleep per code-6 reply; another error returns None; the first reply without `error` is returned; all code 6 means still retrying |
| VkApi.RequestVkApi | app.py:28-44 | the caller's params gain `access_token` and `v = 5.131` before any request, every request carries them, and the outcome is that of the retry loop |
| VkApi.RateLimitedThenSuccess | app.py:35-40 | N code-6 replies followed by a good reply end the loop at reply N, after N sleeps |
| VkApi.OtherErrorStopsAtOnce | app.py:41-43 | an error code other than 6 is never retried |
| GraphStore.MergeUser | app.py:74 | a User merge creates the id or replaces its properties, and leaves other nodes and all relationships alone |
| GraphStore.MergeGroup | app.py:107 | the same for a Group merge |
| GraphStore.MergeFollow | app.py:93 | a Follow merge adds the pair once; merging an existing pair changes nothing |
| GraphStore.MergeSubscribe | app.py:100 | a Subscribe merge adds the relationship once; merging an existing one changes nothing |
| GraphStore.MergeUserKeepsWf | app.py:74 | a User merge keeps every node under its own id and every relationship between existing nodes |
| GraphStore.MergeUserIdempotent | app.py:74 | merging the same user twice is one merge |
| GraphStore.MergeUserLastWins | app.py:74 | a later merge with the same id overrides an earlier one |
| GraphStore.MergeUsersKeyed | app.py:74 | after any sequence of User merges there is one node per id merged, under that id, holding the last record merged for that id; other ids keep theirs |
| GraphStore.MergeUsersKeys | app.py:74 | the ids after a sequence of User merges are those present or merged, each node under its own id, and nothing else changes |
| GraphStore.MergeUsersUntouched | app.py:74 | an id no merged user carries keeps its node, or stays absent |
| GraphStore.MergeUsersLatestAt | app.py:74 | a user merged that no later merge overrides is the node stored under its id |
| GraphStore.MergeUsersLatestStored | app.py:74 | the same for every such user at once |
| GraphStore.GraphStore.Clear | app.py:23-26 | `clear_database` leaves the store empty |
| GraphStore.GraphStore.MergeUserNode | app.py:74 | the store becomes the User merge of its old contents |
| GraphStore.GraphStore.MergeGroupNode | app.py:107 | the store becomes the Group merge of its old contents |
| GraphStore.GraphStore.MergeFollowEdge | app.py:93 | the store becomes the Follow merge of its old contents |
| GraphStore.GraphStore.MergeSubscribeEdge | app.py:100 | the store becomes the Subscribe merge of its old contents |
| Crawler.MakeUser | app.py:67-73 | keeps the id; screen name, each half of the name and the city title default to "" independently; the name is first, a space, last |
| Crawler.NamelessUser | app.py:71 | a user with neither name part is named " " |
| Crawler.MakeGroup | app.py:106 | a Group node takes the group item's id, screen name and name as given |
| Crawler.Visit | app.py:77-88 | the reference crawl: unchanged at depth 0 or below; otherwise users.get is logged, a missing profile ends the visit, and a profile continues with `Expand` |
| Crawler.Expand | app.py:86-108 | merge the visited user, then the follower loop, the subscription loop and the group loop, each list requested for the requested id and attached to the profile's id |
| Crawler.FollowerLoop | app.py:89-94 | for each follower in order: merge it, add follower -> user, and visit it one level down |
| Crawler.SubscriptionLoop | app.py:96-101 | for each subscription in order: merge it as a user, add user -> it, and visit it one level down |
| Crawler.GroupLoop | app.py:103-108 | for each group in order: merge it and add user -> group, with no request and no recursion |
| Crawler.ProcessUser | app.py:77-108 | the crawl leaves exactly the store and request log that `Visit` gives, in the order guard, profile, user, followers, subscriptions, groups |
| Crawler.CrawlFollowers | app.py:89-94 | the follower loop merges each follower, adds follower -> user, then crawls the follower one level down, as `FollowerLoop` says |
| Crawler.CrawlSubscriptions | app.py:96-101 | the subscription loop merges each item as a user, adds user -> item, then crawls it one level down, as `SubscriptionLoop` says |
| Crawler.MergeGroups | app.py:103-108 | the group loop merges each group and adds user -> group, and sends no request |
| Crawler.DepthExhausted | app.py:78-79 | at depth 0 or below nothing is requested and nothing is written |
| Crawler.ProfileMissing | app.py:81-84 | with no profile only users.get is sent; followers, subscriptions and groups are never fetched, and the store is unchanged |
| Crawler.VisitMonotone | app.py:77-108 | a visit never removes a node or relationship, keeps the requests already sent, and keeps the store well-formed |
| Crawler.ExpandMonotone | app.py:86-108 | the same for the part after the profile check |
| Crawler.FollowerLoopMonotone | app.py:91-94 | the same for the follower loop, given the visited user is stored |
| Crawler.SubscriptionLoopMonotone | app.py:98-101 | the same for the subscription loop |
| Crawler.GroupLoopMonotone | app.py:105-108 | the group loop adds only groups and Subscribe relationships and keeps the store well-formed |
| Crawler.VisitRequestsProfileFirst | app.py:81 | a visit at positive depth first requests the profile |
| Crawler.FollowerLoopRecords | app.py:91-94 | each follower ends up stored, with its Follow to the visited user |
| Crawler.SubscriptionLoopRecords | app.py:98-101 | each subscription ends up stored as a user, with the Subscribe from the visited user |
| Crawler.GroupLoopRecords | app.py:105-108 | each group ends up stored, with the Subscribe from the visited user |
| Crawler.VisitRecordsNeighbours | app.py:86-108 | a visit that finds a profile stores the user and all its listed followers, subscriptions and groups with their relationships; fetching groups is its last request, so groups are never crawled |
| Crawler.FollowerLoopAtDepthOne | app.py:94 | at depth 1 the followers are crawled at depth 0, which sends nothing |
| Crawler.SubscriptionLoopAtDepthOne | app.py:101 | the same for subscriptions |
| Crawler.DepthOneRequests | app.py:77-108 | a depth-1 visit with a profile sends exactly users.get, users.getFollowers, users.getSubscriptions and groups.get for that user |
| Crawler.FollowerLoopCrawlsEach | app.py:94 | from depth 2, every listed follower is itself visited by the loop: its users.get request is among the calls the loop adds after those logged before it |
| Crawler.SubscriptionLoopCrawlsEach | app.py:101 | the same for every listed subscription |
| Crawler.VisitIgnoresHistory | app.py:77-108 | what a visit writes does not depend on the requests sent before, and its own requests are appended after them |
| Crawler.ExpandIgnoresHistory | app.py:86-108 | the same for the part after the profile check |
| Crawler.FollowerLoopIgnoresHistory | app.py:91-94 | the same for the follower loop |
| Crawler.SubscriptionLoopIgnoresHistory | app.py:98-101 | the same for the subscription loop |
| Crawler.CrawlReproducible | app.py:139-141 | two runs from an emptied store with the same API answers give the same nodes and relationships and send the same requests |
| Queries.Best | app.py:120 | picks the candidate ranked first: the most edges, ties broken by smallest id |
| Queries.FollowerCounts | app.py:117-120 | exactly the users with at least one follower, each mapped to its number of distinct followers |
| Queries.SubscriberCounts | app.py:125-128 | exactly the groups with at least one subscriber, each mapped to its number of distinct subscribers |
| Queries.TopK | app.py:120-121 | `ORDER BY count DESC LIMIT k` over a score map: min(k, keys) distinct keys, scores non-increasing, no key left out scoring above one taken |
| Queries.RowsOfTopK | app.py:119-121 | rows listing the keys `TopK` picks, with their counts, form a ranking in that sense |
| Queries.FollowerRows | app.py:119 | each row carries the user's id, its name and its number of followers |
| Queries.SubscriberRows | app.py:127 | each row carries the group's id, its name and its number of subscribers |
| Queries.TopFollowed | app.py:116-122 | a top-5 ranking of the followed users by follower count: min(5, followed) rows, each user once with its true count and name, counts non-increasing, no followed user left out with more followers than one listed |
| Queries.TopGroups | app.py:124-130 | the same for groups and their subscribers |
| Queries.MutualFollowers | app.py:132-137 | a row exactly for each two distinct users following each other, with their names; the result is symmetric |
| App.Run | app.py:139-148 | `main` crawls from the seed at depth 2 over an emptied store, whatever it held, and reports the counts and the three queries on the result |
| App.OneFollowerScenario | app.py:89-94 | seed 100 with follower 200 at depth 1 gives users 100 and 200, the relationship 200 -> 100, four requests, and a top-5 row (100, " ", 1) |
| App.ChainScenario | app.py:132-137 | the chain 300 -> 200 -> 100 at depth 2 gives three users, two relationships and no mutual followers |

## Left out

- Replies that change over a run: the `Oracle` gives the same answer to every request for a given endpoint and id. The program's `get_*` calls neither throttle nor retry (app.py:46-64), so a real crawl can get error 6 for one request and a good reply for a later request on the same id; the model cannot express that. `Crawler.VisitIgnoresHistory` and `Crawler.CrawlReproducible` hold only under this assumption.
- Network I/O and JSON decoding (`requests.get`, `.json()`): the crawl's replies come from the `Oracle`, and `request_vk_api`'s replies come from a finite sequence given as a parameter.
- The py2neo connection, `graph.run` and Cypher evaluation. The store is Dafny data, and the queries are functions over it. A relationship is addressed by its endpoint ids rather than by py2neo `Node` objects.
- The order of tied rows in the two top-5 queries. Neo4j leaves it unspecified. The model breaks ties by smallest id, but the contracts state only the bound, the ordering by count and that no higher count is left out.
- `time.sleep(1)`: it is modelled only as a count of sleeps.
- Logging, `.env` loading, the environment variables and argparse (including the default seed 274881868). The access token and API URL are parameters of `RequestVkApi`. A missing token (which requests would drop from the query) is not modelled.
- `query_all_users` and `query_all_groups`: only their lengths are used by `main`, and `Run` reports those as the sizes of the node maps.
- Default values for group records: `screen_name` and `name` are fields a VK group item always has in the model.
- Mixed user and group items in a subscriptions reply: every subscription item is treated as a user, as app.py:99 does.
- Python exceptions on malformed replies, such as a user item without `id` or a `response` of the wrong shape. The datatypes rule them out.
- Failures of the graph store, which are fatal in the program.
- VkApi.RequestVkApi: when every reply given is a rate-limit error, the model stops with `Retrying`, whereas the program keeps sleeping and retrying forever.
