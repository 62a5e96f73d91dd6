/**
 * The analytical queries run after the crawl, as functions of the store.
 * A pattern `(n:User)-[r:Follow]->(m:User)` matches only relationships whose
 * both ends are nodes of the store with those labels.
 */
module Queries {
  import opened VkApi
  import opened GraphStore

  /** A row of a top-5 query: the node's id and name and its edge count. */
  datatype RankRow = RankRow(id: int, name: string, count: nat)

  /** A row of the mutual-followers query. */
  datatype MutualRow = MutualRow(user1Id: UserId, user1Name: string, user2Id: UserId, user2Name: string)

  /** The users with a Follow relationship to `m`. */
  function Followers(s: Snapshot, m: UserId): set<UserId> {
    set n | n in s.users.Keys && (n, m) in s.follows
  }

  /** The users with at least one follower. */
  function Followed(s: Snapshot): set<UserId> {
    set m | m in s.users.Keys && |Followers(s, m)| > 0
  }

  /** The users with a Subscribe relationship to group `g`. */
  function Subscribers(s: Snapshot, g: GroupId): set<UserId> {
    set n | n in s.users.Keys && Subscribe(n, GroupNode(g)) in s.subscribes
  }

  /** The groups with at least one subscriber. */
  function Subscribed(s: Snapshot): set<GroupId> {
    set g | g in s.groups.Keys && |Subscribers(s, g)| > 0
  }

  /** The follower count of every user that has followers. */
  function FollowerCounts(s: Snapshot): (counts: map<UserId, nat>)
    ensures counts.Keys == Followed(s)
    ensures forall m :: m in counts ==> counts[m] == |Followers(s, m)| && counts[m] >= 1
  {
    map m | m in Followed(s) :: |Followers(s, m)|
  }

  /** The subscriber count of every group that has subscribers. */
  function SubscriberCounts(s: Snapshot): (counts: map<GroupId, nat>)
    ensures counts.Keys == Subscribed(s)
    ensures forall g :: g in counts ==> counts[g] == |Subscribers(s, g)| && counts[g] >= 1
  {
    map g | g in Subscribed(s) :: |Subscribers(s, g)|
  }

  /** `a` comes before `b`: a higher score, or the same score and the smaller id. */
  predicate RanksBefore(scores: map<int, nat>, a: int, b: int)
    requires a in scores && b in scores
  {
    scores[a] > scores[b] || (scores[a] == scores[b] && a < b)
  }

  /** Some key of a non-empty map. */
  lemma PickOne(scores: map<int, nat>) returns (x: int)
    requires scores != map[]
    ensures x in scores
  {
    if forall y :: y !in scores {
      assert false;
    }
    x :| x in scores;
  }

  lemma {:induction false} BestExists(scores: map<int, nat>)
    requires scores != map[]
    ensures exists b :: b in scores && forall c :: c in scores && c != b ==> RanksBefore(scores, b, c)
    decreases |scores|
  {
    var x := PickOne(scores);
    var rest := scores - {x};
    assert forall y :: y in scores && y != x ==> y in rest;
    if rest != map[] {
      BestExists(rest);
      var b :| b in rest && forall c :: c in rest && c != b ==> RanksBefore(rest, b, c);
      if RanksBefore(scores, x, b) {
        forall c | c in scores && c != x ensures RanksBefore(scores, x, c) {
          if c != b { assert RanksBefore(rest, b, c); }
        }
      } else {
        forall c | c in scores && c != b ensures RanksBefore(scores, b, c) {
          if c != x { assert RanksBefore(rest, b, c); }
        }
      }
    } else {
      assert scores.Keys == {x};
    }
  }

  /** The key that comes before every other one. */
  function Best(scores: map<int, nat>): (b: int)
    requires scores != map[]
    ensures b in scores
    ensures forall c :: c in scores && c != b ==> RanksBefore(scores, b, c)
  {
    BestExists(scores);
    var b :| b in scores && forall c :: c in scores && c != b ==> RanksBefore(scores, b, c);
    b
  }

  /**
   * `ORDER BY score DESC LIMIT k` over the keys of `scores`: as many keys
   * as fit, each once, scores non-increasing, and no key left out scores
   * higher than one taken. Equal scores are ordered by id.
   */
  function TopK(scores: map<int, nat>, k: nat): (r: seq<int>)
    ensures |r| == (if |scores| < k then |scores| else k)
    ensures forall i :: 0 <= i < |r| ==> r[i] in scores
    ensures forall i, j :: 0 <= i < j < |r| ==> r[i] != r[j] && scores[r[j]] <= scores[r[i]]
    ensures forall c, i :: c in scores && c !in r && 0 <= i < |r| ==> scores[c] <= scores[r[i]]
    decreases k
  {
    if k == 0 || scores == map[] then []
    else
      var b := Best(scores);
      var rest := scores - {b};
      assert forall c :: c in rest ==> rest[c] == scores[c];
      [b] + TopK(rest, k - 1)
  }

  /**
   * `rows` is a top-`k` ranking by `counts`: as many rows as fit, each key
   * once with its count, counts non-increasing, and no key left out counts
   * more than a key listed.
   */
  predicate IsRanking(rows: seq<RankRow>, counts: map<int, nat>, k: nat) {
    && |rows| == (if |counts| < k then |counts| else k)
    && (forall i :: 0 <= i < |rows| ==> rows[i].id in counts && rows[i].count == counts[rows[i].id])
    && (forall i, j :: 0 <= i < j < |rows| ==> rows[i].id != rows[j].id && rows[j].count <= rows[i].count)
    && (forall c, i :: c in counts && 0 <= i < |rows| && (forall j :: 0 <= j < |rows| ==> rows[j].id != c) ==>
          counts[c] <= rows[i].count)
  }

  /** Rows that list the keys chosen by `TopK`, each with its count, form a ranking. */
  lemma RowsOfTopK(counts: map<int, nat>, k: nat, rows: seq<RankRow>)
    requires |rows| == |TopK(counts, k)|
    requires forall i :: 0 <= i < |rows| ==> rows[i].id == TopK(counts, k)[i] && rows[i].count == counts[rows[i].id]
    ensures IsRanking(rows, counts, k)
  {
    var ids := TopK(counts, k);
    forall c, i | c in counts && 0 <= i < |rows| && (forall j :: 0 <= j < |rows| ==> rows[j].id != c)
      ensures counts[c] <= rows[i].count
    {
      assert c !in ids by {
        forall j | 0 <= j < |ids| ensures ids[j] != c { assert rows[j].id == ids[j]; }
      }
    }
  }

  /** The rows for `ids`, with each user's name and follower count. */
  function FollowerRows(s: Snapshot, ids: seq<UserId>): (rows: seq<RankRow>)
    requires forall i :: 0 <= i < |ids| ==> ids[i] in s.users
    ensures |rows| == |ids|
    ensures forall i :: 0 <= i < |ids| ==>
      rows[i] == RankRow(ids[i], s.users[ids[i]].name, |Followers(s, ids[i])|)
  {
    if ids == [] then [] else [RankRow(ids[0], s.users[ids[0]].name, |Followers(s, ids[0])|)] + FollowerRows(s, ids[1..])
  }

  /** The rows for `ids`, with each group's name and subscriber count. */
  function SubscriberRows(s: Snapshot, ids: seq<GroupId>): (rows: seq<RankRow>)
    requires forall i :: 0 <= i < |ids| ==> ids[i] in s.groups
    ensures |rows| == |ids|
    ensures forall i :: 0 <= i < |ids| ==>
      rows[i] == RankRow(ids[i], s.groups[ids[i]].name, |Subscribers(s, ids[i])|)
  {
    if ids == [] then [] else [RankRow(ids[0], s.groups[ids[0]].name, |Subscribers(s, ids[0])|)] + SubscriberRows(s, ids[1..])
  }

  /**
   * `query_top_5_followers`: a top-5 ranking of the followed users by
   * follower count, each row with the user's name.
   */
  function TopFollowed(s: Snapshot): (rows: seq<RankRow>)
    ensures IsRanking(rows, FollowerCounts(s), 5)
    ensures forall i :: 0 <= i < |rows| ==> rows[i].id in s.users && rows[i].name == s.users[rows[i].id].name
  {
    var counts := FollowerCounts(s);
    var ids := TopK(counts, 5);
    var rows := FollowerRows(s, ids);
    RowsOfTopK(counts, 5, rows);
    rows
  }

  /**
   * `query_top_5_popular_groups`: a top-5 ranking of the subscribed groups
   * by subscriber count, each row with the group's name.
   */
  function TopGroups(s: Snapshot): (rows: seq<RankRow>)
    ensures IsRanking(rows, SubscriberCounts(s), 5)
    ensures forall i :: 0 <= i < |rows| ==> rows[i].id in s.groups && rows[i].name == s.groups[rows[i].id].name
  {
    var counts := SubscriberCounts(s);
    var ids := TopK(counts, 5);
    var rows := SubscriberRows(s, ids);
    RowsOfTopK(counts, 5, rows);
    rows
  }

  /**
   * `query_mutual_followers`: a row (a, b) for each two users that follow
   * each other; the result is symmetric. A user following itself is not
   * a row, as one relationship cannot fill both parts of the pattern.
   */
  function MutualFollowers(s: Snapshot): (r: set<MutualRow>)
    ensures forall row :: row in r ==>
      && (row.user1Id, row.user2Id) in s.follows && (row.user2Id, row.user1Id) in s.follows
      && row.user1Id != row.user2Id
      && row.user1Id in s.users && row.user1Name == s.users[row.user1Id].name
      && row.user2Id in s.users && row.user2Name == s.users[row.user2Id].name
    ensures forall row :: row in r ==> MutualRow(row.user2Id, row.user2Name, row.user1Id, row.user1Name) in r
    ensures forall a, b :: (a, b) in s.follows && (b, a) in s.follows && a != b && a in s.users && b in s.users ==>
      MutualRow(a, s.users[a].name, b, s.users[b].name) in r
  {
    set e | e in s.follows && e.0 in s.users && e.1 in s.users && e.0 != e.1 && (e.1, e.0) in s.follows
      :: MutualRow(e.0, s.users[e.0].name, e.1, s.users[e.1].name)
  }
}
