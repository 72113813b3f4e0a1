/**
 * The `userstats` collection (models/UserStats.js): one record per Telegram
 * user with interaction counters, the per-record increment methods, and the
 * three report queries. Clock readings (`new Date()`, `Date.now`) are the
 * integer parameter `now`, in milliseconds.
 */
module UserStatsModel {
  import opened Wrappers
  import Sorting

  /** The `commands` sub-document: one counter per known command. */
  datatype Commands = Commands(start: int, get: int, submit: int, stats: int, upload: int)

  const KnownCommands: set<string> := {"start", "get", "submit", "stats", "upload"}

  datatype UserStats = UserStats(
    userId: int,
    username: Option<string>,
    firstName: Option<string>,
    lastName: Option<string>,
    interactions: int,
    commands: Commands,
    lastInteraction: int,
    firstInteraction: int,
    downloads: int,
    uploads: int,
    isActive: bool,
    isBlocked: bool,
    firstSeen: Option<int>,
    lastSeen: Option<int>)

  /** A record as the schema defaults create it for `userId` at time `now`. */
  function NewUserStats(userId: int, now: int): (u: UserStats)
    ensures u.userId == userId
    ensures u.interactions == 0 && u.downloads == 0 && u.uploads == 0
    ensures u.commands == Commands(0, 0, 0, 0, 0)
    ensures u.isActive && !u.isBlocked
    ensures u.lastInteraction == now && u.firstInteraction == now
    ensures u.username.None? && u.firstName.None? && u.lastName.None?
    ensures u.firstSeen.None? && u.lastSeen.None?
  {
    UserStats(userId, None, None, None, 0, Commands(0, 0, 0, 0, 0), now, now, 0, 0, true, false, None, None)
  }

  /** The total of the five command counters. */
  function CommandTotal(c: Commands): int {
    c.start + c.get + c.submit + c.stats + c.upload
  }

  /**
   * `this.commands[command] += 1` when the schema has that counter; any other
   * name leaves the counters alone.
   */
  function BumpCommand(c: Commands, name: string): (r: Commands)
    ensures name in KnownCommands ==> CommandTotal(r) == CommandTotal(c) + 1
    ensures name !in KnownCommands ==> r == c
    ensures name == "start" ==> r == c.(start := c.start + 1)
    ensures name == "get" ==> r == c.(get := c.get + 1)
    ensures name == "submit" ==> r == c.(submit := c.submit + 1)
    ensures name == "stats" ==> r == c.(stats := c.stats + 1)
    ensures name == "upload" ==> r == c.(upload := c.upload + 1)
  {
    match name
    case "start" => c.(start := c.start + 1)
    case "get" => c.(get := c.get + 1)
    case "submit" => c.(submit := c.submit + 1)
    case "stats" => c.(stats := c.stats + 1)
    case "upload" => c.(upload := c.upload + 1)
    case _ => c
  }

  /** A command counter changes exactly when the name is one of the five known commands. */
  lemma BumpCommandChangesIffKnown(c: Commands, name: string)
    ensures BumpCommand(c, name) != c <==> name in KnownCommands
  {
  }

  // ---------------------------------------------------------------------
  // Instance methods, as updates of one record

  /** `incrementInteraction()`. */
  function Interacted(u: UserStats, now: int): (r: UserStats)
    ensures r.interactions == u.interactions + 1 && r.lastInteraction == now
    ensures r.(interactions := u.interactions, lastInteraction := u.lastInteraction) == u
  {
    u.(interactions := u.interactions + 1, lastInteraction := now)
  }

  /** `incrementCommand(command)`. */
  function CommandCounted(u: UserStats, command: string, now: int): (r: UserStats)
    ensures r.interactions == u.interactions + 1 && r.lastInteraction == now
    ensures r.commands == BumpCommand(u.commands, command)
    ensures r.(interactions := u.interactions, lastInteraction := u.lastInteraction, commands := u.commands) == u
  {
    u.(commands := BumpCommand(u.commands, command), interactions := u.interactions + 1, lastInteraction := now)
  }

  /** `incrementDownloads()`. */
  function Downloaded(u: UserStats, now: int): (r: UserStats)
    ensures r.downloads == u.downloads + 1 && r.interactions == u.interactions + 1 && r.lastInteraction == now
    ensures r.(downloads := u.downloads, interactions := u.interactions, lastInteraction := u.lastInteraction) == u
  {
    u.(downloads := u.downloads + 1, interactions := u.interactions + 1, lastInteraction := now)
  }

  /** `incrementUploads()`. */
  function Uploaded(u: UserStats, now: int): (r: UserStats)
    ensures r.uploads == u.uploads + 1 && r.interactions == u.interactions + 1 && r.lastInteraction == now
    ensures r.(uploads := u.uploads, interactions := u.interactions, lastInteraction := u.lastInteraction) == u
  {
    u.(uploads := u.uploads + 1, interactions := u.interactions + 1, lastInteraction := now)
  }

  // ---------------------------------------------------------------------
  // The collection

  /** The `userId` unique index. */
  ghost predicate UniqueIds(users: seq<UserStats>) {
    forall i, j :: 0 <= i < j < |users| ==> users[i].userId != users[j].userId
  }

  /** `findOne({userId: id})`: the position of the record for `id`, if any. */
  function FindUser(users: seq<UserStats>, id: int): (r: Option<nat>)
    ensures r.Some? ==> r.value < |users| && users[r.value].userId == id
    ensures r.None? <==> forall i :: 0 <= i < |users| ==> users[i].userId != id
    ensures r.Some? ==> forall i :: 0 <= i < r.value ==> users[i].userId != id
  {
    if users == [] then None
    else if users[0].userId == id then Some(0)
    else match FindUser(users[1..], id)
      case None => None
      case Some(i) => Some(i + 1)
  }

  class UserStatsStore {
    var users: seq<UserStats>

    ghost predicate Valid()
      reads this
    {
      UniqueIds(users)
    }

    constructor ()
      ensures Valid() && users == []
    {
      users := [];
    }

    /** `incrementInteraction()` followed by `save()`, on the record at position `i`. */
    method IncrementInteraction(i: int, now: int)
      requires Valid() && 0 <= i < |users|
      modifies this
      ensures Valid()
      ensures users == old(users)[i := Interacted(old(users)[i], now)]
    {
      users := users[i := Interacted(users[i], now)];
    }

    /** `incrementCommand(command)` followed by `save()`. */
    method IncrementCommand(i: int, command: string, now: int)
      requires Valid() && 0 <= i < |users|
      modifies this
      ensures Valid()
      ensures users == old(users)[i := CommandCounted(old(users)[i], command, now)]
    {
      users := users[i := CommandCounted(users[i], command, now)];
    }

    /** `incrementDownloads()` followed by `save()`. */
    method IncrementDownloads(i: int, now: int)
      requires Valid() && 0 <= i < |users|
      modifies this
      ensures Valid()
      ensures users == old(users)[i := Downloaded(old(users)[i], now)]
    {
      users := users[i := Downloaded(users[i], now)];
    }

    /** `incrementUploads()` followed by `save()`. */
    method IncrementUploads(i: int, now: int)
      requires Valid() && 0 <= i < |users|
      modifies this
      ensures Valid()
      ensures users == old(users)[i := Uploaded(old(users)[i], now)]
    {
      users := users[i := Uploaded(users[i], now)];
    }
  }

  // ---------------------------------------------------------------------
  // Static queries

  function Interactions(u: UserStats): int { u.interactions }
  function Downloads(u: UserStats): int { u.downloads }
  function Uploads(u: UserStats): int { u.uploads }
  function LastInteraction(u: UserStats): int { u.lastInteraction }
  function One(u: UserStats): int { 1 }

  /** `find({isActive: true})`: the active records, each as often as it is stored (see `ActiveOnlyCounts`), in natural order (see `ActiveOnlyAppend`). */
  function ActiveOnly(users: seq<UserStats>): (r: seq<UserStats>)
    ensures forall x :: x in r <==> x in users && x.isActive
  {
    if users == [] then []
    else
      assert users == [users[0]] + users[1..];
      (if users[0].isActive then [users[0]] else []) + ActiveOnly(users[1..])
  }

  /** The scan is in natural order: the active records of a concatenation are those of each part, in turn. */
  lemma {:induction false} ActiveOnlyAppend(a: seq<UserStats>, b: seq<UserStats>)
    ensures ActiveOnly(a + b) == ActiveOnly(a) + ActiveOnly(b)
  {
    if a == [] {
      assert a + b == b;
    } else {
      assert (a + b)[0] == a[0];
      assert (a + b)[1..] == a[1..] + b;
      ActiveOnlyAppend(a[1..], b);
    }
  }

  /** Each active record is returned as often as it is stored, and no other record at all. */
  lemma {:induction false} ActiveOnlyCounts(users: seq<UserStats>)
    ensures forall x :: multiset(ActiveOnly(users))[x] == if x.isActive then multiset(users)[x] else 0
  {
    if users != [] {
      assert users == [users[0]] + users[1..];
      ActiveOnlyCounts(users[1..]);
    }
  }

  const DefaultTopLimit := 10

  /**
   * `getTopUsers(limit)`: active users by `interactions`, highest first, cut
   * by `limit(limit)` (zero means every user).
   */
  function TopUsers(users: seq<UserStats>, limit: int): (r: seq<UserStats>)
    ensures var n, m := |ActiveOnly(users)|, (if limit < 0 then -limit else limit);
            |r| == if limit == 0 || n <= m then n else m
    ensures forall i :: 0 <= i < |r| ==> r[i] in users && r[i].isActive
    ensures multiset(r) <= multiset(ActiveOnly(users))
    ensures Sorting.SortedDesc(r, Interactions)
  {
    var active := ActiveOnly(users);
    var ranked := Sorting.SortDesc(active, Interactions);
    Sorting.LimitOfSorted(ranked, Interactions, limit);
    Sorting.Limit(ranked, limit)
  }

  /**
   * Nobody left out of the top list outranks anybody in it: an active user
   * who is not returned has at most the interactions of every returned user.
   */
  lemma TopUsersAreTop(users: seq<UserStats>, limit: int, x: UserStats, y: UserStats)
    requires x in TopUsers(users, limit)
    requires y in users && y.isActive && y !in TopUsers(users, limit)
    ensures x.interactions >= y.interactions
  {
    var ranked := Sorting.SortDesc(ActiveOnly(users), Interactions);
    assert TopUsers(users, limit) == Sorting.Limit(ranked, limit);
    assert y in multiset(ranked);
    Sorting.LimitDominates(ranked, Interactions, limit, x, y);
  }


  /** The one document `getTotalStats` returns (`_id: null`), without the average. */
  datatype Totals = Totals(totalUsers: int, totalInteractions: int, totalDownloads: int, totalUploads: int)

  /**
   * `getTotalStats()`: a single group over the active users, or no document
   * at all when there is none.
   */
  function TotalStats(users: seq<UserStats>): (r: seq<Totals>)
    ensures r == [] <==> forall i :: 0 <= i < |users| ==> !users[i].isActive
    ensures r != [] ==> |r| == 1 && r[0].totalUsers == |ActiveOnly(users)| > 0
    ensures r != [] ==> r[0].totalInteractions == Sorting.SumBy(ActiveOnly(users), Interactions)
    ensures r != [] ==> r[0].totalDownloads == Sorting.SumBy(ActiveOnly(users), Downloads)
    ensures r != [] ==> r[0].totalUploads == Sorting.SumBy(ActiveOnly(users), Uploads)
  {
    var active := ActiveOnly(users);
    if active == [] then []
    else [Totals(|active|, Sorting.SumBy(active, Interactions), Sorting.SumBy(active, Downloads),
                 Sorting.SumBy(active, Uploads))]
  }

  /** One `incrementInteraction` on an active user raises the reported total by exactly one. */
  lemma {:induction false} InteractionRaisesTotal(users: seq<UserStats>, i: int, now: int)
    requires 0 <= i < |users| && users[i].isActive
    ensures TotalStats(users) != [] && TotalStats(users[i := Interacted(users[i], now)]) != []
    ensures TotalStats(users[i := Interacted(users[i], now)])[0]
         == TotalStats(users)[0].(totalInteractions := TotalStats(users)[0].totalInteractions + 1)
  {
    var y := Interacted(users[i], now);
    var a := ActiveOnly(users);
    var k := ActivePos(users, i);
    ActiveOnlyUpdate(users, i, y);
    SumsAfterInteraction(a, k, now);
  }

  /** Replacing one record by its `Interacted` version adds one to the interactions and keeps the other sums. */
  lemma SumsAfterInteraction(a: seq<UserStats>, k: int, now: int)
    requires 0 <= k < |a|
    ensures var b := a[k := Interacted(a[k], now)];
            && Sorting.SumBy(b, Interactions) == Sorting.SumBy(a, Interactions) + 1
            && Sorting.SumBy(b, Downloads) == Sorting.SumBy(a, Downloads)
            && Sorting.SumBy(b, Uploads) == Sorting.SumBy(a, Uploads)
  {
    var y := Interacted(a[k], now);
    Sorting.SumByUpdate(a, k, y, Interactions);
    Sorting.SumByUpdate(a, k, y, Downloads);
    Sorting.SumByUpdate(a, k, y, Uploads);
  }

  /** Where the active record at position `i` of `users` sits in `ActiveOnly(users)`. */
  function ActivePos(users: seq<UserStats>, i: int): (k: nat)
    requires 0 <= i < |users| && users[i].isActive
    ensures k < |ActiveOnly(users)| && ActiveOnly(users)[k] == users[i]
  {
    if i == 0 then 0
    else
      var head := if users[0].isActive then [users[0]] else [];
      assert ActiveOnly(users) == head + ActiveOnly(users[1..]);
      var k := |head| + ActivePos(users[1..], i - 1);
      assert ActiveOnly(users)[k] == ActiveOnly(users[1..])[k - |head|];
      k
  }

  /** Updating an active record that stays active updates it in place in the active list. */
  lemma {:induction false} ActiveOnlyUpdate(users: seq<UserStats>, i: int, x: UserStats)
    requires 0 <= i < |users| && users[i].isActive && x.isActive
    ensures ActiveOnly(users[i := x]) == ActiveOnly(users)[ActivePos(users, i) := x]
  {
    var u := users[i := x];
    var head := if users[0].isActive then [users[0]] else [];
    assert ActiveOnly(users) == head + ActiveOnly(users[1..]);
    if i == 0 {
      assert u[1..] == users[1..];
      assert ActiveOnly(u) == [x] + ActiveOnly(users[1..]);
    } else {
      assert u[1..] == users[1..][i - 1 := x];
      ActiveOnlyUpdate(users[1..], i - 1, x);
      var rest := ActiveOnly(users[1..]);
      assert ActiveOnly(u) == head + rest[ActivePos(users[1..], i - 1) := x];
      Sorting.ConcatUpdate(head, rest, ActivePos(users[1..], i - 1), x);
    }
  }

  const DefaultActiveDays := 7
  const DayMs := 86400000

  /** `find({isActive: true, lastInteraction: {$gte: cutoff}})`: each match as often as it is stored (see `SeenSinceCounts`), in natural order (see `SeenSinceAppend`). */
  function SeenSince(users: seq<UserStats>, cutoff: int): (r: seq<UserStats>)
    ensures forall x :: x in r <==> x in users && x.isActive && x.lastInteraction >= cutoff
  {
    if users == [] then []
    else
      assert users == [users[0]] + users[1..];
      (if users[0].isActive && users[0].lastInteraction >= cutoff then [users[0]] else []) + SeenSince(users[1..], cutoff)
  }

  /**
   * `getActiveUsers(days)`: the active users seen at or after `days` days
   * before `now`, most recent first.
   */
  function ActiveUsers(users: seq<UserStats>, days: int, now: int): (r: seq<UserStats>)
    ensures forall x :: x in r <==> x in users && x.isActive && x.lastInteraction >= now - days * DayMs
    ensures Sorting.SortedDesc(r, LastInteraction)
    ensures multiset(r) == multiset(SeenSince(users, now - days * DayMs))
  {
    var recent := SeenSince(users, now - days * DayMs);
    var r := Sorting.SortDesc(recent, LastInteraction);
    assert forall x :: x in r <==> x in multiset(r);
    assert forall x :: x in recent <==> x in multiset(recent);
    r
  }

  /** The scan is in natural order: the recent active records of a concatenation are those of each part, in turn. */
  lemma {:induction false} SeenSinceAppend(a: seq<UserStats>, b: seq<UserStats>, cutoff: int)
    ensures SeenSince(a + b, cutoff) == SeenSince(a, cutoff) + SeenSince(b, cutoff)
  {
    if a == [] {
      assert a + b == b;
    } else {
      assert (a + b)[0] == a[0];
      assert (a + b)[1..] == a[1..] + b;
      SeenSinceAppend(a[1..], b, cutoff);
    }
  }

  /** Each active record seen since `cutoff` is returned as often as it is stored, and no other record at all. */
  lemma {:induction false} SeenSinceCounts(users: seq<UserStats>, cutoff: int)
    ensures forall x :: multiset(SeenSince(users, cutoff))[x]
                        == if x.isActive && x.lastInteraction >= cutoff then multiset(users)[x] else 0
  {
    if users != [] {
      assert users == [users[0]] + users[1..];
      SeenSinceCounts(users[1..], cutoff);
    }
  }
}
