/**
 * The `trackUserStats` middleware (middlewares/statsTracking.js): for every
 * update with a sender, one upsert keyed by the sender's id that counts the
 * interaction, writes the names and `firstSeen` only when it inserts, and
 * stamps `lastSeen`; then the next handler runs, whatever the store did.
 */
module StatsTracking {
  import opened Wrappers
  import opened UserStatsModel
  import Sorting

  /** The fields of `ctx.from` the middleware reads. */
  datatype Sender = Sender(id: int, username: Option<string>, firstName: Option<string>, lastName: Option<string>)

  /** The document the upsert inserts for an unseen sender: schema defaults, then `$inc`, `$setOnInsert` and `$set`. */
  function Inserted(s: Sender, now: int): (u: UserStats)
    ensures u.userId == s.id && u.interactions == 1
    ensures u.username == s.username && u.firstName == s.firstName && u.lastName == s.lastName
    ensures u.firstSeen == Some(now) && u.lastSeen == Some(now)
    ensures u.(interactions := 0, username := None, firstName := None, lastName := None,
               firstSeen := None, lastSeen := None) == NewUserStats(s.id, now)
  {
    NewUserStats(s.id, now).(interactions := 1, username := s.username, firstName := s.firstName,
                             lastName := s.lastName, firstSeen := Some(now), lastSeen := Some(now))
  }

  /** The effect of the upsert `{userId: id}` on an existing document: `$inc` and `$set` only. */
  function Touched(u: UserStats, now: int): (r: UserStats)
    ensures r.interactions == u.interactions + 1 && r.lastSeen == Some(now)
    ensures r.(interactions := u.interactions, lastSeen := u.lastSeen) == u
  {
    u.(interactions := u.interactions + 1, lastSeen := Some(now))
  }

  /** The collection after one `findOneAndUpdate(..., {upsert: true})` for sender `s`. */
  function Tracked(users: seq<UserStats>, s: Sender, now: int): seq<UserStats> {
    match FindUser(users, s.id)
    case Some(i) => users[i := Touched(users[i], now)]
    case None => users + [Inserted(s, now)]
  }

  /**
   * The sender's interactions rise by exactly one (from nothing to one for
   * an unseen sender), and `lastSeen` is this event's time.
   */
  lemma TrackedCountsSender(users: seq<UserStats>, s: Sender, now: int)
    ensures FindUser(Tracked(users, s, now), s.id).Some?
    ensures var after := Tracked(users, s, now)[FindUser(Tracked(users, s, now), s.id).value];
            after.lastSeen == Some(now)
            && after.interactions == match FindUser(users, s.id)
                                     case Some(i) => users[i].interactions + 1
                                     case None => 1
  {
    var t := Tracked(users, s, now);
    match FindUser(users, s.id)
    case Some(i) =>
      assert FindUser(t, s.id) == Some(i) by {
        FindUserAfterUpdate(users, i, Touched(users[i], now));
      }
    case None =>
      assert t[|users|].userId == s.id;
      assert FindUser(t, s.id) == Some(|users|);
  }

  /** The first position of `id` does not move when that record is replaced by one with the same id. */
  lemma FindUserAfterUpdate(users: seq<UserStats>, i: nat, x: UserStats)
    requires FindUser(users, x.userId) == Some(i)
    ensures FindUser(users[i := x], x.userId) == Some(i)
  {
    var u := users[i := x];
    assert u[i].userId == x.userId;
    var r := FindUser(u, x.userId);
    assert r.Some?;
  }

  /** An existing sender keeps the names and `firstSeen` stored at insertion time. */
  lemma TrackedKeepsInsertOnlyFields(users: seq<UserStats>, s: Sender, now: int, i: nat)
    requires FindUser(users, s.id) == Some(i)
    ensures var after := Tracked(users, s, now)[i];
            after.username == users[i].username && after.firstName == users[i].firstName
            && after.lastName == users[i].lastName && after.firstSeen == users[i].firstSeen
  {
  }

  /**
   * Only the sender's record is touched: every other record is where it was,
   * unchanged, and at most one record is added.
   */
  lemma TrackedOnlyTouchesSender(users: seq<UserStats>, s: Sender, now: int)
    ensures |Tracked(users, s, now)| == |users| + (if FindUser(users, s.id).Some? then 0 else 1)
    ensures forall j :: 0 <= j < |users| && users[j].userId != s.id ==> Tracked(users, s, now)[j] == users[j]
    ensures forall j :: 0 <= j < |users| ==> Tracked(users, s, now)[j].userId == users[j].userId
  {
  }

  /** The upsert keeps `userId` unique. */
  lemma TrackedKeepsIdsUnique(users: seq<UserStats>, s: Sender, now: int)
    requires UniqueIds(users)
    ensures UniqueIds(Tracked(users, s, now))
  {
    TrackedOnlyTouchesSender(users, s, now);
  }

  /** Across the whole collection, one tracked event adds exactly one interaction. */
  lemma TrackedAddsOneInteraction(users: seq<UserStats>, s: Sender, now: int)
    ensures Sorting.SumBy(Tracked(users, s, now), Interactions) == Sorting.SumBy(users, Interactions) + 1
  {
    match FindUser(users, s.id)
    case Some(i) =>
      Sorting.SumByUpdate(users, i, Touched(users[i], now), Interactions);
    case None =>
      Sorting.SumByAppend(users, [Inserted(s, now)], Interactions);
      assert [Inserted(s, now)][1..] == [];
  }

  /**
   * `trackUserStats(ctx, next)`: the store is upserted when the update has a
   * sender and the store accepts the write (`storeUp`); a failed write is
   * logged and swallowed. `next()` is called exactly once in every case.
   */
  method TrackUserStats(store: UserStatsStore, from: Option<Sender>, now: int, storeUp: bool) returns (nextCalls: nat)
    requires store.Valid()
    modifies store
    ensures store.Valid()
    ensures nextCalls == 1
    ensures store.users == if from.Some? && storeUp then Tracked(old(store.users), from.value, now) else old(store.users)
  {
    if from.Some? && storeUp {
      TrackedKeepsIdsUnique(store.users, from.value, now);
      store.users := Tracked(store.users, from.value, now);
    }
    nextCalls := 1;
  }
}
