/** Log-outs whose statements interleave with other requests: between marking a row and
    deleting its copy, lookups that try the copy first still accept the session. */
module SessionLogouts {
  import opened Clock
  import opened Wrappers
  import opened Text
  import opened Sessions

  /** Some log-out is going to delete the copy, or failed to, or could not name it. */
  predicate Accounted(s: State, id: string)
  {
    id in s.log.dropped || id in s.log.missed || exists k :: k in s.outs && Owes(s.store, s.outs[k], id)
  }

  /** An active copy of a session that was logged out while it had one. */
  predicate Stale(s: State, id: string)
  {
    CachedActive(s.store, id, s.now) && id in s.log.stale
  }

  predicate OwedOk(s: State)
  {
    forall id :: id in s.store.cache && Stale(s, id) ==> Accounted(s, id)
  }

  /** The row keeps its user, a copy keeps its index pair unless that is noted as lost,
      and the books only grow. */
  predicate Kept(s: State, u: State, id: string)
  {
    && s.log.dropped <= u.log.dropped && s.log.missed <= u.log.missed
    && (id in s.store.rows ==>
          && id in u.store.rows && u.store.rows[id].userId == s.store.rows[id].userId
          && (id in u.store.cache && id in s.log.stale && (s.store.rows[id].userId, id) in s.store.index ==>
                (s.store.rows[id].userId, id) in u.store.index || id in u.log.missed))
  }

  lemma OwesStays(s: State, u: State, out: Out, id: string)
    requires Kept(s, u, id) && id in u.store.cache && id in s.log.stale && Owes(s.store, out, id)
    ensures Owes(u.store, out, id) || id in u.log.missed
  {
  }

  lemma DeleteIsKept(s: State, ids: set<string>, id: string)
    ensures Kept(s, s.(store := Deleted(s.store, ids)), id)
  {
  }

  lemma UserLogoutIsKept(s: State, userId: int, id: string)
    ensures Kept(s, AfterUserLogout(s, userId), id)
  {
    hide Trim, Stored, ActiveIds, IndexedIds, TrimmedIds;
  }

  lemma LogoutIsKept(s: State, gone: string, id: string)
    ensures Kept(s, AfterLogout(s, gone), id)
  {
    hide Stored;
  }

  lemma EvictIsKept(s: State, ids: set<string>, pairs: set<(int, string)>, id: string)
    ensures Kept(s, AfterEvict(s, ids, pairs), id)
  {
    var u := AfterEvict(s, ids, pairs);
    if id in s.store.rows && (s.store.rows[id].userId, id) in pairs && id in s.log.stale {
      assert (s.store.rows[id].userId, id).1 in u.log.missed;
    }
  }

  lemma MarkUserIsKept(s: State, k: nat, userId: int, names: set<string>, id: string)
    ensures Kept(s, AfterMarkUser(s, k, userId, names), id)
  {
    hide Stored;
  }

  lemma StepIsKept(s: State, a: Action, id: string)
    ensures Kept(s, Apply(s, a), id)
  {
    hide Trim, Stored, WholeSecond, ActiveIds, IndexedIds, TrimmedIds, AfterLogout, AfterUserLogout, AfterMarkUser;
    hide AfterEvict, Deleted, Kept;
    var u := Apply(s, a);
    match a
    case Logout(sessionId) => LogoutIsKept(s, Trim(sessionId), id);
    case LogoutAll(sessionId) =>
      SameIsKept(s, s, id);
      DeleteIsKept(s, {Trim(sessionId)}, id);
      if Trim(sessionId) in s.store.rows {
        UserLogoutIsKept(s, s.store.rows[Trim(sessionId)].userId, id);
      }
    case AdminLogout(userId) =>
      SameIsKept(s, s, id);
      UserLogoutIsKept(s, userId, id);
    case MarkUser(k) =>
      SameIsKept(s, s, id);
      if k in s.outs && s.outs[k].Listed? {
        MarkUserIsKept(s, k, s.outs[k].userId, s.outs[k].names, id);
      }
    case Clear(_, gone) =>
      SameIsKept(s, s, id);
      DeleteIsKept(s, {gone}, id);
      if a.k in s.outs && s.outs[a.k].Clearing? {
        KeptByOuts(s, s.(store := Deleted(s.store, {gone})), u, id);
      }
    case Evict(ids, pairs) => EvictIsKept(s, ids, pairs, id);
    case _ => OtherIsKept(s, a, id);
  }

  lemma SameIsKept(s: State, u: State, id: string)
    requires u.store == s.store && u.log == s.log
    ensures Kept(s, u, id)
  {
  }

  lemma KeptByOuts(s: State, t: State, u: State, id: string)
    requires Kept(s, t, id) && u.store == t.store && u.log == t.log
    ensures Kept(s, u, id)
  {
  }

  lemma OtherIsKept(s: State, a: Action, id: string)
    requires a.Tick? || a.Insert? || a.Save? || a.Abandon? || a.MarkOne? || a.ListActive? || a.ListIndexed? || a.Drop?
    ensures Kept(s, Apply(s, a), id)
  {
    hide Trim, Stored, WholeSecond, ActiveIds, IndexedIds, TrimmedIds, Owes;
  }

  /** A log-out that owed the copy owes it still, or has left it. */
  lemma OutStays(s: State, a: Action, k: nat, id: string)
    requires Inv(s) && k in s.outs && Owes(s.store, s.outs[k], id) && id in s.log.stale && id in Apply(s, a).store.cache
    ensures var u := Apply(s, a);
            (k in u.outs && Owes(u.store, u.outs[k], id)) || id in u.log.dropped || id in u.log.missed
  {
    hide Inv, Kept, Owes, Trim, Stored, WholeSecond, ActiveIds, AfterLogout, AfterUserLogout, AfterEvict, TrimmedIds;
    hide IndexedIds;
    StepIsKept(s, a, id);
    var u := Apply(s, a);
    OwesStays(s, u, s.outs[k], id);
    if !(k in u.outs && u.outs[k] == s.outs[k]) {
      OwnOutStays(s, a, id);
    }
  }

  lemma OwnOutStays(s: State, a: Action, id: string)
    requires Inv(s) && (a.MarkUser? || a.ListIndexed? || a.Clear? || a.Drop?) && a.k in s.outs
    requires Owes(s.store, s.outs[a.k], id) && id in s.log.stale && id in Apply(s, a).store.cache
    ensures var u := Apply(s, a); (a.k in u.outs && Owes(u.store, u.outs[a.k], id)) || id in u.log.dropped
  {
    hide Trim, Stored, AfterMarkUser;
    if a.ListIndexed? && s.outs[a.k].Marked? {
      assert Trim(id) == id;
      assert id in s.outs[a.k].names + IndexedIds(s.store, s.outs[a.k].userId) by {
        if id !in s.outs[a.k].names {
          assert (s.outs[a.k].userId, id) in s.store.index;
        }
      }
    }
  }

  /** A copy that is stale after a step was stale before, or is marked right now. */
  lemma StaleComesFrom(s: State, a: Action, id: string)
    requires Inv(s) && Stale(Apply(s, a), id)
    ensures Stale(s, id) || (CachedActive(s.store, id, s.now) && id !in s.log.stale && (a.MarkOne? || a.MarkUser?))
  {
    hide Inv, Trim, Stored, WholeSecond, Noted, AfterLogout, AfterUserLogout, AfterMarkOne, AfterMarkUser, AfterEvict;
    hide ActiveIds, IndexedIds, TrimmedIds, Owes;
    match a
    case Save(saved) => PendingIsNotStale(s);
    case Logout(sessionId) => LogoutAddsNone(s, Trim(sessionId), id);
    case LogoutAll(sessionId) =>
      if Trim(sessionId) != "" && Trim(sessionId) in s.store.rows {
        UserLogoutAddsNone(s, s.store.rows[Trim(sessionId)].userId, id);
      }
    case AdminLogout(userId) =>
      if userId > 0 {
        UserLogoutAddsNone(s, userId, id);
      }
    case MarkOne(k, sessionId) =>
      if k !in s.outs && Trim(sessionId) != "" {
        MarkOneAdds(s, k, Trim(sessionId), id);
      }
    case MarkUser(k) =>
      if k in s.outs && s.outs[k].Listed? {
        MarkUserAdds(s, k, s.outs[k].userId, s.outs[k].names, id);
      }
    case Evict(ids, pairs) => EvictAddsNone(s, ids, pairs, id);
    case _ =>
  }

  lemma PendingIsNotStale(s: State)
    requires Inv(s)
    ensures forall id :: id in s.pending ==> id !in s.log.stale
  {
    hide RowFor, Trim;
  }

  lemma LogoutAddsNone(s: State, gone: string, id: string)
    requires Stale(AfterLogout(s, gone), id)
    ensures Stale(s, id)
  {
    hide Stored;
  }

  /** The copies of sessions it marks are all deleted. */
  lemma UserLogoutAddsNone(s: State, userId: int, id: string)
    requires Inv(s) && Stale(AfterUserLogout(s, userId), id)
    ensures Stale(s, id)
  {
    hide Inv, Trim, Stored, ActiveIds, IndexedIds, TrimmedIds;
    if id !in s.log.stale {
      CopyFor(s, id);
      ActiveCopyIsNamed(s, id, userId);
    }
  }

  lemma MarkOneAdds(s: State, k: nat, marked: string, id: string)
    requires Stale(AfterMarkOne(s, k, marked), id)
    ensures CachedActive(s.store, id, s.now) && (id in s.log.stale || id == marked)
  {
    hide Stored;
  }

  lemma MarkUserAdds(s: State, k: nat, userId: int, names: set<string>, id: string)
    requires Stale(AfterMarkUser(s, k, userId, names), id)
    ensures CachedActive(s.store, id, s.now)
    ensures id in s.log.stale || (id in s.store.rows && s.store.rows[id].userId == userId)
  {
    hide Stored;
  }

  lemma EvictAddsNone(s: State, ids: set<string>, pairs: set<(int, string)>, id: string)
    requires Stale(AfterEvict(s, ids, pairs), id)
    ensures Stale(s, id)
  {
  }

  /** A copy that a log-out marks is owed by it, or noted as one it cannot name. */
  lemma NewlyOwed(s: State, a: Action, id: string)
    requires Inv(s) && Stale(Apply(s, a), id) && id !in s.log.stale && (a.MarkOne? || a.MarkUser?)
    ensures Accounted(Apply(s, a), id)
  {
    hide Inv, Trim, Stored, Noted;
    var u := Apply(s, a);
    if a.MarkOne? {
      if a.k !in s.outs && Trim(a.sessionId) != "" {
        MarkOneAdds(s, a.k, Trim(a.sessionId), id);
        assert Owes(u.store, u.outs[a.k], id);
      }
    } else if a.k in s.outs && s.outs[a.k].Listed? {
      MarkUserAdds(s, a.k, s.outs[a.k].userId, s.outs[a.k].names, id);
      assert id in u.log.missed || Owes(u.store, u.outs[a.k], id);
    }
  }

  lemma StepKeepsOwed(s: State, a: Action)
    requires Inv(s) && OwedOk(s)
    ensures OwedOk(Apply(s, a))
  {
    hide Inv, Apply, Owes, Stale;
    var u := Apply(s, a);
    forall id | id in u.store.cache && Stale(u, id)
      ensures Accounted(u, id)
    {
      StaleComesFrom(s, a, id);
      if Stale(s, id) {
        StaleStays(s, a, id);
      } else {
        NewlyOwed(s, a, id);
      }
    }
  }

  lemma StaleStays(s: State, a: Action, id: string)
    requires Inv(s) && OwedOk(s) && Stale(s, id) && id in Apply(s, a).store.cache
    ensures Accounted(Apply(s, a), id)
  {
    hide Inv, Apply, Owes;
    assert Accounted(s, id);
    StepIsKept(s, a, id);
    if id !in s.log.dropped && id !in s.log.missed {
      var k :| k in s.outs && Owes(s.store, s.outs[k], id);
      OutStays(s, a, k, id);
    }
  }

  lemma {:induction false} RunKeepsOwed(now: Instant, actions: seq<Action>)
    ensures Inv(Run(Init(now), actions)) && OwedOk(Run(Init(now), actions))
  {
    RunKeeps(Init(now), actions);
    if actions != [] {
      hide Inv, OwedOk, Apply;
      RunKeepsOwed(now, actions[..|actions| - 1]);
      StepKeepsOwed(Run(Init(now), actions[..|actions| - 1]), actions[|actions| - 1]);
    }
  }

  /** In every run, whenever lookups that try the copy first accept a session the database
      has logged out, its login was still under way when that happened, or a log-out is
      still going to delete the copy, or the log-out failed before, or Redis lost the
      index pair by which it would have found a copy saved after its listing. */
  lemma WrongLookupIsAccounted(s: State, id: string)
    requires Reachable(s) && CacheFirstLookup(s.store, id, s.now) != DatabaseLookup(s.store, id, s.now)
    ensures CachedActive(s.store, id, s.now) && id in s.store.rows && s.store.rows[id].loggedOutAt.Some?
    ensures id in s.log.raced || Accounted(s, id)
  {
    CacheRefinesDatabase(s, id);
    var now, actions :| s == Run(Init(now), actions);
    RunKeepsOwed(now, actions);
    hide Run, Inv, Trim, Accounted;
    CopyFor(s, id);
  }

  /** And every log-out goes through such a state: between its two steps the copy is still
      accepted, and after them it is not. */
  lemma HalfLoggedOut(s: State, k: nat, id: string)
    requires Reachable(s) && k !in s.outs && CachedActive(s.store, id, s.now) && s.store.cache[id].userId > 0
    ensures var half := Apply(s, MarkOne(k, id));
            && CacheFirstLookup(half.store, id, half.now) == Some(s.store.cache[id].userId)
            && DatabaseLookup(half.store, id, half.now) == None
    ensures var done := Apply(Apply(s, MarkOne(k, id)), Clear(k, id));
            CacheFirstLookup(done.store, id, done.now) == DatabaseLookup(done.store, id, done.now) == None
  {
    ReachableInv(s);
    hide Reachable, Inv, Trim, Stored, Noted;
    CopyFor(s, id);
  }

  // ---------------------------------------------------------------------------
  // Rows
  // ---------------------------------------------------------------------------

  /** User and expiry stay, and so does a log-out time; one that is new is the present. */
  predicate RowFollows(before: Row, after: Row, now: Instant)
  {
    && after.(loggedOutAt := before.loggedOutAt) == before
    && (|| after == before
        || (before.loggedOutAt.None? && after.loggedOutAt == Some(Stored(now))))
  }

  lemma StepFollows(s: State, a: Action, id: string)
    requires id in s.store.rows
    ensures id in Apply(s, a).store.rows
    ensures RowFollows(s.store.rows[id], Apply(s, a).store.rows[id], s.now)
  {
    hide Trim, Stored, Owes, ActiveIds, IndexedIds, TrimmedIds, UserIds, Noted, Unnamed;
  }

  /** A row that is logged out is never changed again, whatever follows. */
  lemma {:induction false} FirstLogoutStands(s: State, actions: seq<Action>, id: string)
    requires id in s.store.rows && s.store.rows[id].loggedOutAt.Some?
    ensures var rows := Run(s, actions).store.rows; id in rows && rows[id] == s.store.rows[id]
  {
    hide Apply;
    if actions != [] {
      FirstLogoutStands(s, actions[..|actions| - 1], id);
      StepFollows(Run(s, actions[..|actions| - 1]), actions[|actions| - 1], id);
    }
  }

  // ---------------------------------------------------------------------------
  // A log-out everywhere is its steps
  // ---------------------------------------------------------------------------

  /** Listing the active sessions, marking the rows, and listing the index. */
  function Collected(s: State, k: nat, userId: int): State
  {
    Apply(Apply(Apply(s, ListActive(k, userId)), MarkUser(k)), ListIndexed(k))
  }

  function Clears(k: nat, ids: seq<string>): seq<Action>
  {
    seq(|ids|, i requires 0 <= i < |ids| => Clear(k, ids[i]))
  }

  function UserNames(s: State, userId: int): set<string>
  {
    TrimmedIds(ActiveIds(s.store, userId, s.now) + IndexedIds(s.store, userId))
  }

  lemma CollectedStore(s: State, k: nat, userId: int)
    requires k !in s.outs
    ensures var t := Collected(s, k, userId);
            && t.store == s.store.(rows := AllMarkedOut(s.store.rows, userId, s.now)) && t.now == s.now
            && t.pending == s.pending && t.outs == s.outs[k := Clearing(UserNames(s, userId))]
  {
    hide ActiveIds, TrimmedIds, AllMarkedOut, Noted, Unnamed, UserIds, Trim;
    var marked := s.store.(rows := AllMarkedOut(s.store.rows, userId, s.now));
    SameIndex(marked, s.store, userId);
    hide IndexedIds;
  }

  lemma {:induction false} ClearsAll(s: State, k: nat, ids: seq<string>, names: set<string>)
    requires k in s.outs && s.outs[k] == Clearing(names)
    ensures var t := Run(s, Clears(k, ids));
            t.store == Deleted(s.store, Members(ids)) && k in t.outs && t.outs[k].Clearing? && t.pending == s.pending
  {
    hide Deleted;
    if ids == [] {
      DeletedNone(s.store);
    } else {
      var n := |ids| - 1;
      ClearsAll(s, k, ids[..n], names);
      assert Clears(k, ids)[..n] == Clears(k, ids[..n]);
      assert Members(ids) == Members(ids[..n]) + {ids[n]};
      DeletedMore(s.store, Members(ids[..n]), ids[n]);
    }
  }

  /** Its statements one after the other, the copies deleted in whatever order, with
      nothing in between, leave the stores of the whole log-out. */
  lemma StepsMakeLogout(s: State, k: nat, userId: int, ids: seq<string>)
    requires k !in s.outs && userId > 0 && Members(ids) == UserNames(s, userId)
    ensures var t := Run(Collected(s, k, userId), Clears(k, ids));
            t.store == Apply(s, AdminLogout(userId)).store && t.pending == s.pending
  {
    hide ActiveIds, IndexedIds, TrimmedIds, AllMarkedOut, Noted, Deleted, Run;
    CollectedStore(s, k, userId);
    ClearsAll(Collected(s, k, userId), k, ids, UserNames(s, userId));
    hide Collected;
  }
}
