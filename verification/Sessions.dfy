/** Browser sessions: the database table, its Redis copy and the per-user index of the
    copy. Lookups try the copy first. */
module Sessions {
  import opened Clock
  import opened Wrappers
  import opened Text
  import opened Scopes

  datatype Row = Row(userId: int, expiresAt: Instant, loggedOutAt: Option<Instant>)

  /** A cached session. The service only ever writes active ones, so an entry stops
      being active by expiring. */
  datatype Cached = Cached(userId: int, expiresAt: Instant)

  /** `index` holds the pairs of user and session id that Redis keeps per user. */
  datatype Store = Store(rows: map<string, Row>, cache: map<string, Cached>, index: set<(int, string)>)

  predicate LiveRow(row: Row, t: Instant)
  {
    row.loggedOutAt.None? && row.expiresAt > t
  }

  // ---------------------------------------------------------------------------
  // Lookups
  // ---------------------------------------------------------------------------

  function DatabaseLookup(st: Store, id: string, t: Instant): Option<int>
  {
    if id in st.rows && LiveRow(st.rows[id], t) then Some(st.rows[id].userId) else None
  }

  predicate CachedActive(st: Store, id: string, t: Instant)
  {
    id in st.cache && st.cache[id].expiresAt > t
  }

  /** The lookup of authorization, push approval and MFA set-up. */
  function CacheFirstLookup(st: Store, id: string, t: Instant): Option<int>
  {
    if CachedActive(st, id, t) && st.cache[id].userId > 0 then Some(st.cache[id].userId)
    else DatabaseLookup(st, id, t)
  }

  /** The lookup of the consent page: a cached entry that is no longer active ends it. */
  function ConsentLookup(st: Store, id: string, t: Instant): Option<int>
  {
    if id in st.cache && !CachedActive(st, id, t) then None
    else CacheFirstLookup(st, id, t)
  }

  /** No lookup finds the session. */
  predicate Unseen(st: Store, id: string, t: Instant)
  {
    DatabaseLookup(st, id, t).None? && CacheFirstLookup(st, id, t).None? && ConsentLookup(st, id, t).None?
  }

  predicate SameLookups(st: Store, after: Store, id: string, t: Instant)
  {
    && DatabaseLookup(after, id, t) == DatabaseLookup(st, id, t)
    && CacheFirstLookup(after, id, t) == CacheFirstLookup(st, id, t)
    && ConsentLookup(after, id, t) == ConsentLookup(st, id, t)
  }

  // ---------------------------------------------------------------------------
  // Changes
  // ---------------------------------------------------------------------------

  function Inserted(st: Store, id: string, userId: int, expiresAt: Instant): Store
  {
    st.(rows := st.rows[id := Row(userId, Stored(expiresAt), None)])
  }

  function Copied(st: Store, id: string, userId: int, expiresAt: Instant): Store
  {
    st.(cache := st.cache[id := Cached(userId, WholeSecond(expiresAt))], index := st.index + {(userId, id)})
  }

  function Created(st: Store, id: string, userId: int, expiresAt: Instant): Store
  {
    Copied(Inserted(st, id, userId, expiresAt), id, userId, expiresAt)
  }

  /** Deleting a cached session also takes it out of the index of its user. */
  function Deleted(st: Store, ids: set<string>): Store
  {
    st.(cache := st.cache - ids,
        index := st.index - set id | id in ids && id in st.cache :: (st.cache[id].userId, id))
  }

  function MarkedOut(row: Row, now: Instant): Row
  {
    if row.loggedOutAt.None? then row.(loggedOutAt := Some(Stored(now))) else row
  }

  function LoggedOut(st: Store, id: string, now: Instant): Store
  {
    if id == "" then st
    else if id in st.rows then Deleted(st.(rows := st.rows[id := MarkedOut(st.rows[id], now)]), {id})
    else Deleted(st, {id})
  }

  /** A log-out ends the session for every lookup at every time, and touches no other. */
  lemma LogoutAnswers(st: Store, id: string, now: Instant)
    ensures id != "" ==> forall t :: Unseen(LoggedOut(st, id, now), id, t)
    ensures forall other, t :: other != id || other == "" ==> SameLookups(st, LoggedOut(st, id, now), other, t)
  {
    hide Stored;
  }

  /** A new session is found by every lookup until it expires: in the copy, which drops the
      fraction of the expiry, and in the row, which rounds it. */
  lemma LoginAnswers(st: Store, id: string, userId: int, expiresAt: Instant, t: Instant)
    requires userId > 0
    ensures var after := Created(st, id, userId, expiresAt);
            && (t < WholeSecond(expiresAt) ==>
                  DatabaseLookup(after, id, t) == CacheFirstLookup(after, id, t) == ConsentLookup(after, id, t)
                  == Some(userId))
            && (t >= WholeSecond(expiresAt) + SECOND ==> Unseen(after, id, t))
    ensures forall other, at :: other != id ==> SameLookups(st, Created(st, id, userId, expiresAt), other, at)
  {
    hide WholeSecond, Stored;
  }

  /** The sessions the database lists as active; its clock counts whole seconds. */
  function ActiveIds(st: Store, userId: int, now: Instant): set<string>
  {
    set id | id in st.rows && st.rows[id].userId == userId && LiveRow(st.rows[id], WholeSecond(now))
  }

  function IndexedIds(st: Store, userId: int): set<string>
  {
    set pair | pair in st.index && pair.0 == userId :: pair.1
  }

  function TrimmedIds(ids: set<string>): set<string>
  {
    set id | id in ids && Trim(id) != "" :: Trim(id)
  }

  function AllMarkedOut(rows: map<string, Row>, userId: int, now: Instant): map<string, Row>
  {
    map id | id in rows :: if rows[id].userId == userId then MarkedOut(rows[id], now) else rows[id]
  }

  function UserLoggedOut(st: Store, userId: int, now: Instant): Store
  {
    var ids := TrimmedIds(ActiveIds(st, userId, now) + IndexedIds(st, userId));
    Deleted(st.(rows := AllMarkedOut(st.rows, userId, now)), ids)
  }

  // ---------------------------------------------------------------------------
  // The service
  // ---------------------------------------------------------------------------

  /** Lists a set in whatever order it yields its members. */
  method ListAll(ids: set<string>) returns (list: seq<string>)
    ensures forall id :: id in list <==> id in ids
  {
    list := [];
    var left := ids;
    while left != {}
      invariant left <= ids && forall id :: id in list <==> id in ids - left
    {
      var id :| id in left;
      list := list + [id];
      left := left - {id};
    }
  }

  lemma NormalizedMore(ids: seq<string>, id: string)
    ensures Normalized(ids + [id])
            == if Trim(id) == "" || Trim(id) in Normalized(ids) then Normalized(ids) else Normalized(ids) + [Trim(id)]
  {
    hide Trim;
    assert (ids + [id])[..|ids|] == ids;
  }

  /** Appends the ids of a listing that are not blank and not there yet. */
  method AddIds(listed: seq<string>, start: seq<string>, ghost done: seq<string>) returns (ids: seq<string>)
    requires start == Normalized(done)
    ensures ids == Normalized(done + listed)
  {
    hide Trim, Normalized;
    ids := start;
    assert done + listed[..0] == done;
    for i := 0 to |listed|
      invariant ids == Normalized(done + listed[..i])
    {
      assert done + listed[..i + 1] == done + listed[..i] + [listed[i]];
      NormalizedMore(done + listed[..i], listed[i]);
      var id := Trim(listed[i]);
      if id == "" {
        continue;
      }
      if id in ids {
        continue;
      }
      ids := ids + [id];
    }
    assert listed[..|listed|] == listed;
  }

  /** Merges the two listings: trimmed, without blanks, each id once, in order. */
  method CollectUserSessionIDs(active: seq<string>, cached: seq<string>) returns (ids: seq<string>)
    ensures ids == Normalized(active + cached)
  {
    assert [] + active == active;
    ids := AddIds(active, [], []);
    ids := AddIds(cached, ids, active);
  }

  lemma CollectedIds(active: seq<string>, cached: seq<string>, a: set<string>, c: set<string>)
    requires forall id :: id in active <==> id in a
    requires forall id :: id in cached <==> id in c
    ensures forall id :: id in Normalized(active + cached) <==> id in TrimmedIds(a + c)
  {
    hide Trim;
    NormalizedIsNamed(active + cached);
    hide Normalized;
    forall id | id in TrimmedIds(a + c)
      ensures id in Named(active + cached)
    {
      var raw :| raw in a + c && Trim(raw) != "" && Trim(raw) == id;
      assert raw in active + cached;
    }
  }

  class SessionService {
    var store: Store

    constructor ()
      ensures store == Store(map[], map[], {})
    {
      store := Store(map[], map[], {});
    }

    method CreateSession(id: string, userId: int, now: Instant, ttl: Duration)
      modifies this
      ensures store == Created(old(store), id, userId, now + ttl)
    {
      var expiresAt := now + ttl;
      store := store.(rows := store.rows[id := Row(userId, Stored(expiresAt), None)]);
      store := store.(cache := store.cache[id := Cached(userId, WholeSecond(expiresAt))]);
      store := store.(index := store.index + {(userId, id)});
    }

    method DeleteCached(id: string)
      modifies this
      ensures store == Deleted(old(store), {id})
    {
      if id in store.cache {
        store := store.(cache := store.cache - {id}, index := store.index - {(store.cache[id].userId, id)});
      }
      assert store.cache == old(store.cache) - {id};
      ghost var was := old(store.cache);
      assert store.index == old(store.index) - set k | k in {id} && k in was :: (was[k].userId, k);
    }

    method Logout(sessionId: string, now: Instant)
      modifies this
      ensures store == LoggedOut(old(store), Trim(sessionId), now)
      ensures Trim(sessionId) != "" ==> forall t :: Unseen(store, Trim(sessionId), t)
      ensures forall id, t :: id != Trim(sessionId) || id == "" ==> SameLookups(old(store), store, id, t)
    {
      LogoutAnswers(store, Trim(sessionId), now);
      hide Trim, Unseen, SameLookups;
      var id := Trim(sessionId);
      if id == "" {
        return;
      }
      if id !in store.rows {
        DeleteCached(id);
        return;
      }
      var row := store.rows[id];
      if row.loggedOutAt.None? {
        row := row.(loggedOutAt := Some(Stored(now)));
      }
      store := store.(rows := store.rows[id := row]);
      DeleteCached(id);
    }

    /** Logs every session of a user out and clears every copy it can name. */
    method LogoutUser(userId: int, now: Instant) returns (count: nat)
      modifies this
      ensures store == UserLoggedOut(old(store), userId, now)
      ensures count == |TrimmedIds(ActiveIds(old(store), userId, now) + IndexedIds(old(store), userId))|
    {
      hide Trim, Deleted, Normalized, ActiveIds, IndexedIds, AllMarkedOut;
      ghost var before := store;
      var active := ListAll(ActiveIds(store, userId, now));
      store := store.(rows := AllMarkedOut(store.rows, userId, now));
      ghost var marked := store;
      var cached := ListAll(IndexedIds(store, userId));
      assert IndexedIds(store, userId) == IndexedIds(before, userId) by {
        SameIndex(store, before, userId);
      }
      var ids := CollectUserSessionIDs(active, cached);
      CollectedIds(active, cached, ActiveIds(before, userId, now), IndexedIds(before, userId));
      DeletedNone(marked);
      for i := 0 to |ids|
        invariant store == Deleted(marked, Members(ids[..i]))
      {
        DeleteCached(ids[i]);
        DeletedMore(marked, Members(ids[..i]), ids[i]);
        assert Members(ids[..i + 1]) == Members(ids[..i]) + {ids[i]};
      }
      assert ids[..|ids|] == ids;
      assert Members(ids) == TrimmedIds(ActiveIds(before, userId, now) + IndexedIds(before, userId));
      NormalizedIsNamed(active + cached);
      CountMembers(ids);
      count := |ids|;
    }
  }

  function Members(ids: seq<string>): set<string>
  {
    set id | id in ids
  }

  lemma {:induction false} CountMembers(ids: seq<string>)
    requires NoDuplicates(ids)
    ensures |Members(ids)| == |ids|
  {
    if ids != [] {
      var front, last := ids[..|ids| - 1], ids[|ids| - 1];
      CountMembers(front);
      assert ids == front + [last];
      assert Members(ids) == Members(front) + {last} && last !in front;
    } else {
      assert Members(ids) == {};
    }
  }

  lemma SameIndex(a: Store, b: Store, userId: int)
    requires a.index == b.index
    ensures IndexedIds(a, userId) == IndexedIds(b, userId)
  {
  }

  lemma DeletedNone(st: Store)
    ensures Deleted(st, Members([])) == st
  {
    assert Deleted(st, {}).cache == st.cache;
    assert Deleted(st, {}).index == st.index;
  }

  lemma DeletedMore(st: Store, ids: set<string>, id: string)
    ensures Deleted(Deleted(st, ids), {id}) == Deleted(st, ids + {id})
  {
    var once, twice := Deleted(st, ids + {id}), Deleted(Deleted(st, ids), {id});
    assert once.cache == twice.cache;
    assert once.index == twice.index;
  }

  // ---------------------------------------------------------------------------
  // Runs
  // ---------------------------------------------------------------------------

  /** A login that has inserted its row and not yet saved the copy. */
  datatype Pending = Pending(userId: int, expiresAt: Instant)

  /** A log-out under way: it has listed the active rows of the user, it has marked the
      rows, or it has copies left to delete. */
  datatype Out = Listed(userId: int, names: set<string>) | Marked(userId: int, names: set<string>)
               | Clearing(ids: set<string>)

  /** Bookkeeping: the sessions logged out while their login was pending, those logged out
      while they had a copy, those left by a log-out that failed, and those no log-out
      could name. */
  datatype Log = Log(raced: set<string>, stale: set<string>, dropped: set<string>, missed: set<string>)

  datatype State = State(now: Instant, store: Store, pending: map<string, Pending>, outs: map<nat, Out>, log: Log)

  /** A login takes two steps, and may fail between them; it may stamp its session with
      a time it took earlier. A log-out of one session takes two, one of a user as many
      as there are statements, and may fail after any; `Logout`, `LogoutAll` and
      `AdminLogout` are whole log-outs that nothing interrupts. `Evict` is Redis dropping
      keys, by expiry or otherwise. */
  datatype Action =
    | Tick(elapsed: nat)
    | Insert(id: string, userId: int, at: Instant, ttl: Duration)
    | Save(id: string)
    | Abandon(id: string)
    | Logout(sessionId: string)
    | LogoutAll(sessionId: string)
    | AdminLogout(userId: int)
    | MarkOne(k: nat, sessionId: string)
    | ListActive(k: nat, userId: int)
    | MarkUser(k: nat)
    | ListIndexed(k: nat)
    | Clear(k: nat, id: string)
    | Drop(k: nat)
    | Evict(ids: set<string>, pairs: set<(int, string)>)

  /** Session ids are fresh UUIDs. */
  predicate Usable(s: State, a: Action)
    requires a.Insert?
  {
    a.id !in s.store.rows && a.id != "" && Trim(a.id) == a.id && a.at <= s.now
  }

  function UserIds(st: Store, userId: int): set<string>
  {
    set id | id in st.rows && st.rows[id].userId == userId
  }

  /** Of these sessions, the ones a log-out marks now. */
  function Newly(st: Store, ids: set<string>): set<string>
  {
    set id | id in ids && id in st.rows && st.rows[id].loggedOutAt.None?
  }

  function Noted(s: State, ids: set<string>): Log
  {
    s.log.(raced := s.log.raced + Newly(s.store, ids) * s.pending.Keys,
           stale := s.log.stale + Newly(s.store, ids) * s.store.cache.Keys)
  }

  function AfterLogout(s: State, id: string): (after: State)
    ensures after.outs == s.outs && after.now == s.now && after.pending == s.pending
  {
    s.(store := LoggedOut(s.store, id, s.now), log := if id == "" then s.log else Noted(s, {id}))
  }

  function AfterUserLogout(s: State, userId: int): (after: State)
    ensures after.outs == s.outs && after.now == s.now && after.pending == s.pending
  {
    s.(store := UserLoggedOut(s.store, userId, s.now), log := Noted(s, UserIds(s.store, userId)))
  }

  function AfterSave(s: State, id: string): State
    requires id in s.pending
  {
    s.(store := Copied(s.store, id, s.pending[id].userId, s.pending[id].expiresAt), pending := s.pending - {id})
  }

  function AfterMarkOne(s: State, k: nat, id: string): State
  {
    var rows := if id in s.store.rows then s.store.rows[id := MarkedOut(s.store.rows[id], s.now)] else s.store.rows;
    s.(store := s.store.(rows := rows), outs := s.outs[k := Clearing({id})], log := Noted(s, {id}))
  }

  /** Copies that a log-out marks and will name neither by its listing nor by the index. */
  function Unnamed(st: Store, userId: int, names: set<string>): set<string>
  {
    set id | id in st.cache && id in st.rows && st.rows[id].userId == userId && id !in names
             && (userId, id) !in st.index
  }

  function AfterMarkUser(s: State, k: nat, userId: int, names: set<string>): State
  {
    var noted := Noted(s, UserIds(s.store, userId));
    s.(store := s.store.(rows := AllMarkedOut(s.store.rows, userId, s.now)), outs := s.outs[k := Marked(userId, names)],
       log := noted.(missed := noted.missed + Unnamed(s.store, userId, names)))
  }

  /** The log-out is still going to delete this copy. */
  predicate Owes(st: Store, out: Out, id: string)
  {
    match out
    case Listed(_, _) => false
    case Marked(userId, names) =>
      id in st.rows && st.rows[id].userId == userId && (id in names || (userId, id) in st.index)
    case Clearing(ids) => id in ids
  }

  function AfterDrop(s: State, k: nat): State
    requires k in s.outs
  {
    var owed := set id | id in s.store.cache && Owes(s.store, s.outs[k], id);
    s.(outs := s.outs - {k}, log := s.log.(dropped := s.log.dropped + owed))
  }

  function AfterEvict(s: State, ids: set<string>, pairs: set<(int, string)>): (after: State)
    ensures after.outs == s.outs && after.now == s.now && after.pending == s.pending
  {
    var missed := set pair | pair in pairs && pair.1 in s.log.stale :: pair.1;
    s.(store := s.store.(cache := s.store.cache - ids, index := s.store.index - pairs),
       log := s.log.(missed := s.log.missed + missed))
  }

  function Apply(s: State, a: Action): State
  {
    match a
    case Tick(elapsed) => s.(now := s.now + elapsed)
    case Insert(id, userId, at, ttl) =>
      if Usable(s, a)
      then s.(store := Inserted(s.store, id, userId, at + ttl), pending := s.pending[id := Pending(userId, at + ttl)])
      else s
    case Save(id) => if id in s.pending then AfterSave(s, id) else s
    case Abandon(id) => s.(pending := s.pending - {id})
    case Logout(sessionId) => AfterLogout(s, Trim(sessionId))
    case LogoutAll(sessionId) =>
      var id := Trim(sessionId);
      if id == "" then s
      else if id in s.store.rows then AfterUserLogout(s, s.store.rows[id].userId)
      else s.(store := Deleted(s.store, {id}))
    case AdminLogout(userId) => if userId > 0 then AfterUserLogout(s, userId) else s
    case MarkOne(k, sessionId) =>
      if k in s.outs || Trim(sessionId) == "" then s else AfterMarkOne(s, k, Trim(sessionId))
    case ListActive(k, userId) =>
      if k in s.outs then s else s.(outs := s.outs[k := Listed(userId, ActiveIds(s.store, userId, s.now))])
    case MarkUser(k) =>
      if k in s.outs && s.outs[k].Listed? then AfterMarkUser(s, k, s.outs[k].userId, s.outs[k].names) else s
    case ListIndexed(k) =>
      if k in s.outs && s.outs[k].Marked?
      then s.(outs := s.outs[k := Clearing(TrimmedIds(s.outs[k].names + IndexedIds(s.store, s.outs[k].userId)))])
      else s
    case Clear(k, id) =>
      if k in s.outs && s.outs[k].Clearing?
      then s.(store := Deleted(s.store, {id}), outs := s.outs[k := Clearing(s.outs[k].ids - {id})])
      else s
    case Drop(k) => if k in s.outs then AfterDrop(s, k) else s
    case Evict(ids, pairs) => AfterEvict(s, ids, pairs)
  }

  function Run(s: State, actions: seq<Action>): State
  {
    if actions == [] then s else Apply(Run(s, actions[..|actions| - 1]), actions[|actions| - 1])
  }

  function Init(now: Instant): State
  {
    State(now, Store(map[], map[], {}), map[], map[], Log({}, {}, {}, {}))
  }

  ghost predicate Reachable(s: State)
  {
    exists now, actions :: s == Run(Init(now), actions)
  }

  lemma StartIsReachable(now: Instant)
    ensures Reachable(Init(now))
  {
    assert Run(Init(now), []) == Init(now);
  }

  lemma Extend(s: State, a: Action)
    requires Reachable(s)
    ensures Reachable(Apply(s, a))
  {
    hide Apply;
    var now, actions :| s == Run(Init(now), actions);
    var longer := actions + [a];
    assert longer[..|actions|] == actions;
    assert Run(Init(now), longer) == Apply(s, a);
  }

  lemma OnlyTickMoves(s: State, a: Action)
    requires !a.Tick?
    ensures Apply(s, a).now == s.now
  {
    hide Trim, LoggedOut, UserLoggedOut, Deleted, Inserted, AllMarkedOut, ActiveIds, TrimmedIds, Noted;
  }

  // ---------------------------------------------------------------------------
  // Invariant
  // ---------------------------------------------------------------------------

  /** The session has a row of that user that expires no earlier, logged out or not. */
  predicate RowFor(rows: map<string, Row>, out: bool, id: string, userId: int, expiresAt: Instant)
  {
    && Trim(id) == id && id != ""
    && id in rows && rows[id].userId == userId && expiresAt <= rows[id].expiresAt
    && (rows[id].loggedOutAt.Some? <==> out)
  }

  /** Logged out while its login was pending or while it had a copy. */
  predicate Late(log: Log, id: string)
  {
    id in log.raced || id in log.stale
  }

  predicate CopiesOk(now: Instant, st: Store, log: Log)
  {
    forall id :: id in st.cache ==>
      && id in st.rows
      && (st.cache[id].expiresAt > now ==>
          RowFor(st.rows, Late(log, id), id, st.cache[id].userId, st.cache[id].expiresAt))
  }

  predicate PendingOk(pending: map<string, Pending>, st: Store, log: Log)
  {
    forall id :: id in pending ==>
      && id !in st.cache && id !in log.stale
      && RowFor(st.rows, id in log.raced, id, pending[id].userId, WholeSecond(pending[id].expiresAt))
  }

  /** All ids are kept trimmed, and the index names sessions of its user. */
  predicate IdsOk(st: Store)
  {
    && (forall id :: id in st.rows ==> Trim(id) == id && id != "")
    && (forall pair :: pair in st.index ==> Trim(pair.1) == pair.1 && pair.1 != ""
                                            && pair.1 in st.rows && st.rows[pair.1].userId == pair.0)
  }

  predicate Inv(s: State)
  {
    && IdsOk(s.store) && CopiesOk(s.now, s.store, s.log) && PendingOk(s.pending, s.store, s.log)
    && s.log.raced <= s.store.rows.Keys && s.log.stale <= s.store.rows.Keys
  }

  lemma CopyFor(s: State, id: string)
    requires Inv(s) && CachedActive(s.store, id, s.now)
    ensures RowFor(s.store.rows, Late(s.log, id), id, s.store.cache[id].userId, s.store.cache[id].expiresAt)
  {
    hide Trim, RowFor;
  }

  lemma InsertKeeps(s: State, id: string, userId: int, expiresAt: Instant)
    requires Inv(s) && id !in s.store.rows && id != "" && Trim(id) == id
    ensures Inv(s.(store := Inserted(s.store, id, userId, expiresAt),
                   pending := s.pending[id := Pending(userId, expiresAt)]))
  {
    hide Trim, WholeSecond, Stored;
  }

  lemma SaveKeeps(s: State, id: string)
    requires Inv(s) && id in s.pending
    ensures Inv(AfterSave(s, id))
  {
    hide Trim, WholeSecond, Stored;
  }

  /** Marking rows and noting it keeps the books right. */
  lemma MarkKeeps(s: State, ids: set<string>, rows: map<string, Row>)
    requires Inv(s) && rows.Keys == s.store.rows.Keys
    requires forall id :: id in rows ==>
             rows[id] == if id in ids then MarkedOut(s.store.rows[id], s.now) else s.store.rows[id]
    ensures Inv(s.(store := s.store.(rows := rows), log := Noted(s, ids)))
  {
    hide Trim, WholeSecond, Stored;
  }

  lemma DeleteKeeps(s: State, ids: set<string>)
    requires Inv(s)
    ensures Inv(s.(store := Deleted(s.store, ids)))
  {
    hide Trim, WholeSecond, RowFor;
  }

  /** The rest of the bookkeeping does not matter. */
  lemma OutsKeep(s: State, outs: map<nat, Out>, dropped: set<string>, missed: set<string>)
    requires Inv(s)
    ensures Inv(s.(outs := outs, log := s.log.(dropped := dropped, missed := missed)))
  {
    hide Trim, WholeSecond, RowFor;
  }

  lemma LogoutKeeps(s: State, id: string)
    requires Inv(s)
    ensures Inv(AfterLogout(s, id))
  {
    hide Inv, Trim, Stored, Noted, Deleted;
    if id != "" {
      var rows := if id in s.store.rows then s.store.rows[id := MarkedOut(s.store.rows[id], s.now)] else s.store.rows;
      MarkKeeps(s, {id}, rows);
      DeleteKeeps(s.(store := s.store.(rows := rows), log := Noted(s, {id})), {id});
    }
  }

  lemma UserLogoutKeeps(s: State, userId: int)
    requires Inv(s)
    ensures Inv(AfterUserLogout(s, userId))
  {
    hide Inv, Trim, Stored, Noted, Deleted, ActiveIds, IndexedIds, TrimmedIds;
    var rows := AllMarkedOut(s.store.rows, userId, s.now);
    MarkKeeps(s, UserIds(s.store, userId), rows);
    DeleteKeeps(s.(store := s.store.(rows := rows), log := Noted(s, UserIds(s.store, userId))),
                TrimmedIds(ActiveIds(s.store, userId, s.now) + IndexedIds(s.store, userId)));
  }

  lemma MarkOneKeeps(s: State, k: nat, id: string)
    requires Inv(s)
    ensures Inv(AfterMarkOne(s, k, id))
  {
    hide Inv, Trim, Stored, Noted;
    var u := AfterMarkOne(s, k, id);
    MarkKeeps(s, {id}, u.store.rows);
    OutsKeep(u.(outs := s.outs), u.outs, u.log.dropped, u.log.missed);
  }

  lemma MarkUserKeeps(s: State, k: nat, userId: int, names: set<string>)
    requires Inv(s)
    ensures Inv(AfterMarkUser(s, k, userId, names))
  {
    hide Inv, Trim, Stored, Noted, Unnamed;
    var u := AfterMarkUser(s, k, userId, names);
    var noted := Noted(s, UserIds(s.store, userId));
    MarkKeeps(s, UserIds(s.store, userId), u.store.rows);
    OutsKeep(u.(outs := s.outs, log := noted), u.outs, u.log.dropped, u.log.missed);
  }

  lemma ForgetKeeps(s: State, a: Action)
    requires Inv(s) && (a.Tick? || a.Evict? || a.Abandon?)
    ensures Inv(Apply(s, a))
  {
    hide Trim, WholeSecond, RowFor;
  }

  lemma StepKeeps(s: State, a: Action)
    requires Inv(s)
    ensures Inv(Apply(s, a))
  {
    hide Inv, Trim, Inserted, Deleted, AfterSave, AfterLogout, AfterUserLogout, AfterMarkOne, AfterMarkUser, AfterEvict;
    hide Owes, TrimmedIds, ActiveIds, IndexedIds;
    match a
    case Insert(id, userId, at, ttl) =>
      if Usable(s, a) {
        InsertKeeps(s, id, userId, at + ttl);
      }
    case Save(id) =>
      if id in s.pending {
        SaveKeeps(s, id);
      }
    case Logout(sessionId) => LogoutKeeps(s, Trim(sessionId));
    case LogoutAll(sessionId) =>
      if Trim(sessionId) in s.store.rows {
        UserLogoutKeeps(s, s.store.rows[Trim(sessionId)].userId);
      } else {
        DeleteKeeps(s, {Trim(sessionId)});
      }
    case AdminLogout(userId) => UserLogoutKeeps(s, userId);
    case MarkOne(k, sessionId) => MarkOneKeeps(s, k, Trim(sessionId));
    case MarkUser(k) =>
      if k in s.outs && s.outs[k].Listed? {
        MarkUserKeeps(s, k, s.outs[k].userId, s.outs[k].names);
      }
    case Clear(k, id) =>
      DeleteKeeps(s, {id});
      var t := s.(store := Deleted(s.store, {id}));
      OutsKeep(t, Apply(s, a).outs, s.log.dropped, s.log.missed);
    case ListActive(_, _) => OutsKeep(s, Apply(s, a).outs, s.log.dropped, s.log.missed);
    case ListIndexed(_) => OutsKeep(s, Apply(s, a).outs, s.log.dropped, s.log.missed);
    case Drop(_) => OutsKeep(s, Apply(s, a).outs, Apply(s, a).log.dropped, s.log.missed);
    case _ => ForgetKeeps(s, a);
  }

  lemma {:induction false} RunKeeps(s: State, actions: seq<Action>)
    requires Inv(s)
    ensures Inv(Run(s, actions))
  {
    if actions != [] {
      hide Inv, Apply;
      RunKeeps(s, actions[..|actions| - 1]);
      StepKeeps(Run(s, actions[..|actions| - 1]), actions[|actions| - 1]);
    }
  }

  lemma ReachableInv(s: State)
    requires Reachable(s)
    ensures Inv(s)
  {
    var now, actions :| s == Run(Init(now), actions);
    RunKeeps(Init(now), actions);
  }

  /** Every active copy of the user's sessions that is not logged out is found and
      deleted, whatever is left of the index: its row is still listed as active. */
  lemma ActiveCopyIsNamed(s: State, id: string, userId: int)
    requires Inv(s) && CachedActive(s.store, id, s.now) && !Late(s.log, id) && s.store.cache[id].userId == userId
    ensures id in TrimmedIds(ActiveIds(s.store, userId, s.now) + IndexedIds(s.store, userId))
  {
    hide Trim, Inv;
    CopyFor(s, id);
    assert id in ActiveIds(s.store, userId, s.now);
    hide ActiveIds, IndexedIds;
    assert Trim(id) == id;
  }

  // ---------------------------------------------------------------------------
  // Lookups agree
  // ---------------------------------------------------------------------------

  /** In every reachable state, looking into the cache first gives the same login
      decision and the same user as the database alone, except exactly for active copies
      of sessions that were logged out between the insert of their row and the save of
      their copy, or while the copy was there. */
  lemma CacheRefinesDatabase(s: State, id: string)
    requires Reachable(s)
    ensures CacheFirstLookup(s.store, id, s.now) == DatabaseLookup(s.store, id, s.now)
            <==> !(CachedActive(s.store, id, s.now) && s.store.cache[id].userId > 0 && Late(s.log, id))
  {
    ReachableInv(s);
    hide Reachable, Trim;
    if CachedActive(s.store, id, s.now) {
      CopyFor(s, id);
    }
  }

  /** For every login in the middle there is such a race: the user is logged out
      everywhere, the copy is saved, and lookups accept the session the database has
      logged out. */
  lemma LogoutDuringLogin(s: State, id: string)
    requires Reachable(s) && id in s.pending && s.pending[id].userId > 0 && s.now < WholeSecond(s.pending[id].expiresAt)
    ensures var t := Apply(Apply(s, AdminLogout(s.pending[id].userId)), Save(id));
            && CacheFirstLookup(t.store, id, t.now) == Some(s.pending[id].userId)
            && DatabaseLookup(t.store, id, t.now) == None
  {
    ReachableInv(s);
    hide Reachable, Trim, WholeSecond, Stored, ActiveIds, IndexedIds, TrimmedIds;
  }

  /** The consent page differs exactly in that case and when it finds a cached entry past
      its whole-second expiry whose row, rounded up, is still alive. */
  lemma ConsentLookupDiffers(s: State, id: string)
    requires Reachable(s)
    ensures ConsentLookup(s.store, id, s.now) != DatabaseLookup(s.store, id, s.now)
            <==> (|| (&& id in s.store.cache && s.store.cache[id].expiresAt <= s.now
                      && id in s.store.rows && LiveRow(s.store.rows[id], s.now))
                  || (CachedActive(s.store, id, s.now) && s.store.cache[id].userId > 0 && Late(s.log, id)))
  {
    CacheRefinesDatabase(s, id);
  }

  /** A session that expires at 10.7 s is stored as 11 s and cached as 10 s; at 10.2 s
      the consent page asks for a login while the session is alive. */
  lemma ConsentLookupDiffersSomewhere() returns (s: State)
    ensures Reachable(s)
    ensures ConsentLookup(s.store, "s", s.now) == None && DatabaseLookup(s.store, "s", s.now) == Some(1)
  {
    var start := Init(700_000_000);
    var insert, save, wait := Insert("s", 1, 700_000_000, 10_000_000_000), Save("s"), Tick(9_500_000_000);
    assert Usable(start, insert);
    var inserted := Apply(start, insert);
    var saved := Apply(inserted, save);
    s := Apply(saved, wait);
    assert [insert, save, wait][..2] == [insert, save] && [insert, save][..1] == [insert] && [insert][..0] == [];
    assert Run(start, []) == start && Run(start, [insert]) == inserted && Run(start, [insert, save]) == saved;
    assert Run(start, [insert, save, wait]) == s;
  }

  // ---------------------------------------------------------------------------
  // Log-out everywhere
  // ---------------------------------------------------------------------------

  /** The session is logged out, and neither its copy nor one still to be saved will ever
      be active. */
  predicate Sealed(s: State, id: string)
  {
    && id in s.store.rows && s.store.rows[id].loggedOutAt.Some?
    && (id in s.pending ==> s.pending[id].userId <= 0 || WholeSecond(s.pending[id].expiresAt) <= s.now)
    && (id in s.store.cache ==> s.store.cache[id].userId <= 0 || s.store.cache[id].expiresAt <= s.now)
  }

  lemma StepKeepsSealed(s: State, a: Action, id: string)
    requires Sealed(s, id)
    ensures Sealed(Apply(s, a), id)
  {
    hide Trim, WholeSecond, Stored, ActiveIds, IndexedIds, TrimmedIds;
  }

  lemma {:induction false} RunKeepsSealed(s: State, actions: seq<Action>, id: string)
    requires Sealed(s, id)
    ensures Sealed(Run(s, actions), id)
  {
    if actions != [] {
      hide Sealed, Apply;
      RunKeepsSealed(s, actions[..|actions| - 1], id);
      StepKeepsSealed(Run(s, actions[..|actions| - 1]), actions[|actions| - 1], id);
    }
  }

  /** Some lookup finds the session. */
  predicate Seen(s: State, id: string)
  {
    || DatabaseLookup(s.store, id, s.now).Some?
    || CacheFirstLookup(s.store, id, s.now).Some?
    || ConsentLookup(s.store, id, s.now).Some?
  }

  ghost predicate SeenLater(s: State, id: string)
  {
    exists actions :: Seen(Run(s, actions), id)
  }

  /** Why a session can outlive a log-out: its login is about to save a copy that has
      time left, or it raced an earlier log-out, and its copy is active and not listed. */
  predicate Escapes(s: State, userId: int, id: string)
  {
    && userId > 0
    && (|| (id in s.pending && s.now < WholeSecond(s.pending[id].expiresAt))
        || (Late(s.log, id) && CachedActive(s.store, id, s.now) && (userId, id) !in s.store.index))
  }

  /** A copy that the log-out does not delete escapes. */
  lemma SurvivingCopy(s: State, userId: int, id: string)
    requires Inv(s) && id in s.store.rows && s.store.rows[id].userId == userId
    requires CachedActive(AfterUserLogout(s, userId).store, id, s.now)
    ensures s.store.cache[id].userId == userId && Late(s.log, id) && (userId, id) !in s.store.index
  {
    hide Trim, Stored, ActiveIds, TrimmedIds;
    CopyFor(s, id);
    if !Late(s.log, id) {
      ActiveCopyIsNamed(s, id, userId);
    } else if (userId, id) in s.store.index {
      ListedIsNamed(s, userId, id);
    }
  }

  lemma ListedIsNamed(s: State, userId: int, id: string)
    requires IdsOk(s.store) && (userId, id) in s.store.index
    ensures id in TrimmedIds(ActiveIds(s.store, userId, s.now) + IndexedIds(s.store, userId))
  {
    hide Trim, ActiveIds;
    assert id in IndexedIds(s.store, userId) && Trim(id) == id;
  }

  /** And an active raced copy that is not listed is not deleted. */
  lemma UnlistedIsKept(s: State, userId: int, id: string)
    requires Inv(s) && CachedActive(s.store, id, s.now) && Late(s.log, id) && (userId, id) !in s.store.index
    ensures id in AfterUserLogout(s, userId).store.cache
    ensures AfterUserLogout(s, userId).store.cache[id] == s.store.cache[id]
  {
    hide Trim, Stored;
    CopyFor(s, id);
    assert id !in TrimmedIds(ActiveIds(s.store, userId, s.now) + IndexedIds(s.store, userId));
  }

  /** After a user is logged out everywhere, some lookup in some later run finds a session
      the user had then exactly if the session escapes. */
  lemma NoSessionSurvives(s: State, userId: int, id: string)
    requires Reachable(s) && id in s.store.rows && s.store.rows[id].userId == userId
    ensures SeenLater(AfterUserLogout(s, userId), id) <==> Escapes(s, userId, id)
  {
    ReachableInv(s);
    hide Reachable;
    var u := AfterUserLogout(s, userId);
    if Escapes(s, userId, id) {
      EscapeIsSeen(s, userId, id);
    } else {
      OthersAreSealed(s, userId, id);
      hide Inv, AfterUserLogout, Escapes, Sealed, Run, Seen;
      forall actions
        ensures !Seen(Run(u, actions), id)
      {
        RunKeepsSealed(u, actions, id);
        SealedIsUnseen(Run(u, actions), id);
      }
    }
  }

  lemma SealedIsUnseen(s: State, id: string)
    requires Sealed(s, id)
    ensures !Seen(s, id)
  {
  }

  lemma OthersAreSealed(s: State, userId: int, id: string)
    requires Inv(s) && id in s.store.rows && s.store.rows[id].userId == userId && !Escapes(s, userId, id)
    ensures Sealed(AfterUserLogout(s, userId), id)
  {
    hide Trim, Stored, ActiveIds, IndexedIds, TrimmedIds, WholeSecond;
    var u := AfterUserLogout(s, userId);
    if id in s.pending {
      assert RowFor(s.store.rows, id in s.log.raced, id, s.pending[id].userId, WholeSecond(s.pending[id].expiresAt));
    }
    if CachedActive(u.store, id, s.now) {
      SurvivingCopy(s, userId, id);
    }
  }

  lemma EscapeIsSeen(s: State, userId: int, id: string)
    requires Inv(s) && id in s.store.rows && s.store.rows[id].userId == userId && Escapes(s, userId, id)
    ensures SeenLater(AfterUserLogout(s, userId), id)
  {
    hide Trim, Stored, ActiveIds, IndexedIds, TrimmedIds, WholeSecond;
    var u := AfterUserLogout(s, userId);
    if id in s.pending && s.now < WholeSecond(s.pending[id].expiresAt) {
      assert RowFor(s.store.rows, id in s.log.raced, id, s.pending[id].userId, WholeSecond(s.pending[id].expiresAt));
      assert [Save(id)][..0] == [] && Run(u, []) == u;
      assert Run(u, [Save(id)]) == Apply(u, Save(id));
      assert Seen(Run(u, [Save(id)]), id);
    } else {
      UnlistedIsKept(s, userId, id);
      CopyFor(s, id);
      assert Run(u, []) == u;
      assert Seen(Run(u, []), id);
    }
  }

  /** And it ends no session of anyone else. */
  lemma OthersStayLoggedIn(s: State, userId: int, id: string, t: Instant)
    requires Reachable(s) && (id in s.store.rows ==> s.store.rows[id].userId != userId)
    ensures SameLookups(s.store, AfterUserLogout(s, userId).store, id, t)
  {
    ReachableInv(s);
    hide Reachable;
    OthersAreNotNamed(s, userId, id);
    hide Inv, Trim, Stored, ActiveIds, IndexedIds, TrimmedIds;
  }

  lemma OthersAreNotNamed(s: State, userId: int, id: string)
    requires Inv(s) && (id in s.store.rows ==> s.store.rows[id].userId != userId)
    ensures id !in TrimmedIds(ActiveIds(s.store, userId, s.now) + IndexedIds(s.store, userId))
  {
    hide Trim, RowFor;
  }

  // ---------------------------------------------------------------------------
  // One session
  // ---------------------------------------------------------------------------

  /** After a log-out of one session, some lookup in some later run finds it exactly if its
      login was about to save a copy that has time left. */
  lemma LogoutIsFinal(s: State, sessionId: string)
    requires Reachable(s) && Trim(sessionId) in s.store.rows
    ensures var id := Trim(sessionId);
            SeenLater(Apply(s, Logout(sessionId)), id)
            <==> id in s.pending && s.pending[id].userId > 0 && s.now < WholeSecond(s.pending[id].expiresAt)
  {
    ReachableInv(s);
    hide Reachable;
    var id := Trim(sessionId);
    var u := Apply(s, Logout(sessionId));
    assert id != "" && u == AfterLogout(s, id);
    if id in s.pending && s.pending[id].userId > 0 && s.now < WholeSecond(s.pending[id].expiresAt) {
      SavedIsSeen(u, id);
    } else {
      LogoutSeals(s, id);
      hide Inv, AfterLogout, Sealed, Run, Seen, Apply;
      forall actions
        ensures !Seen(Run(u, actions), id)
      {
        RunKeepsSealed(u, actions, id);
        SealedIsUnseen(Run(u, actions), id);
      }
    }
  }

  lemma LogoutSeals(s: State, id: string)
    requires id != "" && id in s.store.rows
    requires !(id in s.pending && s.pending[id].userId > 0 && s.now < WholeSecond(s.pending[id].expiresAt))
    ensures Sealed(AfterLogout(s, id), id)
  {
    hide Stored, WholeSecond;
  }

  lemma SavedIsSeen(s: State, id: string)
    requires id in s.pending && s.pending[id].userId > 0 && s.now < WholeSecond(s.pending[id].expiresAt)
    ensures SeenLater(s, id)
  {
    hide WholeSecond;
    assert [Save(id)][..0] == [] && Run(s, []) == s;
    assert Run(s, [Save(id)]) == Apply(s, Save(id));
    assert Seen(Run(s, [Save(id)]), id);
  }

  /** A whole log-out does what its two statements do, and a log-out of all sessions what
      an administrator's log-out of their user does. */
  lemma LogoutsAgree(s: State, k: nat, sessionId: string)
    requires k !in s.outs && Trim(sessionId) != ""
    ensures var one := Apply(s, Logout(sessionId));
            var two := Apply(Apply(s, MarkOne(k, sessionId)), Clear(k, Trim(sessionId)));
            one.store == two.store && one.log == two.log
    ensures var id := Trim(sessionId);
            id in s.store.rows && s.store.rows[id].userId > 0 ==>
              Apply(s, LogoutAll(sessionId)) == Apply(s, AdminLogout(s.store.rows[id].userId))
  {
    hide Stored, Trim, UserLoggedOut, Noted, Deleted;
  }
}
