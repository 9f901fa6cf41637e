/** Access tokens after a log-out-everywhere. A bearer token is refused while its
    revocation marker lives in Redis or once its `exp` claim has passed; the marker's
    lifetime is computed from the database row, in whole seconds. */
module Revocation {
  import opened Clock
  import opened Wrappers
  import RefreshTokens

  /** A row of the access-token table: when the token was meant to expire, and what the
      `exp` claim and the column made of that. */
  datatype Row = Row(userId: int, meant: Instant, revokedAt: Option<Instant>)

  function Exp(row: Row): Instant
  {
    WholeSecond(row.meant)
  }

  function Column(row: Row): Instant
  {
    Stored(row.meant)
  }

  /** `markers` maps a revoked token to the instant its marker disappears. */
  datatype Store = Store(rows: map<string, Row>, markers: map<string, Instant>)

  predicate Accepted(st: Store, sha: string, t: Instant)
  {
    sha in st.rows && !(sha in st.markers && t < st.markers[sha]) && Exp(st.rows[sha]) > t
  }

  /** What the database lists as active; its clock counts whole seconds. */
  predicate Active(row: Row, userId: int, now: Instant)
  {
    row.userId == userId && row.revokedAt.None? && Column(row) > WholeSecond(now)
  }

  /** When the marker of a row revoked at `at` disappears; `None` if none is written. */
  function MarkerEnd(column: Instant, at: Instant): Option<Instant>
  {
    if column - at <= 0 then None else Some(at + Seconds(DurationSeconds(column - at)))
  }

  function ActiveShas(rows: map<string, Row>, userId: int, now: Instant): set<string>
  {
    set sha | sha in rows && Active(rows[sha], userId, now)
  }

  function RevokedRows(rows: map<string, Row>, userId: int, at: Instant): map<string, Row>
  {
    map sha | sha in rows ::
      if Active(rows[sha], userId, at) then rows[sha].(revokedAt := Some(Stored(at))) else rows[sha]
  }

  /** Writes the markers of some tokens. */
  function Marked(markers: map<string, Instant>, rows: map<string, Row>, shas: set<string>, at: Instant)
    : map<string, Instant>
  {
    markers + map sha | sha in shas && sha in rows && MarkerEnd(Column(rows[sha]), at).Some?
                :: MarkerEnd(Column(rows[sha]), at).value
  }

  function Revoked(st: Store, userId: int, at: Instant): Store
  {
    Store(RevokedRows(st.rows, userId, at), Marked(st.markers, st.rows, ActiveShas(st.rows, userId, at), at))
  }

  // ---------------------------------------------------------------------------
  // The service
  // ---------------------------------------------------------------------------

  class TokenRevoker {
    var store: Store

    constructor ()
      ensures store == Store(map[], map[])
    {
      store := Store(map[], map[]);
    }

    /** Lists the active tokens of a user, in some order, each once. */
    method ListActiveAccessTokensByUserID(userId: int, now: Instant) returns (list: seq<string>)
      ensures forall sha :: sha in list <==> sha in store.rows && Active(store.rows[sha], userId, now)
      ensures forall i, j :: 0 <= i < j < |list| ==> list[i] != list[j]
    {
      hide Active;
      list := [];
      var left := store.rows.Keys;
      while left != {}
        invariant left <= store.rows.Keys
        invariant forall sha :: sha in list <==>
                  sha in store.rows && sha !in left && Active(store.rows[sha], userId, now)
        invariant forall i, j :: 0 <= i < j < |list| ==> list[i] != list[j]
      {
        var sha :| sha in left;
        if Active(store.rows[sha], userId, now) {
          list := list + [sha];
        }
        left := left - {sha};
      }
    }

    /** Revokes the rows, then writes one marker per listed token that still has time
        to live. */
    method RevokeUserTokens(userId: int, at: Instant) returns (count: nat)
      modifies this
      ensures store == Revoked(old(store), userId, at)
      ensures count == |ActiveShas(old(store.rows), userId, at)|
    {
      hide Active, Column, MarkerEnd, RevokedRows, Marked;
      var listed := store.rows;
      ghost var markers := store.markers;
      var list := ListActiveAccessTokensByUserID(userId, at);
      store := store.(rows := RevokedRows(store.rows, userId, at));
      assert Marked(markers, listed, {}, at) == markers by {
        MarkedNone(markers, listed, at);
      }
      ghost var done := {};
      for i := 0 to |list|
        invariant store.rows == RevokedRows(listed, userId, at)
        invariant done == (set sha | sha in list[..i]) && |done| == i
        invariant store.markers == Marked(markers, listed, done, at)
      {
        MarkedMore(markers, listed, done, list[i], at);
        done := done + {list[i]};
        var end := MarkerEnd(Column(listed[list[i]]), at);
        if end.None? {
          continue;
        }
        store := store.(markers := store.markers[list[i] := end.value]);
      }
      assert done == ActiveShas(listed, userId, at);
      count := |list|;
    }
  }

  lemma MarkedNone(markers: map<string, Instant>, rows: map<string, Row>, at: Instant)
    ensures Marked(markers, rows, {}, at) == markers
  {
  }

  lemma MarkedMore(markers: map<string, Instant>, rows: map<string, Row>, shas: set<string>, sha: string, at: Instant)
    requires sha in rows
    ensures Marked(markers, rows, shas + {sha}, at)
            == match MarkerEnd(Column(rows[sha]), at)
               case None => Marked(markers, rows, shas, at)
               case Some(end) => Marked(markers, rows, shas, at)[sha := end]
  {
    hide MarkerEnd, Column;
  }

  // ---------------------------------------------------------------------------
  // Marker lifetimes
  // ---------------------------------------------------------------------------

  /** The marker of a token revoked before it expired outlives every instant up to one
      second before its `exp`. */
  lemma MarkerReachesExp(meant: Instant, at: Instant)
    requires Stored(meant) - at > 0
    ensures MarkerEnd(Stored(meant), at).Some?
    ensures MarkerEnd(Stored(meant), at).value > WholeSecond(meant) - SECOND
    ensures MarkerEnd(Stored(meant), at).value > at
  {
    hide Stored, WholeSecond;
  }

  /** It leaves no gap before `exp` exactly when the revocation fell on a whole second,
      the column rounded the expiry up, or less than a second was left. */
  lemma NoGapExactly(meant: Instant, at: Instant)
    requires Stored(meant) - at > 0
    ensures MarkerEnd(Stored(meant), at).value >= WholeSecond(meant)
            <==> (|| at == WholeSecond(at)
                  || Stored(meant) > WholeSecond(meant)
                  || Stored(meant) - at < SECOND)
  {
  }

  // ---------------------------------------------------------------------------
  // Runs
  // ---------------------------------------------------------------------------

  /** A log-out under way, with the time it took when it began: it has listed the user's
      active tokens, or it has revoked the rows and has markers left to write. */
  datatype Out = Listed(userId: int, at: Instant, shas: set<string>) | Marking(at: Instant, shas: set<string>)

  /** `missed` and `dropped` are bookkeeping: tokens revoked by a log-out that had not
      listed them, and those whose markers a failing log-out left unwritten. */
  datatype State = State(now: Instant, store: Store, outs: map<nat, Out>, missed: set<string>, dropped: set<string>)

  /** `LogoutEverywhere` is a whole log-out that nothing interrupts. */
  datatype Action =
    | Tick(elapsed: nat)
    | Issue(sha: string, userId: int, meant: Instant)
    | LogoutEverywhere(userId: int)
    | List(k: nat, userId: int, at: Instant)
    | Update(k: nat)
    | Mark(k: nat, sha: string)
    | Drop(k: nat)

  /** The UPDATE statement, with the time `at` of the log-out, by the clock of the
      database. */
  function AfterUpdate(s: State, k: nat, userId: int, at: Instant, shas: set<string>): State
  {
    var rows := map sha | sha in s.store.rows ::
                  if Active(s.store.rows[sha], userId, s.now) then s.store.rows[sha].(revokedAt := Some(Stored(at)))
                  else s.store.rows[sha];
    s.(store := s.store.(rows := rows), outs := s.outs[k := Marking(at, shas)],
       missed := s.missed + (ActiveShas(s.store.rows, userId, s.now) - shas))
  }

  /** Writes one marker; its lifetime counts from now. */
  function AfterMark(s: State, k: nat, at: Instant, shas: set<string>, sha: string): State
    requires sha in s.store.rows
  {
    var left := Column(s.store.rows[sha]) - at;
    var markers := if left <= 0 then s.store.markers
                   else s.store.markers[sha := s.now + Seconds(DurationSeconds(left))];
    s.(store := s.store.(markers := markers), outs := s.outs[k := Marking(at, shas - {sha})])
  }

  function Apply(s: State, a: Action): State
  {
    match a
    case Tick(elapsed) => s.(now := s.now + elapsed)
    case Issue(sha, userId, meant) =>
      if sha in s.store.rows then s
      else s.(store := s.store.(rows := s.store.rows[sha := Row(userId, meant, None)]))
    case LogoutEverywhere(userId) => s.(store := Revoked(s.store, userId, s.now))
    case List(k, userId, at) =>
      if k in s.outs || at > s.now then s
      else s.(outs := s.outs[k := Listed(userId, at, ActiveShas(s.store.rows, userId, s.now))])
    case Update(k) =>
      if k in s.outs && s.outs[k].Listed? then AfterUpdate(s, k, s.outs[k].userId, s.outs[k].at, s.outs[k].shas) else s
    case Mark(k, sha) =>
      if k in s.outs && s.outs[k].Marking? && sha in s.outs[k].shas && sha in s.store.rows
      then AfterMark(s, k, s.outs[k].at, s.outs[k].shas, sha)
      else s
    case Drop(k) =>
      if k in s.outs && s.outs[k].Marking? then s.(outs := s.outs - {k}, dropped := s.dropped + s.outs[k].shas)
      else s.(outs := s.outs - {k})
  }

  function Run(s: State, actions: seq<Action>): State
  {
    if actions == [] then s else Apply(Run(s, actions[..|actions| - 1]), actions[|actions| - 1])
  }

  function Init(now: Instant): State
  {
    State(now, Store(map[], map[]), map[], {}, {})
  }

  ghost predicate Reachable(s: State)
  {
    exists now, actions :: s == Run(Init(now), actions)
  }

  /** Its marker is still to be written, or never will be: the log-out that revoked it had
      not listed it, or failed. */
  predicate Open(s: State, sha: string)
  {
    || sha in s.missed || sha in s.dropped
    || exists k :: k in s.outs && s.outs[k].Marking? && sha in s.outs[k].shas
  }

  /** A revoked token has expired, has a marker that nearly reaches its `exp`, or is
      open. */
  predicate Blocked(s: State, sha: string)
    requires sha in s.store.rows
  {
    || Exp(s.store.rows[sha]) <= s.now
    || (sha in s.store.markers && s.store.markers[sha] > Exp(s.store.rows[sha]) - SECOND)
    || (sha !in s.store.markers && Open(s, sha))
  }

  /** Markers nearly reach the `exp` of their token; log-outs began in the past. */
  predicate MarkersOk(s: State)
  {
    forall sha :: sha in s.store.markers ==>
      sha in s.store.rows && s.store.markers[sha] > Exp(s.store.rows[sha]) - SECOND
  }

  predicate OutsOk(s: State)
  {
    forall k :: k in s.outs ==> s.outs[k].at <= s.now
  }

  predicate RowsOk(s: State)
  {
    forall sha :: sha in s.store.rows && s.store.rows[sha].revokedAt.Some? ==> Blocked(s, sha)
  }

  predicate Inv(s: State)
  {
    MarkersOk(s) && OutsOk(s) && RowsOk(s)
  }

  /** A row the database no longer lists is past its `exp`. */
  lemma UnlistedIsExpired(row: Row, userId: int, now: Instant)
    requires row.userId == userId && row.revokedAt.None? && !Active(row, userId, now)
    ensures Exp(row) <= now
  {
  }

  /** A marker written now for a log-out that began earlier nearly reaches the `exp`. */
  lemma MarkReaches(row: Row, at: Instant, now: Instant)
    requires at <= now && Column(row) - at > 0
    ensures now + Seconds(DurationSeconds(Column(row) - at)) > Exp(row) - SECOND
  {
    hide Stored, WholeSecond;
    MarkerReachesExp(row.meant, at);
  }

  lemma MarkedReach(s: State, userId: int)
    requires MarkersOk(s)
    ensures MarkersOk(s.(store := Revoked(s.store, userId, s.now)))
  {
    hide Active, WholeSecond, Stored, Seconds, DurationSeconds;
    var u := s.(store := Revoked(s.store, userId, s.now));
    forall sha | sha in u.store.markers
      ensures sha in u.store.rows && u.store.markers[sha] > Exp(u.store.rows[sha]) - SECOND
    {
      if sha in ActiveShas(s.store.rows, userId, s.now) && Column(s.store.rows[sha]) - s.now > 0 {
        MarkerReachesExp(s.store.rows[sha].meant, s.now);
      }
    }
  }

  lemma LogoutKeeps(s: State, userId: int)
    requires Inv(s)
    ensures Inv(s.(store := Revoked(s.store, userId, s.now)))
  {
    MarkedReach(s, userId);
    hide Active, WholeSecond, Stored, Seconds, DurationSeconds, MarkersOk;
    var u := s.(store := Revoked(s.store, userId, s.now));
    forall sha | sha in u.store.rows && u.store.rows[sha].revokedAt.Some?
      ensures Blocked(u, sha)
    {
      LogoutBlocks(s, userId, sha);
    }
  }

  lemma LogoutBlocks(s: State, userId: int, sha: string)
    requires Inv(s) && sha in s.store.rows
    requires sha in Revoked(s.store, userId, s.now).rows && Revoked(s.store, userId, s.now).rows[sha].revokedAt.Some?
    ensures Blocked(s.(store := Revoked(s.store, userId, s.now)), sha)
  {
    MarkedReach(s, userId);
    hide Active, WholeSecond, Stored, Seconds, DurationSeconds;
    if Active(s.store.rows[sha], userId, s.now) {
      assert sha in ActiveShas(s.store.rows, userId, s.now);
    } else {
      assert Blocked(s, sha);
    }
  }

  lemma UpdateKeeps(s: State, k: nat)
    requires Inv(s) && k in s.outs && s.outs[k].Listed?
    ensures Inv(AfterUpdate(s, k, s.outs[k].userId, s.outs[k].at, s.outs[k].shas))
  {
    hide Active, WholeSecond, Stored;
    var out := s.outs[k];
    var u := AfterUpdate(s, k, out.userId, out.at, out.shas);
    forall sha | sha in u.store.rows && u.store.rows[sha].revokedAt.Some?
      ensures Blocked(u, sha)
    {
      if Active(s.store.rows[sha], out.userId, s.now) {
        assert sha in ActiveShas(s.store.rows, out.userId, s.now);
        assert u.outs[k].Marking? && u.outs[k].shas == out.shas;
      } else {
        assert Blocked(s, sha);
        OpenStays(s, u, k, sha);
      }
    }
  }

  /** Only the log-out `k` changed, and it owes no less. */
  lemma OpenStays(s: State, u: State, k: nat, sha: string)
    requires s.missed <= u.missed && s.dropped <= u.dropped && k in u.outs && u.outs == s.outs[k := u.outs[k]]
    requires k in s.outs && s.outs[k].Marking? && sha in s.outs[k].shas ==> u.outs[k].Marking? && sha in u.outs[k].shas
    ensures Open(s, sha) ==> Open(u, sha)
  {
    if Open(s, sha) && sha !in s.missed && sha !in s.dropped {
      var j :| j in s.outs && s.outs[j].Marking? && sha in s.outs[j].shas;
      assert j in u.outs && u.outs[j].Marking? && sha in u.outs[j].shas;
    }
  }

  lemma MarkKeeps(s: State, k: nat, marked: string)
    requires Inv(s) && k in s.outs && s.outs[k].Marking? && marked in s.store.rows
    ensures Inv(AfterMark(s, k, s.outs[k].at, s.outs[k].shas, marked))
  {
    hide WholeSecond, Stored, Seconds, DurationSeconds;
    var out, row := s.outs[k], s.store.rows[marked];
    var u := AfterMark(s, k, out.at, out.shas, marked);
    if Column(row) - out.at > 0 {
      MarkReaches(row, out.at, s.now);
    }
    forall sha | sha in u.store.rows && u.store.rows[sha].revokedAt.Some?
      ensures Blocked(u, sha)
    {
      assert Blocked(s, sha);
      if sha != marked {
        OpenStays(s, u, k, sha);
      }
    }
  }

  lemma DropKeeps(s: State, k: nat)
    requires Inv(s)
    ensures Inv(Apply(s, Drop(k)))
  {
    hide WholeSecond, Stored;
    var u := Apply(s, Drop(k));
    forall sha | sha in u.store.rows && u.store.rows[sha].revokedAt.Some?
      ensures Blocked(u, sha)
    {
      assert Blocked(s, sha);
      if Open(s, sha) && sha !in s.missed && sha !in s.dropped {
        var j :| j in s.outs && s.outs[j].Marking? && sha in s.outs[j].shas;
        assert j != k ==> j in u.outs && u.outs[j] == s.outs[j];
      }
    }
  }

  lemma OtherKeeps(s: State, a: Action)
    requires Inv(s) && (a.Tick? || a.Issue? || a.List?)
    ensures Inv(Apply(s, a))
  {
    hide WholeSecond, Stored, ActiveShas;
    var u := Apply(s, a);
    forall sha | sha in u.store.rows && u.store.rows[sha].revokedAt.Some?
      ensures Blocked(u, sha)
    {
      assert Blocked(s, sha);
      if a.List? && u != s {
        OpenStays(s, u, a.k, sha);
      }
    }
  }

  lemma StepKeeps(s: State, a: Action)
    requires Inv(s)
    ensures Inv(Apply(s, a))
  {
    hide Inv, Revoked, AfterUpdate, AfterMark, WholeSecond;
    match a
    case LogoutEverywhere(userId) => LogoutKeeps(s, userId);
    case Update(k) =>
      if k in s.outs && s.outs[k].Listed? {
        UpdateKeeps(s, k);
      }
    case Mark(k, sha) =>
      if k in s.outs && s.outs[k].Marking? && sha in s.outs[k].shas && sha in s.store.rows {
        MarkKeeps(s, k, sha);
      }
    case Drop(k) => DropKeeps(s, k);
    case _ => OtherKeeps(s, a);
  }

  lemma {:induction false} RunKeeps(now: Instant, actions: seq<Action>)
    ensures Inv(Run(Init(now), actions))
  {
    if actions != [] {
      hide Inv, Apply;
      RunKeeps(now, actions[..|actions| - 1]);
      StepKeeps(Run(Init(now), actions[..|actions| - 1]), actions[|actions| - 1]);
    }
  }

  // ---------------------------------------------------------------------------
  // Main results
  // ---------------------------------------------------------------------------

  /** In every run, a revoked token that is accepted is inside the last second before its
      `exp`, or has no marker yet or never will; before that second it is accepted
      exactly while it has no marker. */
  lemma RevokedTokenWindow(s: State, sha: string)
    requires Reachable(s) && sha in s.store.rows && s.store.rows[sha].revokedAt.Some?
    ensures Accepted(s.store, sha, s.now) ==>
              || Exp(s.store.rows[sha]) - SECOND < s.now < Exp(s.store.rows[sha])
              || (sha !in s.store.markers && Open(s, sha))
    ensures s.now <= Exp(s.store.rows[sha]) - SECOND ==> (Accepted(s.store, sha, s.now) <==> sha !in s.store.markers)
  {
    var now, actions :| s == Run(Init(now), actions);
    RunKeeps(now, actions);
    hide Run, WholeSecond, Open;
    assert Blocked(s, sha);
  }

  /** Every log-out can miss a token: one issued between its listing and its update is
      revoked without a marker, and accepted until its `exp`. */
  lemma TokenIssuedDuringLogout(s: State, k: nat, sha: string, meant: Instant)
    requires Reachable(s) && k in s.outs && s.outs[k].Listed? && sha !in s.store.rows
    requires Stored(meant) > WholeSecond(s.now)
    ensures var t := Apply(Apply(s, Issue(sha, s.outs[k].userId, meant)), Update(k));
            && sha in t.store.rows && t.store.rows[sha].revokedAt.Some? && sha !in t.store.markers
            && forall later :: later < Exp(t.store.rows[sha]) ==> Accepted(t.store, sha, later)
  {
    var now, actions :| s == Run(Init(now), actions);
    RunKeeps(now, actions);
    hide Run, WholeSecond, Stored;
  }

  /** The window is not empty: a token meant to expire at 10.2 s and revoked at 3.5 s is
      accepted again at 9.7 s. */
  lemma RevokedTokenIsAcceptedAgain() returns (s: State)
    ensures Reachable(s) && "t" in s.store.rows && s.store.rows["t"].revokedAt.Some?
    ensures Accepted(s.store, "t", s.now)
  {
    var start := Init(3_500_000_000);
    var issue, logout, wait := Issue("t", 1, 10_200_000_000), LogoutEverywhere(1), Tick(6_200_000_000);
    var issued := Apply(start, issue);
    assert issued.store.rows == map["t" := Row(1, 10_200_000_000, None)];
    assert Active(issued.store.rows["t"], 1, issued.now);
    var revoked := Apply(issued, logout);
    assert "t" in ActiveShas(issued.store.rows, 1, issued.now);
    assert MarkerEnd(10_000_000_000, 3_500_000_000) == Some(9_500_000_000);
    s := Apply(revoked, wait);
    assert [issue, logout, wait][..2] == [issue, logout] && [issue, logout][..1] == [issue] && [issue][..0] == [];
    assert Run(start, []) == start && Run(start, [issue]) == issued && Run(start, [issue, logout]) == revoked;
    assert Run(start, [issue, logout, wait]) == s;
  }

  /** After a log-out-everywhere every access token of the user is revoked or past its
      `exp`, no other token changes, and of the user's refresh tokens exactly those can
      still be rotated, at whatever time the rotation is stamped with, that the statement
      took for expired; other users' refresh tokens are as rotatable as before. */
  lemma LogoutRevokesEverything(st: Store, t: RefreshTokens.Table, userId: int, now: Instant)
    ensures forall sha :: sha in st.rows ==>
              && sha in Revoked(st, userId, now).rows
              && var after := Revoked(st, userId, now).rows[sha];
                 if st.rows[sha].userId == userId then after.revokedAt.Some? || Exp(after) <= now
                 else after == st.rows[sha]
    ensures var after := RefreshTokens.RevokeUser(t, userId, now, now);
            forall sha, at :: RefreshTokens.Rotatable(after, sha, at) <==>
              RefreshTokens.Rotatable(t, sha, at)
              && (t.rows[t.bySha[sha]].token.userId == Some(userId) ==>
                  t.rows[t.bySha[sha]].expiresAt <= WholeSecond(now))
  {
    hide Stored;
    forall sha | sha in st.rows && st.rows[sha].userId == userId
      ensures Revoked(st, userId, now).rows[sha].revokedAt.Some? || Exp(Revoked(st, userId, now).rows[sha]) <= now
    {
      if st.rows[sha].revokedAt.None? && !Active(st.rows[sha], userId, now) {
        UnlistedIsExpired(st.rows[sha], userId, now);
      }
    }
  }

  // ---------------------------------------------------------------------------
  // A log-out is its steps
  // ---------------------------------------------------------------------------

  function Members(shas: seq<string>): set<string>
  {
    set sha | sha in shas
  }

  /** The listing and the update. */
  function Updated(s: State, k: nat, userId: int): State
  {
    Apply(Apply(s, List(k, userId, s.now)), Update(k))
  }

  function Marks(k: nat, shas: seq<string>): seq<Action>
  {
    seq(|shas|, i requires 0 <= i < |shas| => Mark(k, shas[i]))
  }

  lemma UpdatedRows(s: State, k: nat, userId: int)
    requires k !in s.outs
    ensures Updated(s, k, userId)
            == s.(store := s.store.(rows := RevokedRows(s.store.rows, userId, s.now)),
                  outs := s.outs[k := Marking(s.now, ActiveShas(s.store.rows, userId, s.now))])
  {
    hide Active, Stored;
    var shas := ActiveShas(s.store.rows, userId, s.now);
    assert s.missed + (shas - shas) == s.missed;
    assert s.outs[k := Listed(userId, s.now, shas)][k := Marking(s.now, shas)] == s.outs[k := Marking(s.now, shas)];
  }

  /** One marker more. */
  lemma MarksOne(s: State, k: nat, rows: map<string, Row>, userId: int, markers: map<string, Instant>,
                 done: set<string>, left: set<string>, sha: string)
    requires k in s.outs && s.outs[k] == Marking(s.now, left) && sha in left && sha in rows
    requires s.store == Store(RevokedRows(rows, userId, s.now), Marked(markers, rows, done, s.now))
    ensures Apply(s, Mark(k, sha))
            == s.(store := Store(RevokedRows(rows, userId, s.now), Marked(markers, rows, done + {sha}, s.now)),
                  outs := s.outs[k := Marking(s.now, left - {sha})])
  {
    hide Column, Marked, RevokedRows, DurationSeconds, Active;
    MarkedMore(markers, rows, done, sha, s.now);
    SameColumn(rows, userId, s.now, sha);
  }

  lemma SameColumn(rows: map<string, Row>, userId: int, at: Instant, sha: string)
    requires sha in rows
    ensures sha in RevokedRows(rows, userId, at) && Column(RevokedRows(rows, userId, at)[sha]) == Column(rows[sha])
  {
    hide Active, Stored;
  }

  lemma {:induction false} MarksAll(s: State, k: nat, userId: int, shas: seq<string>)
    requires k !in s.outs && Members(shas) <= ActiveShas(s.store.rows, userId, s.now)
    requires forall i, j :: 0 <= i < j < |shas| ==> shas[i] != shas[j]
    ensures Run(Updated(s, k, userId), Marks(k, shas))
            == s.(store := Store(RevokedRows(s.store.rows, userId, s.now),
                                 Marked(s.store.markers, s.store.rows, Members(shas), s.now)),
                  outs := s.outs[k := Marking(s.now, ActiveShas(s.store.rows, userId, s.now) - Members(shas))])
  {
    hide Active, Marked, RevokedRows, Apply;
    UpdatedRows(s, k, userId);
    var all := ActiveShas(s.store.rows, userId, s.now);
    if shas == [] {
      assert Members(shas) == {} && all - {} == all;
      MarkedNone(s.store.markers, s.store.rows, s.now);
    } else {
      var n := |shas| - 1;
      var front, last := shas[..n], shas[n];
      assert Members(shas) == Members(front) + {last} && last !in Members(front);
      assert all - Members(front) - {last} == all - Members(shas);
      MarksAll(s, k, userId, front);
      assert Marks(k, shas)[..n] == Marks(k, front);
      var t := Run(Updated(s, k, userId), Marks(k, front));
      MarksOne(t, k, s.store.rows, userId, s.store.markers, Members(front), all - Members(front), last);
    }
  }

  /** Listing, updating and writing every marker, in whatever order, with nothing in
      between, is the whole log-out. */
  lemma StepsMakeLogout(s: State, k: nat, userId: int, shas: seq<string>)
    requires k !in s.outs && Members(shas) == ActiveShas(s.store.rows, userId, s.now)
    requires forall i, j :: 0 <= i < j < |shas| ==> shas[i] != shas[j]
    ensures var t := Run(Updated(s, k, userId), Marks(k, shas));
            && t.store == Apply(s, LogoutEverywhere(userId)).store
            && t.outs == s.outs[k := Marking(s.now, {})] && t.missed == s.missed && t.dropped == s.dropped
  {
    hide Active, Marked, RevokedRows;
    MarksAll(s, k, userId, shas);
    assert ActiveShas(s.store.rows, userId, s.now) - Members(shas) == {};
  }
}
