/** Refresh tokens after a log-out-everywhere, over whole runs. The log-out statement
    skips rows that the database clock takes for expired, while a refresh request
    compares the expiry with a time it took before it rotates. */
module RefreshLogout {
  import opened Clock
  import opened Wrappers
  import opened RefreshTokens
  import opened RefreshFlow
  import opened Scopes

  /** An unused token that a log-out at `now` leaves alone because it has expired. */
  predicate Skipped(row: Row, now: Instant)
  {
    row.revokedAt.None? && row.replacedBy.None? && row.expiresAt <= WholeSecond(now)
  }

  /** The row of `sha` still has that token and expiry; it is revoked, or else it was
      skipped and a rotation is all that can have touched it. */
  predicate Followed(t: Table, sha: string, row: Row, skipped: bool)
  {
    && sha in t.bySha && t.bySha[sha] in t.rows
    && var r := t.rows[t.bySha[sha]];
       && r.token == row.token && r.expiresAt == row.expiresAt
       && if skipped then r.revokedAt.Some? <==> r.replacedBy.Some? else r.revokedAt.Some?
  }

  lemma RotateFollows(t: Table, sha: string, row: Row, skipped: bool, rotated: string, at: Instant, token: Token)
    requires Indexed(t) && Followed(t, sha, row, skipped) && Rotate(t, rotated, at, token).Ok?
    ensures Followed(Rotate(t, rotated, at, token).value, sha, row, skipped)
  {
    hide Stored;
  }

  lemma RevokeFollows(t: Table, sha: string, row: Row, skipped: bool, userId: int, at: Instant, now: Instant)
    requires Followed(t, sha, row, skipped) && (skipped ==> row.expiresAt <= WholeSecond(now))
    ensures Followed(RevokeUser(t, userId, at, now), sha, row, skipped)
  {
    hide Stored, WholeSecond;
  }

  lemma StepFollows(cfg: Config, s: State, a: RefreshFlow.Action, sha: string, row: Row, skipped: bool)
    requires Indexed(s.table) && Followed(s.table, sha, row, skipped)
    requires skipped ==> row.expiresAt <= WholeSecond(s.now)
    ensures Followed(RefreshFlow.Apply(cfg, s, a).table, sha, row, skipped)
    ensures s.now <= RefreshFlow.Apply(cfg, s, a).now && Indexed(RefreshFlow.Apply(cfg, s, a).table)
  {
    hide Check, CacheRotation, NewToken, Rotate, RevokeUser, Followed, Indexed, WholeSecond;
    match a
    case Grant(token, _) =>
      if Insert(s.table, token).Ok? {
        InsertFollows(s.table, sha, row, skipped, token);
      }
    case RevokeAll(userId, at) => RevokeFollows(s.table, sha, row, skipped, userId, at, s.now);
    case Rotation(id, at, _, value) =>
      if id in s.requests && s.requests[id].stage.Loaded? {
        var r := s.requests[id];
        var token := NewToken(cfg, r.clientId, r.ttl, r.stage.row, at, value);
        if Rotate(s.table, r.sha, at, token).Ok? {
          RotateFollows(s.table, sha, row, skipped, r.sha, at, token);
        }
      }
    case _ =>
  }

  lemma InsertFollows(t: Table, sha: string, row: Row, skipped: bool, token: Token)
    requires Indexed(t) && Followed(t, sha, row, skipped) && Insert(t, token).Ok?
    ensures Followed(Insert(t, token).value, sha, row, skipped)
  {
    hide Stored;
  }

  lemma {:induction false} RunFollows(cfg: Config, s: State, actions: seq<RefreshFlow.Action>, sha: string, row: Row,
                                      skipped: bool)
    requires Indexed(s.table) && Followed(s.table, sha, row, skipped)
    requires skipped ==> row.expiresAt <= WholeSecond(s.now)
    ensures var t := RefreshFlow.Run(cfg, s, actions);
            Followed(t.table, sha, row, skipped) && s.now <= t.now && Indexed(t.table)
  {
    if actions != [] {
      hide RefreshFlow.Apply, Followed, Indexed, WholeSecond;
      RunFollows(cfg, s, actions[..|actions| - 1], sha, row, skipped);
      var t := RefreshFlow.Run(cfg, s, actions[..|actions| - 1]);
      Later(s.now, t.now);
      StepFollows(cfg, t, actions[|actions| - 1], sha, row, skipped);
    }
  }

  lemma Later(t: Instant, u: Instant)
    requires t <= u
    ensures WholeSecond(t) <= WholeSecond(u)
  {
  }

  /** In every run after a log-out, a token the user had then can be rotated with the
      time `at` exactly when the log-out took it for expired, `at` lies before its
      expiry, and no rotation has replaced it yet. */
  lemma RotatableAfterLogout(cfg: Config, s: State, userId: int, stamp: Instant, actions: seq<RefreshFlow.Action>,
                             sha: string, at: Instant)
    requires Lawful(cfg.json) && RefreshFlow.Reachable(cfg, s)
    requires sha in s.table.bySha && s.table.bySha[sha] in s.table.rows
    requires s.table.rows[s.table.bySha[sha]].token.userId == Some(userId)
    ensures var row := s.table.rows[s.table.bySha[sha]];
            var t := RefreshFlow.Run(cfg, RefreshFlow.Apply(cfg, s, RevokeAll(userId, stamp)), actions);
            && sha in t.table.bySha && t.table.bySha[sha] in t.table.rows
            && (Rotatable(t.table, sha, at) <==>
                  Skipped(row, s.now) && at < row.expiresAt && t.table.rows[t.table.bySha[sha]].replacedBy.None?)
  {
    var row := s.table.rows[s.table.bySha[sha]];
    var u := RefreshFlow.Apply(cfg, s, RevokeAll(userId, stamp));
    ReachableIndexed(cfg, s);
    hide RefreshFlow.Run, Indexed, WholeSecond, Stored;
    if row.replacedBy.Some? {
      assert row.revokedAt.Some?;
    }
    RunFollows(cfg, u, actions, sha, row, Skipped(row, s.now));
  }

  lemma ReachableIndexed(cfg: Config, s: State)
    requires Lawful(cfg.json) && RefreshFlow.Reachable(cfg, s)
    ensures Indexed(s.table) && Forward(s.table)
  {
    ReachableInv(cfg, s);
    hide RefreshFlow.Reachable;
  }

  /** So a rotation stamped no earlier than the log-out never succeeds. */
  lemma NoRotationAfterLogout(cfg: Config, s: State, userId: int, stamp: Instant, actions: seq<RefreshFlow.Action>,
                              sha: string, at: Instant)
    requires Lawful(cfg.json) && RefreshFlow.Reachable(cfg, s) && at >= s.now
    requires sha in s.table.bySha && s.table.bySha[sha] in s.table.rows
    requires s.table.rows[s.table.bySha[sha]].token.userId == Some(userId)
    ensures var t := RefreshFlow.Run(cfg, RefreshFlow.Apply(cfg, s, RevokeAll(userId, stamp)), actions);
            !Rotatable(t.table, sha, at)
  {
    RotatableAfterLogout(cfg, s, userId, stamp, actions, sha, at);
  }

  // ---------------------------------------------------------------------------
  // A refresh that took its time before the expiry outlives the log-out
  // ---------------------------------------------------------------------------

  /** A request that loaded the token in time wins its rotation although the log-out
      came first, and its new token is good from then on. */
  lemma SkippedTokenIsRotated(cfg: Config, s: State, userId: int, stamp: Instant, id: nat, at: Instant,
                              accessToken: string, value: string)
    requires Indexed(s.table) && id in s.requests && s.requests[id].stage.Loaded? && s.requests[id].ttl >= 1
    requires Rotatable(s.table, s.requests[id].sha, at) && cfg.hash(value) !in s.table.bySha
    requires Skipped(s.table.rows[s.table.bySha[s.requests[id].sha]], s.now)
    ensures var u := RefreshFlow.Apply(cfg, s, RevokeAll(userId, stamp));
            var t := RefreshFlow.Apply(cfg, u, RefreshFlow.Rotation(id, at, accessToken, value));
            && id in t.requests && t.requests[id].stage.Won? && t.requests[id].stage.response.refreshToken == value
            && (forall later :: later < Stored(at + Seconds(s.requests[id].ttl)) ==>
                Rotatable(t.table, cfg.hash(value), later))
  {
    hide Decode, Stored;
  }

  lemma Extend(cfg: Config, s: State, a: RefreshFlow.Action)
    requires RefreshFlow.Reachable(cfg, s)
    ensures RefreshFlow.Reachable(cfg, RefreshFlow.Apply(cfg, s, a))
  {
    hide RefreshFlow.Apply;
    var now, actions :| s == RefreshFlow.Run(cfg, RefreshFlow.Init(now), actions);
    var longer := actions + [a];
    assert longer[..|actions|] == actions;
    assert RefreshFlow.Run(cfg, RefreshFlow.Init(now), longer) == RefreshFlow.Apply(cfg, s, a);
  }

  /** A client presents a token that has not expired at `now`; the request is slow, and
      the token's expiry passes before it rotates. */
  lemma SlowRefresh(cfg: Config, now: Instant, token: Token, ttl: int) returns (s: State)
    requires token.sha == cfg.hash(token.value) && now < Stored(token.expiresAt)
    ensures RefreshFlow.Reachable(cfg, s) && s.now == Stored(token.expiresAt)
    ensures s.table == Insert(EMPTY, token).value
    ensures s.requests == map[0 := Request(token.clientId, ttl, token.sha, "", Loaded(NewRow(token)))]
  {
    hide RefreshFlow.Reachable, Stored, WholeSecond;
    s := RefreshFlow.Init(now);
    StartIsReachable(cfg, now);
    Extend(cfg, s, Grant(token, false));
    s := RefreshFlow.Apply(cfg, s, Grant(token, false));
    Extend(cfg, s, Start(0, token.clientId, ttl, token.value, ""));
    s := RefreshFlow.Apply(cfg, s, Start(0, token.clientId, ttl, token.value, ""));
    Extend(cfg, s, CheckReplay(0));
    s := RefreshFlow.Apply(cfg, s, CheckReplay(0));
    Extend(cfg, s, Load(0));
    s := RefreshFlow.Apply(cfg, s, Load(0));
    Extend(cfg, s, Tick(Stored(token.expiresAt) - now));
    s := RefreshFlow.Apply(cfg, s, Tick(Stored(token.expiresAt) - now));
  }

  lemma StartIsReachable(cfg: Config, now: Instant)
    ensures RefreshFlow.Reachable(cfg, RefreshFlow.Init(now))
  {
    assert RefreshFlow.Run(cfg, RefreshFlow.Init(now), []) == RefreshFlow.Init(now);
  }

  /** For every token and every time before its expiry there is a run in which the
      token's user logs out everywhere and a refresh that took that time still yields
      a new refresh token. */
  lemma RefreshOutlivesLogout(cfg: Config, now: Instant, token: Token, userId: int, ttl: int, accessToken: string,
                              value: string) returns (s: State, t: State)
    requires token.sha == cfg.hash(token.value) != cfg.hash(value) && now < Stored(token.expiresAt)
    requires token.userId == Some(userId) && ttl >= 1
    ensures RefreshFlow.Reachable(cfg, s) && s.table.bySha.Keys == {token.sha}
    ensures t == RefreshFlow.Apply(cfg, RefreshFlow.Apply(cfg, s, RevokeAll(userId, s.now)),
                                   RefreshFlow.Rotation(0, now, accessToken, value))
    ensures RefreshFlow.Reachable(cfg, t) && 0 in t.requests && t.requests[0].stage.Won?
    ensures forall later :: later < Stored(now + Seconds(ttl)) ==> Rotatable(t.table, cfg.hash(value), later)
  {
    hide RefreshFlow.Reachable, RefreshFlow.Apply, Stored;
    s := SlowRefresh(cfg, now, token, ttl);
    SkippedTokenIsRotated(cfg, s, userId, s.now, 0, now, accessToken, value);
    Extend(cfg, s, RevokeAll(userId, s.now));
    t := RefreshFlow.Apply(cfg, s, RevokeAll(userId, s.now));
    Extend(cfg, t, RefreshFlow.Rotation(0, now, accessToken, value));
    t := RefreshFlow.Apply(cfg, t, RefreshFlow.Rotation(0, now, accessToken, value));
  }
}
