/** Refresh tokens one after the other: the token of every response can be exchanged in
    its turn. */
module RefreshChains {
  import opened Clock
  import opened Wrappers
  import opened Scopes
  import opened RefreshTokens
  import opened RefreshFlow

  /** Hashes are never empty. */
  ghost predicate Hashing(cfg: Config)
  {
    forall value :: cfg.hash(value) != ""
  }

  // ---------------------------------------------------------------------------
  // Successors and the cache
  // ---------------------------------------------------------------------------

  /** The token that replaced `sha` is the one of the response, under its own hash and
      with the scopes of the response. */
  predicate Issued(cfg: Config, t: Table, sha: string, response: Response)
  {
    && sha in t.bySha && t.bySha[sha] in t.rows
    && var next := cfg.hash(response.refreshToken);
       && next in t.bySha && t.bySha[next] in t.rows
       && t.rows[t.bySha[sha]].replacedBy == Some(t.bySha[next])
       && Decode(cfg.json, t.rows[t.bySha[next]].token.scopesJson) == response.scopes
  }

  predicate IssuedOk(cfg: Config, s: State)
  {
    forall sha :: sha in s.issued ==> Issued(cfg, s.table, sha, s.issued[sha])
  }

  /** Redis knows only tokens of the table. */
  predicate CachedOk(s: State)
  {
    s.cache.tokens.Keys <= s.table.bySha.Keys
  }

  lemma IssuedStays(cfg: Config, t: Table, u: Table, sha: string, response: Response)
    requires Issued(cfg, t, sha, response) && Evolves(t, u)
    ensures Issued(cfg, u, sha, response)
  {
    hide Decode;
  }

  lemma RotationIssues(cfg: Config, s: State, id: nat, at: Instant, accessToken: string, value: string)
    requires Lawful(cfg.json) && Indexed(s.table) && id in s.requests && s.requests[id].stage.Loaded?
    requires IssuedOk(cfg, s)
    ensures IssuedOk(cfg, AfterRotation(cfg, s, id, at, accessToken, value))
  {
    var r := s.requests[id];
    var token := NewToken(cfg, r.clientId, r.ttl, r.stage.row, at, value);
    var rotated := Rotate(s.table, r.sha, at, token);
    if r.ttl > 0 && rotated.Ok? {
      DecodeAfterEncode(cfg.json, Decode(cfg.json, r.stage.row.token.scopesJson));
      RotateEvolves(s.table, r.sha, at, token);
      NewIsIssued(cfg, s.table, r.sha, at, token);
      hide Decode, Rotate, Evolves, Issued, NewToken;
      var u := AfterRotation(cfg, s, id, at, accessToken, value);
      forall sha | sha in u.issued
        ensures Issued(cfg, u.table, sha, u.issued[sha])
      {
        if sha != r.sha {
          IssuedStays(cfg, s.table, u.table, sha, s.issued[sha]);
        }
      }
    }
  }

  lemma NewIsIssued(cfg: Config, t: Table, sha: string, at: Instant, token: Token)
    requires Indexed(t) && Rotate(t, sha, at, token).Ok? && token.sha == cfg.hash(token.value)
    ensures forall accessToken :: Issued(cfg, Rotate(t, sha, at, token).value, sha,
                                         Response(accessToken, token.value, Decode(cfg.json, token.scopesJson)))
  {
    hide Decode, Stored;
  }

  /** Only a winning rotation issues. */
  lemma OthersIssueNothing(cfg: Config, s: State, a: RefreshFlow.Action)
    requires !(a.Rotation? && a.id in s.requests && s.requests[a.id].stage.Loaded?)
    ensures RefreshFlow.Apply(cfg, s, a).issued == s.issued
  {
    hide Check, CacheRotation, Insert, RevokeUser;
  }

  lemma StepIssues(cfg: Config, s: State, a: RefreshFlow.Action)
    requires Lawful(cfg.json) && Indexed(s.table) && IssuedOk(cfg, s)
    ensures IssuedOk(cfg, RefreshFlow.Apply(cfg, s, a))
  {
    if a.Rotation? && a.id in s.requests && s.requests[a.id].stage.Loaded? {
      hide AfterRotation, Indexed, IssuedOk;
      RotationIssues(cfg, s, a.id, a.at, a.accessToken, a.value);
    } else {
      hide RefreshFlow.Apply, Issued, Evolves, Indexed;
      StepEvolves(cfg, s, a);
      OthersIssueNothing(cfg, s, a);
      var u := RefreshFlow.Apply(cfg, s, a);
      forall sha | sha in u.issued
        ensures Issued(cfg, u.table, sha, u.issued[sha])
      {
        IssuedStays(cfg, s.table, u.table, sha, s.issued[sha]);
      }
    }
  }

  lemma CheckKeepsKeys(c: Cache, sha: string, fp: string, now: Instant)
    ensures Check(c, sha, fp, now).1.tokens.Keys == c.tokens.Keys
  {
  }

  lemma KeysStay(t: Table, u: Table)
    requires Evolves(t, u)
    ensures t.bySha.Keys <= u.bySha.Keys
  {
  }

  /** A winner's new token is in the table. */
  lemma WonIsStored(cfg: Config, s: State, id: nat)
    requires RefreshFlow.Inv(cfg, s) && IssuedOk(cfg, s) && id in s.requests && s.requests[id].stage.Won?
    ensures cfg.hash(s.requests[id].stage.response.refreshToken) in s.table.bySha
    ensures s.requests[id].sha in s.table.bySha
  {
    InvFor(cfg, s, id);
    hide RefreshFlow.Inv, Decode;
  }

  /** What a step adds to the cache is the token of a grant or of a winner. */
  lemma CacheGrows(cfg: Config, s: State, a: RefreshFlow.Action, sha: string)
    requires sha in RefreshFlow.Apply(cfg, s, a).cache.tokens && sha !in s.cache.tokens
    ensures || (a.Grant? && sha == a.token.sha && Insert(s.table, a.token).Ok?)
            || (&& a.StoreGrace? && a.id in s.requests && s.requests[a.id].stage.Won?
                && sha == cfg.hash(s.requests[a.id].stage.response.refreshToken))
  {
    hide Check, Insert, RevokeUser, Rotate, NewToken, Rotatable, WholeSecond, Decode;
    if (a.CheckReplay? || a.RetryReplay?) && a.id in s.requests {
      CheckKeepsKeys(s.cache, s.requests[a.id].sha, s.requests[a.id].fp, s.now);
    }
  }

  lemma StepCaches(cfg: Config, s: State, a: RefreshFlow.Action)
    requires Lawful(cfg.json) && RefreshFlow.Inv(cfg, s) && IssuedOk(cfg, s) && CachedOk(s)
    ensures CachedOk(RefreshFlow.Apply(cfg, s, a))
  {
    var u := RefreshFlow.Apply(cfg, s, a);
    assert Indexed(s.table);
    StepEvolves(cfg, s, a);
    KeysStay(s.table, u.table);
    if a.Grant? {
      hide RefreshFlow.Inv, IssuedOk, Indexed, Evolves;
    } else {
      hide RefreshFlow.Inv, RefreshFlow.Apply, IssuedOk, Indexed, Evolves;
      forall sha | sha in u.cache.tokens
        ensures sha in u.table.bySha
      {
        if sha !in s.cache.tokens {
          CacheGrows(cfg, s, a, sha);
          WonIsStored(cfg, s, a.id);
        }
      }
    }
  }

  lemma {:induction false} RunKeepsChains(cfg: Config, now: Instant, actions: seq<RefreshFlow.Action>)
    requires Lawful(cfg.json)
    ensures var s := RefreshFlow.Run(cfg, RefreshFlow.Init(now), actions);
            RefreshFlow.Inv(cfg, s) && IssuedOk(cfg, s) && CachedOk(s)
  {
    RefreshFlow.RunKeeps(cfg, RefreshFlow.Init(now), actions);
    if actions != [] {
      RunKeepsChains(cfg, now, actions[..|actions| - 1]);
      var s := RefreshFlow.Run(cfg, RefreshFlow.Init(now), actions[..|actions| - 1]);
      assert Indexed(s.table);
      hide RefreshFlow.Apply, RefreshFlow.Inv, IssuedOk, CachedOk, Indexed;
      StepIssues(cfg, s, actions[|actions| - 1]);
      StepCaches(cfg, s, actions[|actions| - 1]);
    }
  }

  lemma ReachableChains(cfg: Config, s: State)
    requires Lawful(cfg.json) && RefreshFlow.Reachable(cfg, s)
    ensures RefreshFlow.Inv(cfg, s) && IssuedOk(cfg, s) && CachedOk(s) && Indexed(s.table)
  {
    var now, actions :| s == RefreshFlow.Run(cfg, RefreshFlow.Init(now), actions);
    RunKeepsChains(cfg, now, actions);
  }

  // ---------------------------------------------------------------------------
  // A whole request
  // ---------------------------------------------------------------------------

  /** A refresh request that nothing interrupts. */
  function Exchange(cfg: Config, s: State, id: nat, clientId: int, ttl: int, presented: string, fp: string, at: Instant,
                    accessToken: string, value: string): State
  {
    var s1 := RefreshFlow.Apply(cfg, s, Start(id, clientId, ttl, presented, fp));
    var s2 := RefreshFlow.Apply(cfg, s1, CheckReplay(id));
    var s3 := RefreshFlow.Apply(cfg, s2, Load(id));
    var s4 := RefreshFlow.Apply(cfg, s3, RefreshFlow.Rotation(id, at, accessToken, value));
    RefreshFlow.Apply(cfg, s4, StoreGrace(id, true))
  }

  lemma Loads(cfg: Config, s: State, id: nat, clientId: int, ttl: int, presented: string, fp: string)
    requires id !in s.requests
    ensures var s1 := RefreshFlow.Apply(cfg, s, Start(id, clientId, ttl, presented, fp));
            var s3 := RefreshFlow.Apply(cfg, RefreshFlow.Apply(cfg, s1, CheckReplay(id)), Load(id));
            var sha := cfg.hash(presented);
            && s3.table == s.table && s3.now == s.now && id in s3.requests
            && if Replayable(s.cache, sha, fp, s.now) then s3.requests[id].stage == Returned(s.cache.grace[sha])
               else if Admitted(s.cache, sha) && Unused(s.table, sha, clientId, WholeSecond(s.now))
               then s3.cache == s.cache
                    && s3.requests[id] == Request(clientId, ttl, sha, fp, Loaded(s.table.rows[s.table.bySha[sha]]))
               else s3.requests[id].stage == Refused
  {
    CheckAnswers(s.cache, cfg.hash(presented), fp, s.now);
    hide Check, Admitted, WholeSecond;
  }

  lemma Rotates(cfg: Config, s: State, id: nat, at: Instant, accessToken: string, value: string)
    requires id in s.requests && s.requests[id].stage.Loaded? && s.requests[id].ttl > 0
    requires s.requests[id].sha in s.table.bySha && s.table.bySha[s.requests[id].sha] in s.table.rows
    requires s.table.rows[s.table.bySha[s.requests[id].sha]] == s.requests[id].stage.row
    requires s.requests[id].stage.row.token.clientId == s.requests[id].clientId
    ensures var t := RefreshFlow.Apply(cfg, RefreshFlow.Apply(cfg, s, RefreshFlow.Rotation(id, at, accessToken, value)),
                                       StoreGrace(id, true));
            var r := s.requests[id];
            id in t.requests
            && if Unused(s.table, r.sha, r.clientId, at) && cfg.hash(value) !in s.table.bySha
               then t.requests[id].stage
                    == Returned(Response(accessToken, value, Decode(cfg.json, r.stage.row.token.scopesJson)))
               else t.requests[id].stage == Lost
  {
    hide Decode, CacheRotation, Stored;
  }

  /** In every reachable state the refresh token of a returned response is stored, and a
      new request of its client that nothing interrupts exchanges it, for a new token with
      the same scopes, exactly if the replay check lets it through and it is unused at both
      times. */
  lemma ReturnedTokenIsExchanged(cfg: Config, s: State, a: nat, id: nat, ttl: int, fp: string, at: Instant,
                                 accessToken: string, value: string)
    requires Lawful(cfg.json) && RefreshFlow.Reachable(cfg, s) && id !in s.requests && ttl > 0
    requires a in s.requests && s.requests[a].stage.Returned? && cfg.hash(value) !in s.table.bySha
    ensures var response := s.requests[a].stage.response;
            var sha := cfg.hash(response.refreshToken);
            && sha in s.table.bySha && s.table.bySha[sha] in s.table.rows
            && var clientId := s.table.rows[s.table.bySha[sha]].token.clientId;
               var t := Exchange(cfg, s, id, clientId, ttl, response.refreshToken, fp, at, accessToken, value);
               && id in t.requests
               && (t.requests[id].stage == Returned(Response(accessToken, value, response.scopes))
                   <==> && Admitted(s.cache, sha)
                        && Unused(s.table, sha, clientId, WholeSecond(s.now)) && Unused(s.table, sha, clientId, at))
  {
    ReachableChains(cfg, s);
    InvFor(cfg, s, a);
    var response := s.requests[a].stage.response;
    var sha := cfg.hash(response.refreshToken);
    assert Issued(cfg, s.table, s.requests[a].sha, response);
    var clientId := s.table.rows[s.table.bySha[sha]].token.clientId;
    if Replayable(s.cache, sha, fp, s.now) {
      assert Issued(cfg, s.table, sha, s.cache.grace[sha]);
      ReplayIsNotAdmitted(s.cache, sha, fp, s.now);
    }
    hide RefreshFlow.Reachable, RefreshFlow.Inv, RefreshFlow.Apply, IssuedOk, CachedOk, Decode, Admitted, Replayable;
    hide Indexed, Linked, Provenance, CacheOk, LedgerOk;
    Loads(cfg, s, id, clientId, ttl, response.refreshToken, fp);
    var s1 := RefreshFlow.Apply(cfg, s, Start(id, clientId, ttl, response.refreshToken, fp));
    var s3 := RefreshFlow.Apply(cfg, RefreshFlow.Apply(cfg, s1, CheckReplay(id)), Load(id));
    if s3.requests[id].stage.Loaded? {
      Rotates(cfg, s3, id, at, accessToken, value);
    } else {
      StaysEnded(cfg, s3, id, at, accessToken, value);
    }
  }

  lemma ReplayIsNotAdmitted(c: Cache, sha: string, fp: string, now: Instant)
    requires Replayable(c, sha, fp, now)
    ensures !Admitted(c, sha)
  {
  }

  lemma StaysEnded(cfg: Config, s: State, id: nat, at: Instant, accessToken: string, value: string)
    requires id in s.requests && (s.requests[id].stage.Refused? || s.requests[id].stage.Returned?)
    ensures RefreshFlow.Apply(cfg, RefreshFlow.Apply(cfg, s, RefreshFlow.Rotation(id, at, accessToken, value)),
                              StoreGrace(id, true)) == s
  {
    hide AfterRotation, AfterStore;
  }

  /** Straight after a request wins, whether or not its response could be kept, its new
      token is let through and unused until it expires: for every reachable state and
      every winner the next exchange succeeds. */
  lemma WinnerIsFollowed(cfg: Config, s: State, id: nat, at: Instant, accessToken: string, value: string, ok: bool,
                         t: Instant)
    requires Lawful(cfg.json) && Hashing(cfg) && RefreshFlow.Reachable(cfg, s)
    requires id in s.requests && s.requests[id].stage.Loaded? && s.requests[id].ttl > 0 && s.requests[id].sha != ""
    requires Unused(s.table, s.requests[id].sha, s.requests[id].clientId, at) && cfg.hash(value) !in s.table.bySha
    requires t < Stored(at + Seconds(s.requests[id].ttl))
    ensures var u := RefreshFlow.Apply(cfg, s, RefreshFlow.Rotation(id, at, accessToken, value));
            var v := RefreshFlow.Apply(cfg, u, StoreGrace(id, ok));
            && id in v.requests && v.requests[id].stage.Returned? && v.requests[id].stage.response.refreshToken == value
            && Admitted(v.cache, cfg.hash(value)) && Unused(v.table, cfg.hash(value), s.requests[id].clientId, t)
  {
    ReachableChains(cfg, s);
    NextIsUnused(cfg, s, id, at, accessToken, value, t);
    hide RefreshFlow.Reachable, RefreshFlow.Inv, IssuedOk, Rotate, Unused, NewToken, Decode;
    var r := s.requests[id];
    assert cfg.hash(value) !in s.cache.tokens;
    assert cfg.hash(value) != "" && r.sha != "";
  }

  lemma NextIsUnused(cfg: Config, s: State, id: nat, at: Instant, accessToken: string, value: string, t: Instant)
    requires Indexed(s.table) && id in s.requests && s.requests[id].stage.Loaded? && s.requests[id].ttl > 0
    requires Unused(s.table, s.requests[id].sha, s.requests[id].clientId, at) && cfg.hash(value) !in s.table.bySha
    requires t < Stored(at + Seconds(s.requests[id].ttl))
    ensures var u := RefreshFlow.Apply(cfg, s, RefreshFlow.Rotation(id, at, accessToken, value));
            && u.cache == s.cache && id in u.requests && u.requests[id].sha == s.requests[id].sha
            && u.requests[id].stage.Won? && u.requests[id].stage.response.refreshToken == value
            && Unused(u.table, cfg.hash(value), s.requests[id].clientId, t)
  {
    hide Decode, Stored, AfterCheck, AfterLoad, AfterStore, RevokeUser, Check;
  }

  // ---------------------------------------------------------------------------
  // Families
  // ---------------------------------------------------------------------------

  /** Every family in Redis is named after one of these tokens. */
  predicate FamiliesIn(c: Cache, shas: set<string>)
  {
    && (forall sha :: sha in c.tokens ==> Family(c.tokens[sha], sha) in shas)
    && c.revoked <= shas
  }

  lemma CheckKeepsFamilies(c: Cache, shas: set<string>, sha: string, fp: string, now: Instant)
    requires FamiliesIn(c, shas)
    ensures FamiliesIn(Check(c, sha, fp, now).1, shas)
  {
  }

  lemma RotationKeepsFamilies(c: Cache, shas: set<string>, sha: string, newSha: string, fp: string, now: Instant,
                              response: Response)
    requires FamiliesIn(c, shas) && newSha in shas && sha in shas
    ensures FamiliesIn(CacheRotation(c, sha, newSha, fp, now, response), shas)
  {
    hide Unix;
  }

  lemma TableGrows(cfg: Config, s: State, a: RefreshFlow.Action)
    requires RefreshFlow.Inv(cfg, s)
    ensures s.table.bySha.Keys <= RefreshFlow.Apply(cfg, s, a).table.bySha.Keys
  {
    assert Indexed(s.table);
    hide RefreshFlow.Inv, RefreshFlow.Apply, Evolves, Indexed;
    StepEvolves(cfg, s, a);
    KeysStay(s.table, RefreshFlow.Apply(cfg, s, a).table);
  }

  lemma MoreNames(c: Cache, shas: set<string>, more: set<string>)
    requires FamiliesIn(c, shas) && shas <= more
    ensures FamiliesIn(c, more)
  {
  }

  lemma CheckCache(cfg: Config, s: State, a: RefreshFlow.Action)
    requires (a.CheckReplay? || a.RetryReplay?) && a.id in s.requests
    ensures var u, r := RefreshFlow.Apply(cfg, s, a), s.requests[a.id];
            u.cache == s.cache || u.cache == Check(s.cache, r.sha, r.fp, s.now).1
  {
    hide Check;
  }

  lemma GrantCache(cfg: Config, s: State, a: RefreshFlow.Action)
    requires (a.Grant? || a.Evict?) && FamiliesIn(s.cache, s.table.bySha.Keys)
    ensures FamiliesIn(RefreshFlow.Apply(cfg, s, a).cache, RefreshFlow.Apply(cfg, s, a).table.bySha.Keys)
  {
  }

  lemma StepFamilies(cfg: Config, s: State, a: RefreshFlow.Action)
    requires RefreshFlow.Inv(cfg, s) && IssuedOk(cfg, s) && FamiliesIn(s.cache, s.table.bySha.Keys)
    ensures FamiliesIn(RefreshFlow.Apply(cfg, s, a).cache, RefreshFlow.Apply(cfg, s, a).table.bySha.Keys)
  {
    hide RefreshFlow.Inv, RefreshFlow.Apply, IssuedOk, FamiliesIn, Check, CacheRotation;
    var u, shas := RefreshFlow.Apply(cfg, s, a), s.table.bySha.Keys;
    TableGrows(cfg, s, a);
    if (a.CheckReplay? || a.RetryReplay?) && a.id in s.requests {
      CheckCache(cfg, s, a);
      CheckKeepsFamilies(s.cache, shas, s.requests[a.id].sha, s.requests[a.id].fp, s.now);
      MoreNames(u.cache, shas, u.table.bySha.Keys);
    } else if a.StoreGrace? && a.id in s.requests && s.requests[a.id].stage.Won? {
      WonIsStored(cfg, s, a.id);
      StoreCache(cfg, s, a.id, a.ok, shas);
      MoreNames(u.cache, shas, u.table.bySha.Keys);
    } else if a.Grant? || a.Evict? {
      GrantCache(cfg, s, a);
    } else {
      OtherCacheSteps(cfg, s, a);
      MoreNames(u.cache, shas, u.table.bySha.Keys);
    }
  }

  lemma StoreCache(cfg: Config, s: State, id: nat, ok: bool, shas: set<string>)
    requires id in s.requests && s.requests[id].stage.Won? && FamiliesIn(s.cache, shas) && s.requests[id].sha in shas
    requires cfg.hash(s.requests[id].stage.response.refreshToken) in shas
    ensures FamiliesIn(RefreshFlow.Apply(cfg, s, StoreGrace(id, ok)).cache, shas)
  {
    hide FamiliesIn, CacheRotation;
    var r := s.requests[id];
    RotationKeepsFamilies(s.cache, shas, r.sha, cfg.hash(r.stage.response.refreshToken), r.fp, s.now, r.stage.response);
  }

  lemma OtherCacheSteps(cfg: Config, s: State, a: RefreshFlow.Action)
    requires !a.Grant? && !a.Evict?
    requires (a.CheckReplay? || a.RetryReplay?) ==> a.id !in s.requests
    requires a.StoreGrace? ==> !(a.id in s.requests && s.requests[a.id].stage.Won?)
    ensures RefreshFlow.Apply(cfg, s, a).cache == s.cache
  {
    hide Rotate, NewToken, Rotatable, RevokeUser, WholeSecond, Decode, Check, CacheRotation;
  }

  lemma {:induction false} RunKeepsFamilies(cfg: Config, now: Instant, actions: seq<RefreshFlow.Action>)
    requires Lawful(cfg.json)
    ensures var s := RefreshFlow.Run(cfg, RefreshFlow.Init(now), actions); FamiliesIn(s.cache, s.table.bySha.Keys)
  {
    if actions != [] {
      RunKeepsFamilies(cfg, now, actions[..|actions| - 1]);
      RunKeepsChains(cfg, now, actions[..|actions| - 1]);
      hide RefreshFlow.Apply, RefreshFlow.Inv, IssuedOk, CachedOk, FamiliesIn;
      StepFamilies(cfg, RefreshFlow.Run(cfg, RefreshFlow.Init(now), actions[..|actions| - 1]), actions[|actions| - 1]);
    }
  }

  /** In every reachable state a first refresh token, whether or not Redis learns of it, is
      let through and unused until it expires. */
  lemma GrantIsFollowed(cfg: Config, s: State, token: Token, cached: bool, t: Instant)
    requires Lawful(cfg.json) && RefreshFlow.Reachable(cfg, s) && token.sha !in s.table.bySha
    ensures var u := RefreshFlow.Apply(cfg, s, RefreshFlow.Grant(token, cached));
            && Admitted(u.cache, token.sha)
            && (Unused(u.table, token.sha, token.clientId, t) <==> t < Stored(token.expiresAt))
  {
    hide RefreshFlow.Run, RefreshFlow.Inv, IssuedOk, Stored, Indexed;
    ReachableChains(cfg, s);
    var now, actions :| s == RefreshFlow.Run(cfg, RefreshFlow.Init(now), actions);
    RunKeepsFamilies(cfg, now, actions);
  }

  // ---------------------------------------------------------------------------
  // Replays
  // ---------------------------------------------------------------------------

  lemma WonIsNew(cfg: Config, s: State, id: nat)
    requires RefreshFlow.Inv(cfg, s) && IssuedOk(cfg, s) && id in s.requests && s.requests[id].stage.Won?
    ensures cfg.hash(s.requests[id].stage.response.refreshToken) != s.requests[id].sha
  {
    InvFor(cfg, s, id);
    assert Linked(s.table);
    hide RefreshFlow.Inv, Decode, Injective;
  }

  lemma KeepsResponse(cfg: Config, s: State, id: nat, elapsed: nat)
    requires id in s.requests && s.requests[id].stage.Won?
    ensures var r := s.requests[id];
            var u := RefreshFlow.Apply(cfg, RefreshFlow.Apply(cfg, s, StoreGrace(id, true)), Tick(elapsed));
            && u.cache == CacheRotation(s.cache, r.sha, cfg.hash(r.stage.response.refreshToken), r.fp, s.now,
                                        r.stage.response)
            && u.now == s.now + elapsed && u.requests.Keys == s.requests.Keys
  {
    hide CacheRotation;
  }

  lemma StartsChecked(cfg: Config, s: State, id: nat, clientId: int, ttl: int, presented: string, fp: string)
    requires id !in s.requests
    ensures var u := RefreshFlow.Apply(cfg, RefreshFlow.Apply(cfg, s, Start(id, clientId, ttl, presented, fp)),
                                       CheckReplay(id));
            && id in u.requests
            && u.requests[id].stage == match Check(s.cache, cfg.hash(presented), fp, s.now).0
                                       case Proceed => Checked
                                       case Grace(response) => Returned(response)
                                       case Reject => Refused
  {
    hide Check;
  }

  lemma Replays(cfg: Config, s: State, id: nat, elapsed: nat, next: nat, clientId: int, ttl: int, presented: string,
                fp: string)
    requires id in s.requests && s.requests[id].stage.Won? && next !in s.requests
    requires cfg.hash(s.requests[id].stage.response.refreshToken) != s.requests[id].sha
    requires var r := s.requests[id];
             && r.sha == cfg.hash(presented) != "" && r.sha in s.cache.tokens && s.cache.tokens[r.sha].status.Active?
             && Admitted(s.cache, r.sha)
    ensures var kept := RefreshFlow.Apply(cfg, RefreshFlow.Apply(cfg, s, StoreGrace(id, true)), Tick(elapsed));
            var u := RefreshFlow.Apply(cfg, RefreshFlow.Apply(cfg, kept, Start(next, clientId, ttl, presented, fp)),
                                       CheckReplay(next));
            && next in u.requests
            && u.requests[next].stage
               == if Unix(s.now + elapsed) <= Unix(s.now) + 10 && (s.requests[id].fp == "" || s.requests[id].fp == fp)
                  then Returned(s.requests[id].stage.response) else Refused
  {
    hide RefreshFlow.Apply, Unix, Check, CacheRotation;
    KeepsResponse(cfg, s, id, elapsed);
    StartsChecked(cfg, RefreshFlow.Apply(cfg, RefreshFlow.Apply(cfg, s, StoreGrace(id, true)), Tick(elapsed)), next,
                  clientId, ttl, presented, fp);
    var r := s.requests[id];
    ReplayOrRevoke(s.cache, r.sha, cfg.hash(r.stage.response.refreshToken), r.fp, s.now, r.stage.response, fp,
                   s.now + elapsed);
  }

  /** In every reachable state, once the response of a rotation has been kept, a second
      request with the token gets that same response if it comes within ten seconds with
      the same fingerprint, and is refused otherwise. */
  lemma KeptResponseIsReplayed(cfg: Config, s: State, id: nat, elapsed: nat, next: nat, clientId: int, ttl: int,
                               presented: string, fp: string)
    requires Lawful(cfg.json) && RefreshFlow.Reachable(cfg, s)
    requires id in s.requests && s.requests[id].stage.Won? && next !in s.requests
    requires var r := s.requests[id];
             && r.sha == cfg.hash(presented) != "" && r.sha in s.cache.tokens && s.cache.tokens[r.sha].status.Active?
             && Admitted(s.cache, r.sha)
    ensures var kept := RefreshFlow.Apply(cfg, RefreshFlow.Apply(cfg, s, StoreGrace(id, true)), Tick(elapsed));
            var u := RefreshFlow.Apply(cfg, RefreshFlow.Apply(cfg, kept, Start(next, clientId, ttl, presented, fp)),
                                       CheckReplay(next));
            && next in u.requests
            && u.requests[next].stage
               == if Unix(s.now + elapsed) <= Unix(s.now) + 10 && (s.requests[id].fp == "" || s.requests[id].fp == fp)
                  then Returned(s.requests[id].stage.response) else Refused
  {
    hide RefreshFlow.Reachable, RefreshFlow.Inv, RefreshFlow.Apply, IssuedOk, CachedOk, Unix, Indexed, Admitted;
    ReachableChains(cfg, s);
    WonIsNew(cfg, s, id);
    Replays(cfg, s, id, elapsed, next, clientId, ttl, presented, fp);
  }
}
