/** Concurrent refresh requests over the token table and its Redis side: the replay
    check, the database rotation and the cached grace response. Requests interleave
    between these commands, a request may fail after any of them, and Redis may lose
    any key at any time. */
module RefreshFlow {
  import opened Clock
  import opened RefreshTokens
  import opened Scopes

  datatype Response = Response(accessToken: string, refreshToken: string, scopes: seq<string>)

  datatype Status = Active | Rotated | Compromised

  /** The Redis hash of one refresh token. */
  datatype Cached = Cached(status: Status, family: string, graceUntil: int, bindFp: string)

  /** `grace` holds the responses kept for replays, `revoked` the revoked families. */
  datatype Cache = Cache(tokens: map<string, Cached>, grace: map<string, Response>, revoked: set<string>)

  datatype Verdict = Proceed | Grace(response: Response) | Reject

  function Family(entry: Cached, sha: string): string
  {
    if entry.family == "" then sha else entry.family
  }

  /** The replay check script. */
  function Check(c: Cache, sha: string, fp: string, now: Instant): (Verdict, Cache)
  {
    if sha !in c.tokens then (Proceed, c)
    else
      var entry := c.tokens[sha];
      var family := Family(entry, sha);
      if family in c.revoked then (Reject, c)
      else match entry.status
        case Active => (Proceed, c)
        case Compromised => (Reject, c)
        case Rotated =>
          if Unix(now) <= entry.graceUntil && (entry.bindFp == "" || entry.bindFp == fp) then
            (if sha in c.grace then Grace(c.grace[sha]) else Reject, c)
          else
            (Reject, c.(tokens := c.tokens[sha := entry.(status := Compromised)], revoked := c.revoked + {family}))
  }

  const GRACE_SECONDS := 10

  /** The rotation script; it leaves the cache alone unless the old entry is active. */
  function CacheRotation(c: Cache, sha: string, newSha: string, fp: string, now: Instant, response: Response): Cache
  {
    if sha !in c.tokens || !c.tokens[sha].status.Active? || Family(c.tokens[sha], sha) in c.revoked then c
    else
      var family := Family(c.tokens[sha], sha);
      Cache(c.tokens[sha := Cached(Rotated, family, Unix(now) + GRACE_SECONDS, fp)]
                    [newSha := Cached(Active, family, 0, "")],
            c.grace[sha := response],
            c.revoked)
  }

  datatype Config = Config(hash: string -> string, json: Json)

  datatype Stage =
    | Started
    | Checked
    | Loaded(row: Row)
    | Won(response: Response)
    | Lost
    | Returned(response: Response)
    | AccessOnly(accessToken: string)
    | Refused

  /** A refresh request of client `clientId`, whose refresh tokens live `ttl` seconds. */
  datatype Request = Request(clientId: int, ttl: int, sha: string, fp: string, stage: Stage)

  /** `issued` is bookkeeping: the response of the rotation of each replaced token. */
  datatype State = State(now: Instant, table: Table, cache: Cache, requests: map<nat, Request>,
                         issued: map<string, Response>)

  datatype Action =
    | Tick(elapsed: nat)
    | Grant(token: Token, cached: bool)
    | RevokeAll(userId: int, at: Instant)
    | Start(id: nat, clientId: int, ttl: int, presented: string, fp: string)
    | CheckReplay(id: nat)
    | Load(id: nat)
    | Rotation(id: nat, at: Instant, accessToken: string, value: string)
    | StoreGrace(id: nat, ok: bool)
    | RetryReplay(id: nat)
    | Abandon(id: nat)
    | Evict(tokens: set<string>, grace: set<string>, families: set<string>)

  function Init(now: Instant): State
  {
    State(now, EMPTY, Cache(map[], map[], {}), map[], map[])
  }

  function Moved(s: State, id: nat, stage: Stage): State
    requires id in s.requests
  {
    s.(requests := s.requests[id := s.requests[id].(stage := stage)])
  }

  /** What a request does with the verdict of the replay check; `otherwise` is where
      it goes when nothing was decided. */
  function AfterCheck(s: State, id: nat, otherwise: Stage): State
    requires id in s.requests
  {
    var r := s.requests[id];
    var (verdict, cache) := Check(s.cache, r.sha, r.fp, s.now);
    var next := match verdict
                case Proceed => otherwise
                case Grace(response) => Returned(response)
                case Reject => Refused;
    Moved(s.(cache := cache), id, next)
  }

  function AfterLoad(s: State, id: nat): State
    requires id in s.requests
  {
    var r := s.requests[id];
    if Rotatable(s.table, r.sha, WholeSecond(s.now)) && s.table.rows[s.table.bySha[r.sha]].token.clientId == r.clientId
    then Moved(s, id, Loaded(s.table.rows[s.table.bySha[r.sha]]))
    else Moved(s, id, Refused)
  }

  function NewToken(cfg: Config, clientId: int, ttl: int, row: Row, at: Instant, value: string): Token
  {
    Token(value, cfg.hash(value), clientId, row.token.userId, row.token.subject,
          cfg.json.encode(Decode(cfg.json, row.token.scopesJson)), at, at + Seconds(ttl))
  }

  /** Issues the access token and, when the client has refresh tokens, rotates. */
  function AfterRotation(cfg: Config, s: State, id: nat, at: Instant, accessToken: string, value: string): State
    requires id in s.requests && s.requests[id].stage.Loaded?
  {
    var r := s.requests[id];
    if r.ttl <= 0 then Moved(s, id, AccessOnly(accessToken))
    else match Rotate(s.table, r.sha, at, NewToken(cfg, r.clientId, r.ttl, r.stage.row, at, value))
      case Err(_) => Moved(s, id, Lost)
      case Ok(table) =>
        var response := Response(accessToken, value, Decode(cfg.json, r.stage.row.token.scopesJson));
        Moved(s.(table := table, issued := s.issued[r.sha := response]), id, Won(response))
  }

  /** Keeps the response for replays and returns it; a failure to keep it is ignored. */
  function AfterStore(cfg: Config, s: State, id: nat, ok: bool): State
    requires id in s.requests && s.requests[id].stage.Won?
  {
    var r := s.requests[id];
    var response := r.stage.response;
    var cache := if ok then CacheRotation(s.cache, r.sha, cfg.hash(response.refreshToken), r.fp, s.now, response)
                 else s.cache;
    Moved(s.(cache := cache), id, Returned(response))
  }

  function Apply(cfg: Config, s: State, a: Action): State
  {
    match a
    case Tick(elapsed) => s.(now := s.now + elapsed)
    case Grant(token, cached) =>
      (match Insert(s.table, token)
       case Err(_) => s
       case Ok(table) =>
         s.(table := table,
            cache := if cached then s.cache.(tokens := s.cache.tokens[token.sha := Cached(Active, token.sha, 0, "")])
                     else s.cache))
    case RevokeAll(userId, at) => s.(table := RevokeUser(s.table, userId, at, s.now))
    case Start(id, clientId, ttl, presented, fp) =>
      if id in s.requests then s
      else s.(requests := s.requests[id := Request(clientId, ttl, cfg.hash(presented), fp, Started)])
    case CheckReplay(id) =>
      if id in s.requests && s.requests[id].stage.Started? then AfterCheck(s, id, Checked) else s
    case Load(id) =>
      if id in s.requests && s.requests[id].stage.Checked? then AfterLoad(s, id) else s
    case Rotation(id, at, accessToken, value) =>
      if id in s.requests && s.requests[id].stage.Loaded? then AfterRotation(cfg, s, id, at, accessToken, value) else s
    case StoreGrace(id, ok) =>
      if id in s.requests && s.requests[id].stage.Won? then AfterStore(cfg, s, id, ok) else s
    case RetryReplay(id) =>
      if id in s.requests && s.requests[id].stage.Lost? then AfterCheck(s, id, Refused) else s
    case Abandon(id) =>
      if id in s.requests && !s.requests[id].stage.Returned? then Moved(s, id, Refused) else s
    case Evict(tokens, grace, families) =>
      s.(cache := Cache(s.cache.tokens - tokens, s.cache.grace - grace, s.cache.revoked - families))
  }

  function Run(cfg: Config, s: State, actions: seq<Action>): State
  {
    if actions == [] then s
    else Apply(cfg, Run(cfg, s, actions[..|actions| - 1]), actions[|actions| - 1])
  }

  // ---------------------------------------------------------------------------
  // One request on its own
  // ---------------------------------------------------------------------------

  /** All the steps of request 0; those of branches it does not take do nothing. */
  function SoloSteps(clientId: int, ttl: int, presented: string, fp: string, at: Instant, accessToken: string,
                     value: string): seq<Action>
  {
    [Start(0, clientId, ttl, presented, fp), CheckReplay(0), Load(0), Action.Rotation(0, at, accessToken, value),
     StoreGrace(0, true), RetryReplay(0)]
  }

  function Solo(now: Instant, table: Table, cache: Cache): State
  {
    State(now, table, cache, map[], map[])
  }

  function AfterSolo(cfg: Config, s: State, clientId: int, ttl: int, presented: string, fp: string, at: Instant,
                     accessToken: string, value: string): State
  {
    Run(cfg, s, SoloSteps(clientId, ttl, presented, fp, at, accessToken, value))
  }

  /** What a whole request returns and leaves behind. */
  datatype Ending = Ending(outcome: Stage, table: Table, cache: Cache)

  function EndingOf(s: State): Ending
    requires 0 in s.requests
  {
    Ending(s.requests[0].stage, s.table, s.cache)
  }

  /** The same, as one computation. */
  function Exchanged(cfg: Config, now: Instant, table: Table, cache: Cache, r: Request, at: Instant,
                     accessToken: string, value: string): Ending
  {
    var (verdict, checked) := Check(cache, r.sha, r.fp, now);
    match verdict
    case Grace(response) => Ending(Returned(response), table, checked)
    case Reject => Ending(Refused, table, checked)
    case Proceed =>
      if !Rotatable(table, r.sha, WholeSecond(now)) || table.rows[table.bySha[r.sha]].token.clientId != r.clientId
      then Ending(Refused, table, checked)
      else if r.ttl <= 0 then Ending(AccessOnly(accessToken), table, checked)
      else RotatedOrReplayed(cfg, now, table, checked, r, table.rows[table.bySha[r.sha]], at, accessToken, value)
  }

  function RotatedOrReplayed(cfg: Config, now: Instant, table: Table, cache: Cache, r: Request, row: Row, at: Instant,
                             accessToken: string, value: string): Ending
  {
    match Rotate(table, r.sha, at, NewToken(cfg, r.clientId, r.ttl, row, at, value))
    case Ok(rotated) =>
      var response := Response(accessToken, value, Decode(cfg.json, row.token.scopesJson));
      Ending(Returned(response), rotated, CacheRotation(cache, r.sha, cfg.hash(value), r.fp, now, response))
    case Err(_) =>
      var (verdict, again) := Check(cache, r.sha, r.fp, now);
      Ending(if verdict.Grace? then Returned(verdict.response) else Refused, table, again)
  }

  /** The replay check lets the token through: Redis does not know it, or knows it as
      unused, in a family that is not revoked. */
  predicate Admitted(c: Cache, sha: string)
  {
    sha in c.tokens ==> c.tokens[sha].status == Active && Family(c.tokens[sha], sha) !in c.revoked
  }

  /** The token is kept for a replay to this fingerprint. */
  predicate Replayable(c: Cache, sha: string, fp: string, now: Instant)
  {
    && sha in c.tokens && c.tokens[sha].status == Rotated && Family(c.tokens[sha], sha) !in c.revoked
    && Unix(now) <= c.tokens[sha].graceUntil && (c.tokens[sha].bindFp == "" || c.tokens[sha].bindFp == fp)
    && sha in c.grace
  }

  /** The table has the token, of that client, neither revoked nor replaced nor expired
      at `t`. */
  predicate Unused(table: Table, sha: string, clientId: int, t: Instant)
  {
    && sha in table.bySha && table.bySha[sha] in table.rows
    && var row := table.rows[table.bySha[sha]];
       && row.token.clientId == clientId && row.revokedAt.None? && row.replacedBy.None? && t < row.expiresAt
  }

  /** The token endpoint's refresh grant, over its two stores. */
  class TokenService {
    const cfg: Config
    var now: Instant
    var table: Table
    var cache: Cache

    constructor (cfg: Config, now: Instant)
      ensures this.cfg == cfg && this.now == now && table == EMPTY && cache == Cache(map[], map[], {})
    {
      this.cfg, this.now, table, cache := cfg, now, EMPTY, Cache(map[], map[], {});
    }

    /** A whole refresh request ends where the steps of the machine end it. It returns the
        new tokens, with the scopes of the old one, exactly for a token that is let through
        and unused at both times; a kept response exactly to a replay; and nothing else. */
    method ExchangeRefreshToken(clientId: int, ttl: int, presented: string, fp: string, at: Instant,
                                accessToken: string, value: string) returns (outcome: Stage)
      modifies this
      ensures now == old(now)
      ensures var t := AfterSolo(cfg, Solo(old(now), old(table), old(cache)), clientId, ttl, presented, fp, at,
                                 accessToken, value);
              0 in t.requests && Ending(outcome, table, cache) == EndingOf(t)
      ensures var sha := cfg.hash(presented);
              if Replayable(old(cache), sha, fp, now) then outcome == Returned(old(cache).grace[sha])
              else if !Admitted(old(cache), sha) || !Unused(old(table), sha, clientId, WholeSecond(now))
              then outcome == Refused
              else if ttl <= 0 then outcome == AccessOnly(accessToken)
              else if !Unused(old(table), sha, clientId, at) || cfg.hash(value) in old(table).bySha
              then outcome == Refused
              else var scopes := Decode(cfg.json, old(table).rows[old(table).bySha[sha]].token.scopesJson);
                   outcome == Returned(Response(accessToken, value, scopes))
    {
      CheckAnswers(cache, cfg.hash(presented), fp, now);
      hide Check, CacheRotation, Rotate, AfterSolo, Decode, Replayable, Admitted;
      SoloEnding(cfg, Solo(now, table, cache), clientId, ttl, presented, fp, at, accessToken, value);
      var sha := cfg.hash(presented);
      var (verdict, checked) := Check(cache, sha, fp, now);
      cache := checked;
      match verdict {
        case Grace(response) => return Returned(response);
        case Reject => return Refused;
        case Proceed =>
      }
      if !Rotatable(table, sha, WholeSecond(now)) || table.rows[table.bySha[sha]].token.clientId != clientId {
        return Refused;
      }
      var row := table.rows[table.bySha[sha]];
      if ttl <= 0 {
        return AccessOnly(accessToken);
      }
      var token := NewToken(cfg, clientId, ttl, row, at, value);
      match Rotate(table, sha, at, token) {
        case Err(_) =>
          var (second, again) := Check(cache, sha, fp, now);
          cache := again;
          return match second case Grace(response) => Returned(response) case _ => Refused;
        case Ok(rotated) =>
          var response := Response(accessToken, value, Decode(cfg.json, row.token.scopesJson));
          table := rotated;
          cache := CacheRotation(cache, sha, cfg.hash(value), fp, now, response);
          return Returned(response);
      }
    }
  }

  /** What the replay check answers, and when it changes the cache. */
  lemma CheckAnswers(c: Cache, sha: string, fp: string, now: Instant)
    ensures var (verdict, after) := Check(c, sha, fp, now);
            && (verdict == Proceed <==> Admitted(c, sha))
            && (verdict.Grace? <==> Replayable(c, sha, fp, now))
            && (verdict.Grace? ==> verdict.response == c.grace[sha])
            && (verdict == Proceed || verdict.Grace? ==> after == c)
  {
  }

  /** The rotation script acts exactly on an active token of a family that is not revoked;
      then the new token is let through, the old one is replayed for ten seconds to the
      fingerprint it was used with, and no other token is touched. */
  lemma RotationIsCachedExactly(c: Cache, sha: string, newSha: string, fp: string, now: Instant, response: Response)
    requires sha != newSha && sha != ""
    ensures var after, known := CacheRotation(c, sha, newSha, fp, now, response), sha in c.tokens && Admitted(c, sha);
            && (known ==>
                  && newSha in after.tokens && Admitted(after, newSha) && after.revoked == c.revoked
                  && (forall fp2, t :: Replayable(after, sha, fp2, t) <==>
                        Unix(t) <= Unix(now) + 10 && (fp == "" || fp2 == fp))
                  && sha in after.grace && after.grace[sha] == response
                  && forall other :: other != sha && other != newSha ==>
                       && (other in after.tokens <==> other in c.tokens)
                       && (other in c.tokens ==> after.tokens[other] == c.tokens[other]))
            && (!known ==> after == c)
  {
    hide Unix;
  }

  /** A request that has ended takes no further step. */
  lemma Inert(cfg: Config, s: State, a: Action)
    requires 0 in s.requests
    requires (s.requests[0].stage.Returned? || s.requests[0].stage.Refused? || s.requests[0].stage.AccessOnly?)
    requires a == CheckReplay(0) || a == Load(0) || (a.Rotation? && a.id == 0) || a == StoreGrace(0, true)
             || a == RetryReplay(0)
    ensures Apply(cfg, s, a) == s
  {
    hide AfterCheck, AfterLoad, AfterRotation, AfterStore;
  }

  lemma SoloEnding(cfg: Config, s: State, clientId: int, ttl: int, presented: string, fp: string, at: Instant,
                   accessToken: string, value: string)
    requires s.requests == map[]
    ensures var t := AfterSolo(cfg, s, clientId, ttl, presented, fp, at, accessToken, value);
            var r := Request(clientId, ttl, cfg.hash(presented), fp, Started);
            && 0 in t.requests
            && EndingOf(t) == Exchanged(cfg, s.now, s.table, s.cache, r, at, accessToken, value)
  {
    hide Check, CacheRotation, Rotate, AfterSolo, NewToken, Decode, Rotatable;
    SoloRun(cfg, s, clientId, ttl, presented, fp, at, accessToken, value);
    var s1 := Apply(cfg, s, Start(0, clientId, ttl, presented, fp));
    var s2 := Apply(cfg, s1, CheckReplay(0));
    assert s2 == AfterCheck(s1, 0, Checked);
    if s2.requests[0].stage.Checked? {
      SoloLoaded(cfg, s2, at, accessToken, value);
    } else {
      InertAll(cfg, s2, at, accessToken, value);
    }
  }

  lemma InertAll(cfg: Config, s: State, at: Instant, accessToken: string, value: string)
    requires 0 in s.requests
    requires (s.requests[0].stage.Returned? || s.requests[0].stage.Refused? || s.requests[0].stage.AccessOnly?)
    ensures Apply(cfg, s, Load(0)) == Apply(cfg, s, Action.Rotation(0, at, accessToken, value)) == s
    ensures Apply(cfg, s, StoreGrace(0, true)) == Apply(cfg, s, RetryReplay(0)) == s
  {
    hide Apply;
    Inert(cfg, s, Load(0));
    Inert(cfg, s, Action.Rotation(0, at, accessToken, value));
    Inert(cfg, s, StoreGrace(0, true));
    Inert(cfg, s, RetryReplay(0));
  }

  /** The rest of a request that passed the replay check. */
  lemma SoloLoaded(cfg: Config, s: State, at: Instant, accessToken: string, value: string)
    requires 0 in s.requests && s.requests[0].stage.Checked?
    ensures var s3 := Apply(cfg, s, Load(0));
            var s4 := Apply(cfg, s3, Action.Rotation(0, at, accessToken, value));
            var s5 := Apply(cfg, s4, StoreGrace(0, true));
            var t := Apply(cfg, s5, RetryReplay(0));
            var r := s.requests[0];
            && 0 in t.requests
            && EndingOf(t) == if !Rotatable(s.table, r.sha, WholeSecond(s.now))
                                 || s.table.rows[s.table.bySha[r.sha]].token.clientId != r.clientId
                              then Ending(Refused, s.table, s.cache)
                              else if r.ttl <= 0 then Ending(AccessOnly(accessToken), s.table, s.cache)
                              else RotatedOrReplayed(cfg, s.now, s.table, s.cache, r,
                                                     s.table.rows[s.table.bySha[r.sha]], at, accessToken, value)
  {
    hide Check, CacheRotation, Rotate, NewToken, Decode;
    var s3 := Apply(cfg, s, Load(0));
    assert s3 == AfterLoad(s, 0);
    if s3.requests[0].stage.Refused? {
      InertAll(cfg, s3, at, accessToken, value);
    } else {
      SoloRotated(cfg, s3, at, accessToken, value);
    }
  }

  lemma SoloRotated(cfg: Config, s: State, at: Instant, accessToken: string, value: string)
    requires 0 in s.requests && s.requests[0].stage.Loaded?
    ensures var s4 := Apply(cfg, s, Action.Rotation(0, at, accessToken, value));
            var s5 := Apply(cfg, s4, StoreGrace(0, true));
            var t := Apply(cfg, s5, RetryReplay(0));
            var r := s.requests[0];
            && 0 in t.requests
            && EndingOf(t) == if r.ttl <= 0 then Ending(AccessOnly(accessToken), s.table, s.cache)
                              else RotatedOrReplayed(cfg, s.now, s.table, s.cache, r, r.stage.row, at, accessToken,
                                                     value)
  {
    hide Check, CacheRotation, Rotate, NewToken, Decode;
    var s4 := Apply(cfg, s, Action.Rotation(0, at, accessToken, value));
    assert s4 == AfterRotation(cfg, s, 0, at, accessToken, value);
    if s4.requests[0].stage.AccessOnly? {
      InertAll(cfg, s4, at, accessToken, value);
    } else if s4.requests[0].stage.Won? {
      var s5 := AfterStore(cfg, s4, 0, true);
      assert Apply(cfg, s4, StoreGrace(0, true)) == s5;
      InertAll(cfg, s5, at, accessToken, value);
    } else {
      assert Apply(cfg, s4, StoreGrace(0, true)) == s4;
      assert Apply(cfg, s4, RetryReplay(0)) == AfterCheck(s4, 0, Refused);
    }
  }

  lemma SoloRun(cfg: Config, s: State, clientId: int, ttl: int, presented: string, fp: string, at: Instant,
                accessToken: string, value: string)
    ensures var s1 := Apply(cfg, s, Start(0, clientId, ttl, presented, fp));
            var s2 := Apply(cfg, s1, CheckReplay(0));
            var s3 := Apply(cfg, s2, Load(0));
            var s4 := Apply(cfg, s3, Action.Rotation(0, at, accessToken, value));
            var s5 := Apply(cfg, s4, StoreGrace(0, true));
            AfterSolo(cfg, s, clientId, ttl, presented, fp, at, accessToken, value) == Apply(cfg, s5, RetryReplay(0))
  {
    hide Apply;
    var a := SoloSteps(clientId, ttl, presented, fp, at, accessToken, value);
    assert a[..5][..4] == a[..4] && a[..4][..3] == a[..3] && a[..3][..2] == a[..2] && a[..2][..1] == a[..1];
    assert a[..1][..0] == [];
    assert Run(cfg, s, []) == s;
    assert Run(cfg, s, a[..1]) == Apply(cfg, s, a[0]);
    assert Run(cfg, s, a[..2]) == Apply(cfg, Run(cfg, s, a[..1]), a[1]);
    assert Run(cfg, s, a[..3]) == Apply(cfg, Run(cfg, s, a[..2]), a[2]);
    assert Run(cfg, s, a[..4]) == Apply(cfg, Run(cfg, s, a[..3]), a[3]);
    assert Run(cfg, s, a[..5]) == Apply(cfg, Run(cfg, s, a[..4]), a[4]);
  }

  // ---------------------------------------------------------------------------
  // Invariant
  // ---------------------------------------------------------------------------

  /** The two tokens stand for the same grant. */
  predicate SameGrant(cfg: Config, a: Token, b: Token)
  {
    && a.clientId == b.clientId && a.userId == b.userId && a.subject == b.subject
    && Decode(cfg.json, a.scopesJson) == Decode(cfg.json, b.scopesJson)
  }

  predicate Provenance(cfg: Config, t: Table)
  {
    forall id :: id in t.rows && t.rows[id].replacedBy.Some? ==>
      && t.rows[id].replacedBy.value in t.rows
      && SameGrant(cfg, t.rows[id].token, t.rows[t.rows[id].replacedBy.value].token)
  }

  /** The token with hash `sha` was replaced by the token `value`. */
  predicate Succession(t: Table, sha: string, value: string)
  {
    && sha in t.bySha && t.bySha[sha] in t.rows
    && var successor := t.rows[t.bySha[sha]].replacedBy;
       successor.Some? && successor.value in t.rows && t.rows[successor.value].token.value == value
  }

  predicate RequestOk(t: Table, issued: map<string, Response>, r: Request)
  {
    && (r.stage.Loaded? ==>
          && r.sha in t.bySha && t.bySha[r.sha] in t.rows
          && t.rows[t.bySha[r.sha]].token == r.stage.row.token
          && r.stage.row.token.clientId == r.clientId)
    && (r.stage.Won? || r.stage.Returned? ==> r.sha in issued && issued[r.sha] == r.stage.response)
  }

  predicate RequestsOk(s: State)
  {
    forall id :: id in s.requests ==> RequestOk(s.table, s.issued, s.requests[id])
  }

  predicate CacheOk(s: State)
  {
    forall sha :: sha in s.cache.grace ==> sha in s.issued && s.issued[sha] == s.cache.grace[sha]
  }

  predicate LedgerOk(s: State)
  {
    forall sha :: sha in s.issued ==> Succession(s.table, sha, s.issued[sha].refreshToken)
  }

  predicate Inv(cfg: Config, s: State)
  {
    Linked(s.table) && Provenance(cfg, s.table) && RequestsOk(s) && CacheOk(s) && LedgerOk(s)
  }

  /** Rows keep their token and, once set, their successor. */
  predicate Evolves(t: Table, u: Table)
  {
    && (forall sha :: sha in t.bySha ==> sha in u.bySha && u.bySha[sha] == t.bySha[sha])
    && (forall id :: id in t.rows ==>
          && id in u.rows && u.rows[id].token == t.rows[id].token
          && (t.rows[id].replacedBy.Some? ==> u.rows[id].replacedBy == t.rows[id].replacedBy))
  }

  lemma TableEvolves(t: Table, a: RefreshTokens.Action)
    requires Indexed(t)
    ensures Evolves(t, RefreshTokens.Apply(t, a))
  {
    hide Stored, WholeSecond;
    if a.Rotation? && Rotate(t, a.sha, a.at, a.token).Ok? {
      RotateEvolves(t, a.sha, a.at, a.token);
    }
  }

  lemma RotateEvolves(t: Table, sha: string, at: Instant, token: Token)
    requires Indexed(t) && Rotatable(t, sha, at) && token.sha !in t.bySha
    ensures Evolves(t, Rotate(t, sha, at, token).value)
  {
    var u := Insert(t, token).value;
    assert Evolves(t, u) && u.rows[t.bySha[sha]] == t.rows[t.bySha[sha]];
    hide Insert, Indexed, Stored;
  }

  lemma EvolvesSelf(t: Table)
    ensures Evolves(t, t)
  {
  }

  lemma StepEvolves(cfg: Config, s: State, a: Action)
    requires Indexed(s.table)
    ensures Evolves(s.table, Apply(cfg, s, a).table)
  {
    hide Evolves, Check, CacheRotation, NewToken, Insert, RevokeUser, Rotate;
    EvolvesSelf(s.table);
    match a
    case Grant(token, _) => TableEvolves(s.table, RefreshTokens.Create(token));
    case RevokeAll(userId, at) => TableEvolves(s.table, RefreshTokens.Revoke(userId, at, s.now));
    case Rotation(id, at, _, value) =>
      if id in s.requests && s.requests[id].stage.Loaded? {
        var r := s.requests[id];
        TableEvolves(s.table,
                     RefreshTokens.Rotation(r.sha, at, NewToken(cfg, r.clientId, r.ttl, r.stage.row, at, value)));
      }
    case _ =>
  }

  lemma EvolutionKeeps(s: State, u: State)
    requires RequestsOk(s) && LedgerOk(s) && CacheOk(s) && Evolves(s.table, u.table)
    requires u.requests == s.requests && u.issued == s.issued && u.cache.grace == s.cache.grace
    ensures RequestsOk(u) && LedgerOk(u) && CacheOk(u)
  {
  }

  lemma InsertKeepsProvenance(cfg: Config, t: Table, token: Token)
    requires Linked(t) && Provenance(cfg, t) && token.sha !in t.bySha
    ensures Provenance(cfg, Insert(t, token).value)
  {
    assert t.next !in t.rows;
  }

  lemma RotateKeepsProvenance(cfg: Config, t: Table, sha: string, at: Instant, token: Token)
    requires Linked(t) && Provenance(cfg, t) && Rotatable(t, sha, at) && token.sha !in t.bySha
    requires SameGrant(cfg, t.rows[t.bySha[sha]].token, token)
    ensures Provenance(cfg, Rotate(t, sha, at, token).value)
  {
    InsertKeepsProvenance(cfg, t, token);
    hide SameGrant, Stored;
  }

  lemma GrantKeeps(cfg: Config, s: State, token: Token, cached: bool)
    requires Inv(cfg, s)
    ensures Inv(cfg, Apply(cfg, s, Grant(token, cached)))
  {
    if token.sha !in s.table.bySha {
      InsertKeepsProvenance(cfg, s.table, token);
      InsertKeepsLinks(s.table, token);
      TableEvolves(s.table, RefreshTokens.Create(token));
      hide Linked, Provenance, RequestsOk, LedgerOk, CacheOk, Evolves;
      EvolutionKeeps(s, Apply(cfg, s, Grant(token, cached)));
    }
  }

  lemma RevokeKeepsProvenance(cfg: Config, t: Table, userId: int, at: Instant, now: Instant)
    requires Provenance(cfg, t)
    ensures Provenance(cfg, RevokeUser(t, userId, at, now))
  {
    hide SameGrant, Stored, Revocable;
  }

  lemma RevokeKeeps(cfg: Config, s: State, userId: int, at: Instant)
    requires Inv(cfg, s)
    ensures Inv(cfg, Apply(cfg, s, RevokeAll(userId, at)))
  {
    hide Forward, Injective, Provenance, RequestsOk, LedgerOk, CacheOk, Evolves, RevokeUser;
    StepKeepsLinks(s.table, RefreshTokens.Revoke(userId, at, s.now));
    TableEvolves(s.table, RefreshTokens.Revoke(userId, at, s.now));
    RevokeKeepsProvenance(cfg, s.table, userId, at, s.now);
    EvolutionKeeps(s, Apply(cfg, s, RevokeAll(userId, at)));
  }

  /** The token of a loaded request is the stored one, so its successor stands for
      the same grant. */
  lemma RotationKeepsTable(cfg: Config, t: Table, r: Request, at: Instant, value: string)
    requires Lawful(cfg.json) && Linked(t) && Provenance(cfg, t)
    requires r.stage.Loaded? && RequestOk(t, map[], r)
    ensures var token := NewToken(cfg, r.clientId, r.ttl, r.stage.row, at, value);
            Rotate(t, r.sha, at, token).Ok? ==>
              && Linked(Rotate(t, r.sha, at, token).value)
              && Provenance(cfg, Rotate(t, r.sha, at, token).value)
              && Evolves(t, Rotate(t, r.sha, at, token).value)
              && Succession(Rotate(t, r.sha, at, token).value, r.sha, value)
  {
    var token := NewToken(cfg, r.clientId, r.ttl, r.stage.row, at, value);
    if Rotate(t, r.sha, at, token).Ok? {
      DecodeAfterEncode(cfg.json, Decode(cfg.json, r.stage.row.token.scopesJson));
      hide Decode;
      StepKeepsLinks(t, RefreshTokens.Rotation(r.sha, at, token));
      TableEvolves(t, RefreshTokens.Rotation(r.sha, at, token));
      RotateKeepsProvenance(cfg, t, r.sha, at, token);
      hide Linked, Provenance, Evolves;
    }
  }

  lemma MovedKeeps(cfg: Config, s: State, id: nat, stage: Stage)
    requires Inv(cfg, s) && id in s.requests
    requires RequestOk(s.table, s.issued, s.requests[id].(stage := stage))
    ensures Inv(cfg, Moved(s, id, stage))
  {
    hide Linked, Provenance, RequestOk;
  }

  lemma InvFor(cfg: Config, s: State, id: nat)
    requires Inv(cfg, s) && id in s.requests
    ensures RequestOk(s.table, s.issued, s.requests[id])
    ensures Linked(s.table) && Indexed(s.table) && Provenance(cfg, s.table) && CacheOk(s) && LedgerOk(s)
  {
    hide Provenance, RequestOk, CacheOk, LedgerOk;
  }

  lemma RotationKeeps(cfg: Config, s: State, id: nat, at: Instant, accessToken: string, value: string)
    requires Lawful(cfg.json) && Inv(cfg, s) && id in s.requests && s.requests[id].stage.Loaded?
    ensures Inv(cfg, AfterRotation(cfg, s, id, at, accessToken, value))
  {
    hide Decode, NewToken, Inv, Linked, Indexed, Provenance, Evolves, Succession, Rotate, LedgerOk, RequestOk;
    InvFor(cfg, s, id);
    var r := s.requests[id];
    var rotated := Rotate(s.table, r.sha, at, NewToken(cfg, r.clientId, r.ttl, r.stage.row, at, value));
    if r.ttl <= 0 || rotated.Err? {
      IdleKeeps(cfg, s, id, if r.ttl <= 0 then AccessOnly(accessToken) else Lost);
    } else {
      RequestOkAlone(s, r);
      RotationKeepsTable(cfg, s.table, r, at, value);
      NotIssuedYet(s, r.sha, at);
      WinKeeps(cfg, s, id, rotated.value, Response(accessToken, value, Decode(cfg.json, r.stage.row.token.scopesJson)));
    }
  }

  lemma RequestOkAlone(s: State, r: Request)
    requires RequestOk(s.table, s.issued, r) && r.stage.Loaded?
    ensures RequestOk(s.table, map[], r)
  {
  }

  /** A request may always move to a stage that claims nothing. */
  lemma IdleKeeps(cfg: Config, s: State, id: nat, stage: Stage)
    requires Inv(cfg, s) && id in s.requests
    requires !stage.Loaded? && !stage.Won? && !stage.Returned?
    ensures Inv(cfg, Moved(s, id, stage))
  {
    hide Inv;
    MovedKeeps(cfg, s, id, stage);
  }

  lemma NotIssuedYet(s: State, sha: string, at: Instant)
    requires LedgerOk(s) && Rotatable(s.table, sha, at)
    ensures sha !in s.issued
  {
  }

  lemma WinKeeps(cfg: Config, s: State, id: nat, table: Table, response: Response)
    requires Inv(cfg, s) && id in s.requests && s.requests[id].sha !in s.issued
    requires Linked(table) && Provenance(cfg, table) && Evolves(s.table, table)
    requires Succession(table, s.requests[id].sha, response.refreshToken)
    ensures Inv(cfg, Moved(s.(table := table, issued := s.issued[s.requests[id].sha := response]), id, Won(response)))
  {
    var u := s.(table := table, issued := s.issued[s.requests[id].sha := response]);
    LedgerGrows(s, u, s.requests[id].sha);
    assert Inv(cfg, u) by {
      hide Linked, Provenance, Evolves, Succession, RequestsOk, LedgerOk, CacheOk;
    }
    hide Inv;
    MovedKeeps(cfg, u, id, Won(response));
  }

  lemma LedgerGrows(s: State, u: State, sha: string)
    requires RequestsOk(s) && LedgerOk(s) && CacheOk(s) && Evolves(s.table, u.table)
    requires u.requests == s.requests && u.cache == s.cache
    requires sha !in s.issued && sha in u.issued && u.issued == s.issued[sha := u.issued[sha]]
    requires Succession(u.table, sha, u.issued[sha].refreshToken)
    ensures RequestsOk(u) && LedgerOk(u) && CacheOk(u)
  {
    EvolutionKeeps(s, u.(issued := s.issued));
    hide Evolves, Succession;
  }

  lemma CacheKeeps(cfg: Config, s: State, cache: Cache)
    requires Inv(cfg, s) && CacheOk(s.(cache := cache))
    ensures Inv(cfg, s.(cache := cache))
  {
    hide Linked, Provenance, RequestOk, CacheOk, Succession;
  }

  /** The replay check keeps the grace responses and only ever returns one of them. */
  lemma CheckReadsGrace(c: Cache, sha: string, fp: string, now: Instant)
    ensures var (verdict, after) := Check(c, sha, fp, now);
            && after.grace == c.grace
            && (verdict.Grace? ==> sha in c.grace && verdict.response == c.grace[sha])
  {
  }

  lemma CheckKeeps(cfg: Config, s: State, id: nat, otherwise: Stage)
    requires Inv(cfg, s) && id in s.requests && (otherwise.Checked? || otherwise.Refused?)
    ensures Inv(cfg, AfterCheck(s, id, otherwise))
  {
    hide Check, Inv, Linked, Indexed, Provenance, LedgerOk;
    var r := s.requests[id];
    InvFor(cfg, s, id);
    CheckReadsGrace(s.cache, r.sha, r.fp, s.now);
    var (verdict, cache) := Check(s.cache, r.sha, r.fp, s.now);
    CacheKeeps(cfg, s, cache);
    var next := match verdict
                case Proceed => otherwise
                case Grace(response) => Returned(response)
                case Reject => Refused;
    MovedKeeps(cfg, s.(cache := cache), id, next);
  }

  lemma RotationAddsGrace(c: Cache, sha: string, newSha: string, fp: string, now: Instant, response: Response)
    ensures var after := CacheRotation(c, sha, newSha, fp, now, response);
            after.grace == c.grace || after.grace == c.grace[sha := response]
  {
  }

  lemma StoreGraceKeeps(cfg: Config, s: State, id: nat, ok: bool)
    requires Inv(cfg, s) && id in s.requests && s.requests[id].stage.Won?
    ensures Inv(cfg, AfterStore(cfg, s, id, ok))
  {
    hide CacheRotation, Inv, Linked, Indexed, Provenance, LedgerOk;
    var r := s.requests[id];
    var response := r.stage.response;
    InvFor(cfg, s, id);
    RotationAddsGrace(s.cache, r.sha, cfg.hash(response.refreshToken), r.fp, s.now, response);
    var cache := if ok then CacheRotation(s.cache, r.sha, cfg.hash(response.refreshToken), r.fp, s.now, response)
                 else s.cache;
    CacheKeeps(cfg, s, cache);
    MovedKeeps(cfg, s.(cache := cache), id, Returned(response));
  }

  lemma LoadKeeps(cfg: Config, s: State, id: nat)
    requires Inv(cfg, s) && id in s.requests
    ensures Inv(cfg, AfterLoad(s, id))
  {
    var r := s.requests[id];
    hide Provenance, RequestsOk, LedgerOk, CacheOk;
    if Rotatable(s.table, r.sha, WholeSecond(s.now))
       && s.table.rows[s.table.bySha[r.sha]].token.clientId == r.clientId {
      MovedKeeps(cfg, s, id, Loaded(s.table.rows[s.table.bySha[r.sha]]));
    } else {
      MovedKeeps(cfg, s, id, Refused);
    }
  }

  lemma StartKeeps(cfg: Config, s: State, id: nat, r: Request)
    requires Inv(cfg, s) && r.stage.Started?
    ensures Inv(cfg, s.(requests := s.requests[id := r]))
  {
    hide Linked, Provenance, Succession;
  }

  lemma StepKeeps(cfg: Config, s: State, a: Action)
    requires Lawful(cfg.json) && Inv(cfg, s)
    ensures Inv(cfg, Apply(cfg, s, a))
  {
    hide AfterCheck, AfterLoad, AfterRotation, AfterStore, Provenance, Succession, RequestOk, Insert, RevokeUser;
    match a
    case Grant(token, cached) => GrantKeeps(cfg, s, token, cached);
    case RevokeAll(userId, at) => RevokeKeeps(cfg, s, userId, at);
    case Start(id, clientId, ttl, presented, fp) =>
      StartKeeps(cfg, s, id, Request(clientId, ttl, cfg.hash(presented), fp, Started));
    case CheckReplay(id) =>
      if id in s.requests && s.requests[id].stage.Started? {
        CheckKeeps(cfg, s, id, Checked);
      }
    case Load(id) =>
      if id in s.requests && s.requests[id].stage.Checked? {
        LoadKeeps(cfg, s, id);
      }
    case Rotation(id, at, accessToken, value) =>
      if id in s.requests && s.requests[id].stage.Loaded? {
        RotationKeeps(cfg, s, id, at, accessToken, value);
      }
    case StoreGrace(id, ok) =>
      if id in s.requests && s.requests[id].stage.Won? {
        StoreGraceKeeps(cfg, s, id, ok);
      }
    case RetryReplay(id) =>
      if id in s.requests && s.requests[id].stage.Lost? {
        CheckKeeps(cfg, s, id, Refused);
      }
    case Abandon(id) =>
      if id in s.requests && !s.requests[id].stage.Returned? {
        IdleKeeps(cfg, s, id, Refused);
      }
    case Tick(_) =>
    case Evict(tokens, grace, families) =>
      CacheKeeps(cfg, s, Cache(s.cache.tokens - tokens, s.cache.grace - grace, s.cache.revoked - families));
  }

  lemma {:induction false} RunKeeps(cfg: Config, s: State, actions: seq<Action>)
    requires Lawful(cfg.json) && Inv(cfg, s)
    ensures Inv(cfg, Run(cfg, s, actions))
  {
    hide Apply, Inv;
    if actions != [] {
      RunKeeps(cfg, s, actions[..|actions| - 1]);
      StepKeeps(cfg, Run(cfg, s, actions[..|actions| - 1]), actions[|actions| - 1]);
    }
  }

  // ---------------------------------------------------------------------------
  // Main results
  // ---------------------------------------------------------------------------

  ghost predicate Reachable(cfg: Config, s: State)
  {
    exists now, actions :: s == Run(cfg, Init(now), actions)
  }

  lemma ReachableInv(cfg: Config, s: State)
    requires Lawful(cfg.json) && Reachable(cfg, s)
    ensures Inv(cfg, s)
  {
    var now, actions :| s == Run(cfg, Init(now), actions);
    RunKeeps(cfg, Init(now), actions);
  }

  /** However refresh requests for one token race, all of them that return a refresh
      token return the same response, and its refresh token is the successor that
      the table records. */
  lemma OneResponsePerToken(cfg: Config, s: State, a: nat, b: nat)
    requires Lawful(cfg.json) && Reachable(cfg, s)
    requires a in s.requests && s.requests[a].stage.Returned?
    requires b in s.requests && s.requests[b].stage.Returned?
    requires s.requests[a].sha == s.requests[b].sha
    ensures s.requests[a].stage.response == s.requests[b].stage.response
    ensures Succession(s.table, s.requests[a].sha, s.requests[a].stage.response.refreshToken)
  {
    ReachableInv(cfg, s);
    assert RequestOk(s.table, s.issued, s.requests[a]) && RequestOk(s.table, s.issued, s.requests[b]);
  }

  lemma {:induction false} ChainKeepsGrant(cfg: Config, t: Table, id: nat, member: nat)
    requires Linked(t) && Provenance(cfg, t) && id in t.rows && member in Chain(t, id)
    ensures member in t.rows && SameGrant(cfg, t.rows[id].token, t.rows[member].token)
    decreases t.next - id
  {
    if member != id {
      ChainKeepsGrant(cfg, t, t.rows[id].replacedBy.value, member);
    }
  }

  lemma RootKeepsGrant(cfg: Config, t: Table, id: nat)
    requires Linked(t) && Provenance(cfg, t) && id in t.rows
    ensures SameGrant(cfg, t.rows[Root(t, id)].token, t.rows[id].token)
  {
    hide Provenance, SameGrant;
    RootReaches(t, id);
    ChainKeepsGrant(cfg, t, Root(t, id), id);
  }

  /** Client, user, subject and decoded scopes never change along a rotation chain:
      every token stands for the grant of the root of its chain. */
  lemma GrantNeverChanges(cfg: Config, s: State, id: nat)
    requires Lawful(cfg.json) && Reachable(cfg, s) && id in s.table.rows
    ensures Linked(s.table)
    ensures SameGrant(cfg, s.table.rows[Root(s.table, id)].token, s.table.rows[id].token)
  {
    ReachableInv(cfg, s);
    hide Reachable;
    RootKeepsGrant(cfg, s.table, id);
  }

  /** After a cached rotation the kept response is replayed exactly to requests with
      the same fingerprint inside the grace period; any other presentation of the
      old token revokes the family, and with it the successor. */
  lemma ReplayOrRevoke(c: Cache, sha: string, newSha: string, fp: string, now: Instant, response: Response,
                       fp2: string, later: Instant)
    requires sha in c.tokens && c.tokens[sha].status.Active? && Family(c.tokens[sha], sha) !in c.revoked
    requires sha != newSha && Family(c.tokens[sha], sha) != ""
    ensures var after := CacheRotation(c, sha, newSha, fp, now, response);
            var (verdict, last) := Check(after, sha, fp2, later);
            if Unix(later) <= Unix(now) + GRACE_SECONDS && (fp == "" || fp2 == fp)
            then verdict == Grace(response) && last == after
            else verdict == Reject && Check(last, newSha, fp2, later).0 == Reject
                 && Check(last, sha, fp2, later).0 == Reject
  {
    hide Unix;
  }
}
