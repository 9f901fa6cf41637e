/** From consent to tokens: authorization requests, code exchanges and refreshes,
    interleaved step by step. Clients and users do not change during a run. */
module Grants {
  import opened Clock
  import opened Wrappers
  import opened Text
  import opened Scopes
  import opened AuthorizationCodes
  import RefreshTokens
  import RefreshFlow

  datatype GrantType = AuthorizationCode | RefreshToken | ClientCredentials | Password | DeviceCode

  datatype Client = Client(id: int, active: bool, grants: set<GrantType>, redirectUris: set<string>,
                           scopes: seq<string>,
                           requirePkce: bool, requireConsent: bool, refreshTtl: int)

  /** `users` maps an id to the subject of that user. */
  datatype Config = Config(clients: map<string, Client>, users: map<int, string>, json: Json,
                           hash: string -> string, s256: string -> string, collate: string -> string,
                           codeTtl: Duration)

  ghost predicate Lawful(cfg: Config)
  {
    && Scopes.Lawful(cfg.json)
    && (forall j, k :: j in cfg.clients && k in cfg.clients && cfg.clients[j].id == cfg.clients[k].id ==> j == k)
  }

  function FlowConfig(cfg: Config): RefreshFlow.Config
  {
    RefreshFlow.Config(cfg.hash, cfg.json)
  }

  // ---------------------------------------------------------------------------
  // Authorization requests
  // ---------------------------------------------------------------------------

  datatype Command = Command(responseType: string, clientId: string, redirectUri: string, scope: seq<string>,
                             challenge: string, mode: string)

  datatype Error = InvalidRequest | UnsupportedResponseType | InvalidClient | InvalidRedirectUri | InvalidScope
                 | InvalidCodeChallenge | ServerError

  datatype Outcome = Invalid(error: Error) | RequireLogin | RequireConsent | Issue(code: Code)

  /** The scopes asked for, `openid` when none is named. */
  function Requested(scope: seq<string>): seq<string>
  {
    if Normalized(scope) == [] then ["openid"] else Normalized(scope)
  }

  /** Whether the remembered consent covers the scopes; `None` when it is unreadable. */
  function HasConsent(json: Json, consents: Consents, userId: int, clientId: int, scopes: seq<string>): Option<bool>
  {
    if (userId, clientId) !in consents then Some(false)
    else match Granted(json, consents, userId, clientId)
      case None => None
      case Some(granted) => Some(Named(scopes) <= granted)
  }

  /** `session` is the user of the active session, if any. */
  function Authorize(cfg: Config, consents: Consents, cmd: Command, session: Option<int>, now: Instant): Outcome
  {
    if Trim(cmd.clientId) == "" || Trim(cmd.redirectUri) == "" then Invalid(InvalidRequest)
    else if Trim(cmd.responseType) != "code" then Invalid(UnsupportedResponseType)
    else if Trim(cmd.clientId) !in cfg.clients || !cfg.clients[Trim(cmd.clientId)].active then Invalid(InvalidClient)
    else
      var client := cfg.clients[Trim(cmd.clientId)];
      if AuthorizationCode !in client.grants then Invalid(InvalidClient)
      else if cmd.redirectUri !in client.redirectUris then Invalid(InvalidRedirectUri)
      else if !Contained(Requested(cmd.scope), client.scopes) then Invalid(InvalidScope)
      else if !ValidChallenge(client.requirePkce, Trim(cmd.challenge), Trim(cmd.mode))
      then Invalid(InvalidCodeChallenge)
      else if session.None? then RequireLogin
      else AuthorizeUser(cfg, consents, cmd, client, session.value, now)
  }

  function AuthorizeUser(cfg: Config, consents: Consents, cmd: Command, client: Client, userId: int,
                         now: Instant): Outcome
  {
    var scopes := Requested(cmd.scope);
    var consent := if client.requireConsent then HasConsent(cfg.json, consents, userId, client.id, scopes)
                   else Some(true);
    if consent.None? then Invalid(ServerError)
    else if !consent.value then RequireConsent
    else Issue(Code(client.id, userId, cmd.redirectUri, cfg.json.encode(scopes), Trim(cmd.challenge),
                    NormalizeMethod(cmd.mode), Stored(now + cfg.codeTtl), None))
  }

  // ---------------------------------------------------------------------------
  // The machine
  // ---------------------------------------------------------------------------

  datatype Stage = Begun | Holding(code: Code) | Issued | Failed

  /** A token request that presents a code. */
  datatype Exchange = Exchange(client: Client, key: string, redirectUri: string, verifier: string, stage: Stage)

  datatype Consumption = Consumption(id: nat, at: Instant)

  /** `pending` holds codes that passed every check and are about to be stored.
      `consumers` and `origins` are bookkeeping: the request that consumed a code and
      when, and the code each refresh token was first issued for. */
  datatype State = State(consents: Consents, pending: map<nat, (string, Code)>, codes: Codes,
                         exchanges: map<nat, Exchange>, consumers: map<string, Consumption>,
                         origins: map<nat, string>, refresh: RefreshFlow.State)

  datatype Action =
    | Accept(userId: int, clientId: int, scopes: seq<string>, merged: seq<string>)
    | Decide(id: nat, cmd: Command, session: Option<int>, code: string)
    | StoreCode(id: nat)
    | Present(id: nat, clientName: string, redirectUri: string, verifier: string, code: string, secretOk: bool)
    | Consume(id: nat, at: Instant)
    | IssueTokens(id: nat, at: Instant, value: string, cached: bool)
    | Refresh(step: RefreshFlow.Action)

  function Init(now: Instant): State
  {
    State(map[], map[], map[], map[], map[], map[], RefreshFlow.Init(now))
  }

  const OFFLINE_ACCESS := "offline_access"

  predicate MayIssueRefreshToken(client: Client, scopes: seq<string>)
  {
    client.refreshTtl > 0 && RefreshToken in client.grants && OFFLINE_ACCESS in scopes
  }

  function Advanced(s: State, id: nat, stage: Stage): (after: State)
    requires id in s.exchanges
    ensures after.consents == s.consents && after.refresh == s.refresh
    ensures after.pending == s.pending && after.codes == s.codes
  {
    s.(exchanges := s.exchanges[id := s.exchanges[id].(stage := stage)])
  }

  /** A consent decision; `merged` is the order in which the names were listed. */
  function AfterAccept(cfg: Config, s: State, userId: int, clientId: int, scopes: seq<string>,
                       merged: seq<string>): State
  {
    if Named(merged) == Merged(cfg.json, s.consents, userId, clientId, scopes)
    then s.(consents := s.consents[(userId, clientId) := cfg.json.encode(merged)])
    else s
  }

  function AfterDecide(cfg: Config, s: State, id: nat, cmd: Command, session: Option<int>, code: string): (after: State)
    ensures after.consents == s.consents && after.refresh == s.refresh
    ensures after.codes == s.codes
  {
    match Authorize(cfg, s.consents, cmd, session, s.refresh.now)
    case Issue(model) => s.(pending := s.pending[id := (cfg.collate(code), model)])
    case _ => s
  }

  function AfterStoreCode(s: State, id: nat): (after: State)
    requires id in s.pending
    ensures after.consents == s.consents && after.refresh == s.refresh
  {
    var (key, model) := s.pending[id];
    if key in s.codes then s.(pending := s.pending - {id})
    else s.(pending := s.pending - {id}, codes := s.codes[key := model])
  }

  function AfterPresent(cfg: Config, s: State, id: nat, clientId: string, redirectUri: string, verifier: string,
                        code: string, secretOk: bool): (after: State)
    ensures after.consents == s.consents && after.refresh == s.refresh
    ensures after.pending == s.pending && after.codes == s.codes
  {
    if Trim(clientId) !in cfg.clients then s
    else
      var client := cfg.clients[Trim(clientId)];
      if client.active && AuthorizationCode in client.grants && redirectUri in client.redirectUris && secretOk
      then s.(exchanges := s.exchanges[id := Exchange(client, cfg.collate(code), redirectUri, verifier, Begun)])
      else s
  }

  function AfterConsume(s: State, id: nat, at: Instant): (after: State)
    requires id in s.exchanges
    ensures after.consents == s.consents && after.refresh == s.refresh
    ensures after.pending == s.pending
  {
    var key := s.exchanges[id].key;
    if !Consumable(s.codes, key, at) then Advanced(s, id, Failed)
    else Advanced(s.(codes := s.codes[key := Consumed(s.codes[key], Stored(at))],
                     consumers := s.consumers[key := Consumption(id, at)]),
                  id, Holding(Consumed(s.codes[key], at)))
  }

  predicate Acceptable(cfg: Config, e: Exchange)
    requires e.stage.Holding?
  {
    && e.stage.code.clientId == e.client.id
    && e.stage.code.redirectUri == e.redirectUri
    && ValidVerifier(cfg.s256, e.stage.code.challenge, e.stage.code.mode, e.client.requirePkce, e.verifier)
    && e.stage.code.userId in cfg.users
  }

  function FirstToken(cfg: Config, e: Exchange, at: Instant, value: string): RefreshTokens.Token
    requires e.stage.Holding? && e.stage.code.userId in cfg.users
  {
    var scopes := Decode(cfg.json, e.stage.code.scopesJson);
    RefreshTokens.Token(value, cfg.hash(value), e.client.id, Some(e.stage.code.userId), cfg.users[e.stage.code.userId],
                        cfg.json.encode(scopes), at, at + Seconds(e.client.refreshTtl))
  }

  function AfterIssue(cfg: Config, s: State, id: nat, at: Instant, value: string, cached: bool): (after: State)
    requires id in s.exchanges && s.exchanges[id].stage.Holding?
    ensures after.consents == s.consents
    ensures after.pending == s.pending && after.codes == s.codes
  {
    var e := s.exchanges[id];
    if !Acceptable(cfg, e) then Advanced(s, id, Failed)
    else if !MayIssueRefreshToken(e.client, Decode(cfg.json, e.stage.code.scopesJson)) then Advanced(s, id, Issued)
    else WithFirstToken(cfg, s, id, FirstToken(cfg, e, at, value), cached)
  }

  function WithFirstToken(cfg: Config, s: State, id: nat, token: RefreshTokens.Token, cached: bool): (after: State)
    requires id in s.exchanges
    ensures after.consents == s.consents
    ensures after.pending == s.pending && after.codes == s.codes
  {
    if token.sha in s.refresh.table.bySha then Advanced(s, id, Failed)
    else
      Advanced(s.(refresh := RefreshFlow.Apply(FlowConfig(cfg), s.refresh, RefreshFlow.Grant(token, cached)),
                  origins := s.origins[s.refresh.table.next := s.exchanges[id].key]),
               id, Issued)
  }

  function Apply(cfg: Config, s: State, a: Action): State
  {
    match a
    case Accept(userId, clientId, scopes, merged) => AfterAccept(cfg, s, userId, clientId, scopes, merged)
    case Decide(id, cmd, session, code) => if id in s.pending then s else AfterDecide(cfg, s, id, cmd, session, code)
    case StoreCode(id) => if id in s.pending then AfterStoreCode(s, id) else s
    case Present(id, clientId, redirectUri, verifier, code, secretOk) =>
      if id in s.exchanges then s else AfterPresent(cfg, s, id, clientId, redirectUri, verifier, code, secretOk)
    case Consume(id, at) =>
      if id in s.exchanges && s.exchanges[id].stage.Begun? then AfterConsume(s, id, at) else s
    case IssueTokens(id, at, value, cached) =>
      if id in s.exchanges && s.exchanges[id].stage.Holding? then AfterIssue(cfg, s, id, at, value, cached) else s
    case Refresh(step) => s.(refresh := RefreshFlow.Apply(FlowConfig(cfg), s.refresh, step))
  }

  function Run(cfg: Config, s: State, actions: seq<Action>): State
  {
    if actions == [] then s
    else Apply(cfg, Run(cfg, s, actions[..|actions| - 1]), actions[|actions| - 1])
  }

  ghost predicate Reachable(cfg: Config, s: State)
  {
    exists now, actions :: s == Run(cfg, Init(now), actions)
  }

  // ---------------------------------------------------------------------------
  // Invariant
  // ---------------------------------------------------------------------------

  /** The scopes lie within what the client registered and, where the client asks for
      consent, within what the user consented to. */
  predicate Covered(cfg: Config, consents: Consents, clientId: int, userId: int, scopes: seq<string>)
  {
    forall k :: k in cfg.clients && cfg.clients[k].id == clientId ==>
      && Contained(scopes, cfg.clients[k].scopes)
      && (cfg.clients[k].requireConsent ==>
            && Granted(cfg.json, consents, userId, clientId).Some?
            && Named(scopes) <= Granted(cfg.json, consents, userId, clientId).value)
  }

  predicate CodeOk(cfg: Config, consents: Consents, code: Code)
  {
    Covered(cfg, consents, code.clientId, code.userId, Decode(cfg.json, code.scopesJson))
  }

  predicate SameCode(a: Code, b: Code)
  {
    a.(consumedAt := None) == b.(consumedAt := None)
  }

  /** The client may exchange codes and has registered the redirect URI. */
  predicate Eligible(e: Exchange)
  {
    e.client.active && AuthorizationCode in e.client.grants && e.redirectUri in e.client.redirectUris
  }

  /** What holds of a request, and of one that consumed its code. */
  predicate ExchangeOk(cfg: Config, codes: Codes, consumers: map<string, Consumption>, id: nat, e: Exchange)
  {
    Eligible(e) && (e.stage.Holding? || e.stage.Issued? ==>
      && e.key in codes && e.key in consumers && consumers[e.key].id == id
      && codes[e.key].consumedAt.Some?
      && (e.stage.Holding? ==> SameCode(e.stage.code, codes[e.key]))
      && (e.stage.Issued? ==> Delivered(cfg, codes[e.key], e)))
  }

  /** Tokens went to the client and redirect URI of the code, for its proof key. */
  predicate Delivered(cfg: Config, code: Code, e: Exchange)
  {
    && code.clientId == e.client.id
    && code.redirectUri == e.redirectUri
    && ValidVerifier(cfg.s256, code.challenge, code.mode, e.client.requirePkce, e.verifier)
  }

  predicate ExchangesOk(cfg: Config, codes: Codes, consumers: map<string, Consumption>, exchanges: map<nat, Exchange>)
  {
    forall id :: id in exchanges ==> ExchangeOk(cfg, codes, consumers, id, exchanges[id])
  }

  /** A code was consumed before it expired. */
  predicate TimelyOk(codes: Codes, consumers: map<string, Consumption>)
  {
    forall key :: key in consumers ==> key in codes && consumers[key].at < codes[key].expiresAt
  }

  /** The token carries the client, user and scopes of the code. */
  predicate FromCode(cfg: Config, token: RefreshTokens.Token, code: Code)
  {
    && token.clientId == code.clientId && token.userId == Some(code.userId)
    && Decode(cfg.json, token.scopesJson) == Decode(cfg.json, code.scopesJson)
    && OFFLINE_ACCESS in Decode(cfg.json, code.scopesJson)
  }

  predicate OriginsOk(cfg: Config, codes: Codes, origins: map<nat, string>, t: RefreshTokens.Table)
  {
    forall id :: id in origins ==>
      id in t.rows && origins[id] in codes && FromCode(cfg, t.rows[id].token, codes[origins[id]])
  }

  predicate ConsentsOk(cfg: Config, consents: Consents)
  {
    forall p :: p in consents ==> cfg.json.parse(consents[p]).Some? && Trim(consents[p]) != ""
  }

  predicate Inv(cfg: Config, s: State)
  {
    && ExchangesOk(cfg, s.codes, s.consumers, s.exchanges)
    && TimelyOk(s.codes, s.consumers)
    && OriginsOk(cfg, s.codes, s.origins, s.refresh.table)
    && ConsentsOk(cfg, s.consents)
  }

  // ---------------------------------------------------------------------------
  // Consent
  // ---------------------------------------------------------------------------

  lemma AcceptGrants(cfg: Config, consents: Consents, userId: int, clientId: int, scopes: seq<string>,
                     merged: seq<string>)
    requires Scopes.Lawful(cfg.json) && ConsentsOk(cfg, consents)
    requires Named(merged) == Merged(cfg.json, consents, userId, clientId, scopes)
    ensures var after := consents[(userId, clientId) := cfg.json.encode(merged)];
            && ConsentsOk(cfg, after)
            && Granted(cfg.json, consents, userId, clientId).Some?
            && Granted(cfg.json, after, userId, clientId)
               == Some(Granted(cfg.json, consents, userId, clientId).value + Named(scopes))
            && forall u, c :: (u, c) != (userId, clientId) ==>
                 Granted(cfg.json, after, u, c) == Granted(cfg.json, consents, u, c)
  {
    hide Trim;
    assert Named([]) == {};
    hide Named;
    assert Granted(cfg.json, consents, userId, clientId) == Some(Named(Existing(cfg.json, consents, userId, clientId)));
    var after := consents[(userId, clientId) := cfg.json.encode(merged)];
    assert Granted(cfg.json, after, userId, clientId).value
        == Granted(cfg.json, consents, userId, clientId).value + Named(scopes);
  }

  lemma AcceptKeeps(cfg: Config, s: State, userId: int, clientId: int, scopes: seq<string>, merged: seq<string>)
    requires Lawful(cfg) && Inv(cfg, s)
    ensures Inv(cfg, AfterAccept(cfg, s, userId, clientId, scopes, merged))
  {
    hide ExchangesOk, OriginsOk, TimelyOk, ConsentsOk, Merged, Named, Granted;
    if Named(merged) == Merged(cfg.json, s.consents, userId, clientId, scopes) {
      AcceptGrants(cfg, s.consents, userId, clientId, scopes, merged);
    }
  }

  // ---------------------------------------------------------------------------
  // Preservation
  // ---------------------------------------------------------------------------

  /** Every code that passes `Authorize` is covered by the client and by consent, and
      belongs to the user of the active session. */
  lemma AuthorizedIsCovered(cfg: Config, consents: Consents, cmd: Command, session: Option<int>, now: Instant)
    requires Lawful(cfg)
    ensures var r := Authorize(cfg, consents, cmd, session, now);
            r.Issue? ==>
              && session == Some(r.code.userId) && r.code.redirectUri == cmd.redirectUri
              && r.code.consumedAt.None? && r.code.expiresAt == Stored(now + cfg.codeTtl)
              && CodeOk(cfg, consents, r.code)
              && Trim(cmd.clientId) in cfg.clients
              && var client := cfg.clients[Trim(cmd.clientId)];
                 && client.id == r.code.clientId && client.active && AuthorizationCode in client.grants
                 && cmd.redirectUri in client.redirectUris
                 && (client.requirePkce ==> r.code.challenge != "")
  {
    hide Trim, NormalizeMethod, Named, Normalized, Stored;
    if Authorize(cfg, consents, cmd, session, now).Issue? {
      DecodeAfterEncode(cfg.json, Requested(cmd.scope));
      hide Decode, Requested;
    }
  }

  /** A code issued with a challenge can be redeemed exactly with a verifier whose
      transform is that challenge; one issued without is refused only if the client
      requires a proof key. */
  lemma IssuedChallengeIsUsable(cfg: Config, consents: Consents, cmd: Command, session: Option<int>, now: Instant,
                                required: bool, verifier: string)
    requires Authorize(cfg, consents, cmd, session, now).Issue?
    ensures var code := Authorize(cfg, consents, cmd, session, now).code;
            if code.challenge == "" then
              ValidVerifier(cfg.s256, code.challenge, code.mode, required, verifier) <==> !required
            else
              && (code.mode == "plain" || code.mode == "S256")
              && (ValidVerifier(cfg.s256, code.challenge, code.mode, required, verifier)
                  <==> verifier != "" && Transform(cfg.s256, code.mode, verifier) == code.challenge)
  {
    IssuedShape(cfg, consents, cmd, session, now);
    hide Authorize, NormalizeMethod;
    if Trim(cmd.challenge) != "" {
      ChallengeMeetsVerifier(cfg.s256, required, Trim(cmd.challenge), Trim(cmd.mode), verifier);
    }
  }

  lemma IssuedShape(cfg: Config, consents: Consents, cmd: Command, session: Option<int>, now: Instant)
    requires Authorize(cfg, consents, cmd, session, now).Issue?
    ensures var code := Authorize(cfg, consents, cmd, session, now).code;
            && code.challenge == Trim(cmd.challenge) && code.mode == NormalizeMethod(Trim(cmd.mode))
            && (code.challenge == "" || ValidChallenge(false, code.challenge, Trim(cmd.mode)))
  {
    hide Contained, Normalized, HasConsent, Stored, NormalizeMethod, KnownMethod, Trim;
    NormalizeTrims(cmd.mode);
  }

  lemma DecideKeeps(cfg: Config, s: State, id: nat, cmd: Command, session: Option<int>, code: string)
    requires Lawful(cfg) && Inv(cfg, s)
    ensures Inv(cfg, AfterDecide(cfg, s, id, cmd, session, code))
  {
    hide Authorize, ExchangesOk, OriginsOk, TimelyOk, ConsentsOk;
  }

  /** Adding a code under a new key disturbs nothing that refers to the old ones. */
  lemma NewCodeKeeps(cfg: Config, s: State, key: string, model: Code)
    requires key !in s.codes && ExchangesOk(cfg, s.codes, s.consumers, s.exchanges) && TimelyOk(s.codes, s.consumers)
    requires OriginsOk(cfg, s.codes, s.origins, s.refresh.table)
    ensures var codes := s.codes[key := model];
            && ExchangesOk(cfg, codes, s.consumers, s.exchanges) && TimelyOk(codes, s.consumers)
            && OriginsOk(cfg, codes, s.origins, s.refresh.table)
  {
    hide FromCode, Delivered, SameCode;
  }

  lemma StoreCodeKeeps(cfg: Config, s: State, id: nat)
    requires Inv(cfg, s) && id in s.pending
    ensures Inv(cfg, AfterStoreCode(s, id))
  {
    hide ExchangesOk, OriginsOk, TimelyOk, ConsentsOk;
    if s.pending[id].0 !in s.codes {
      NewCodeKeeps(cfg, s, s.pending[id].0, s.pending[id].1);
    }
  }

  lemma PresentKeeps(cfg: Config, s: State, id: nat, clientId: string, redirectUri: string, verifier: string,
                     code: string, secretOk: bool)
    requires Inv(cfg, s) && id !in s.exchanges
    ensures Inv(cfg, AfterPresent(cfg, s, id, clientId, redirectUri, verifier, code, secretOk))
  {
    hide OriginsOk, TimelyOk, ConsentsOk, Delivered, SameCode, Trim;
  }

  lemma ConsumeKeepsCodes(cfg: Config, s: State, key: string, at: Instant)
    requires OriginsOk(cfg, s.codes, s.origins, s.refresh.table) && key in s.codes
    ensures OriginsOk(cfg, s.codes[key := Consumed(s.codes[key], Stored(at))], s.origins, s.refresh.table)
  {
    hide Decode, Stored;
  }

  /** No other request can hold the consumed code: a holder would have marked it. */
  lemma ConsumeKeepsExchanges(cfg: Config, s: State, id: nat, at: Instant)
    requires ExchangesOk(cfg, s.codes, s.consumers, s.exchanges) && TimelyOk(s.codes, s.consumers)
    requires id in s.exchanges && Consumable(s.codes, s.exchanges[id].key, at)
    ensures var u := AfterConsume(s, id, at);
            ExchangesOk(cfg, u.codes, u.consumers, u.exchanges) && TimelyOk(u.codes, u.consumers)
  {
    hide Delivered, Stored;
  }

  lemma AdvanceKeeps(cfg: Config, s: State, id: nat, stage: Stage)
    requires Inv(cfg, s) && id in s.exchanges
    requires ExchangeOk(cfg, s.codes, s.consumers, id, s.exchanges[id].(stage := stage))
    ensures Inv(cfg, Advanced(s, id, stage))
  {
    hide ExchangeOk, OriginsOk, TimelyOk, ConsentsOk;
  }

  lemma ConsumeKeeps(cfg: Config, s: State, id: nat, at: Instant)
    requires Inv(cfg, s) && id in s.exchanges
    ensures Inv(cfg, AfterConsume(s, id, at))
  {
    hide ExchangesOk, OriginsOk, TimelyOk, ConsentsOk, Stored;
    if Consumable(s.codes, s.exchanges[id].key, at) {
      ConsumeKeepsCodes(cfg, s, s.exchanges[id].key, at);
      ConsumeKeepsExchanges(cfg, s, id, at);
    } else {
      FailureKeeps(cfg, s, id);
    }
  }

  lemma OriginsStay(cfg: Config, codes: Codes, origins: map<nat, string>, t: RefreshTokens.Table,
                    u: RefreshTokens.Table)
    requires OriginsOk(cfg, codes, origins, t) && RefreshFlow.Evolves(t, u)
    ensures OriginsOk(cfg, codes, origins, u)
  {
    hide FromCode;
  }

  lemma RefreshKeeps(cfg: Config, s: State, step: RefreshFlow.Action)
    requires Inv(cfg, s) && RefreshTokens.Indexed(s.refresh.table)
    ensures Inv(cfg, s.(refresh := RefreshFlow.Apply(FlowConfig(cfg), s.refresh, step)))
  {
    hide ExchangesOk, OriginsOk, TimelyOk, ConsentsOk, RefreshFlow.Apply, RefreshFlow.Evolves;
    RefreshFlow.StepEvolves(FlowConfig(cfg), s.refresh, step);
    OriginsStay(cfg, s.codes, s.origins, s.refresh.table,
                RefreshFlow.Apply(FlowConfig(cfg), s.refresh, step).table);
  }

  lemma FirstTokenIsFromCode(cfg: Config, codes: Codes, consumers: map<string, Consumption>, id: nat, e: Exchange,
                             at: Instant, value: string)
    requires Lawful(cfg) && e.stage.Holding? && ExchangeOk(cfg, codes, consumers, id, e) && Acceptable(cfg, e)
    ensures MayIssueRefreshToken(e.client, Decode(cfg.json, e.stage.code.scopesJson)) ==>
              FromCode(cfg, FirstToken(cfg, e, at, value), codes[e.key])
    ensures ExchangeOk(cfg, codes, consumers, id, e.(stage := Issued))
  {
    DecodeAfterEncode(cfg.json, Decode(cfg.json, e.stage.code.scopesJson));
    hide Decode, ValidVerifier;
  }

  lemma OriginAdded(cfg: Config, s: State, token: RefreshTokens.Token, cached: bool, key: string)
    requires OriginsOk(cfg, s.codes, s.origins, s.refresh.table) && RefreshTokens.Indexed(s.refresh.table)
    requires token.sha !in s.refresh.table.bySha && key in s.codes && FromCode(cfg, token, s.codes[key])
    ensures OriginsOk(cfg, s.codes, s.origins[s.refresh.table.next := key],
                      RefreshFlow.Apply(FlowConfig(cfg), s.refresh, RefreshFlow.Grant(token, cached)).table)
  {
    hide FromCode, Stored;
  }

  lemma FailureKeeps(cfg: Config, s: State, id: nat)
    requires Inv(cfg, s) && id in s.exchanges
    ensures Inv(cfg, Advanced(s, id, Failed))
  {
    hide Inv;
    ExchangeFor(cfg, s, id);
    AdvanceKeeps(cfg, s, id, Failed);
  }

  lemma ExchangeFor(cfg: Config, s: State, id: nat)
    requires Inv(cfg, s) && id in s.exchanges
    ensures ExchangeOk(cfg, s.codes, s.consumers, id, s.exchanges[id])
    ensures s.exchanges[id].stage.Holding? ==> s.exchanges[id].key in s.codes
  {
    hide OriginsOk, TimelyOk, ConsentsOk;
  }

  lemma IssueKeeps(cfg: Config, s: State, id: nat, at: Instant, value: string, cached: bool)
    requires Lawful(cfg) && Inv(cfg, s) && RefreshTokens.Indexed(s.refresh.table)
    requires id in s.exchanges && s.exchanges[id].stage.Holding?
    ensures Inv(cfg, AfterIssue(cfg, s, id, at, value, cached))
  {
    hide ExchangesOk, ExchangeOk, OriginsOk, TimelyOk, ConsentsOk, FromCode, Acceptable, Decode,
         MayIssueRefreshToken, RefreshFlow.Apply, RefreshTokens.Indexed;
    var e := s.exchanges[id];
    FailureKeeps(cfg, s, id);
    if Acceptable(cfg, e) {
      assert e.stage.code.userId in cfg.users by {
        AcceptableUser(cfg, e);
      }
      ExchangeFor(cfg, s, id);
      FirstTokenIsFromCode(cfg, s.codes, s.consumers, id, e, at, value);
      AdvanceKeeps(cfg, s, id, Issued);
      var token := FirstToken(cfg, e, at, value);
      if token.sha !in s.refresh.table.bySha
         && MayIssueRefreshToken(e.client, Decode(cfg.json, e.stage.code.scopesJson))
      {
        OriginAdded(cfg, s, token, cached, e.key);
        var u := s.(refresh := RefreshFlow.Apply(FlowConfig(cfg), s.refresh, RefreshFlow.Grant(token, cached)),
                    origins := s.origins[s.refresh.table.next := e.key]);
        AdvanceKeeps(cfg, u, id, Issued);
      }
    }
  }

  lemma AcceptableUser(cfg: Config, e: Exchange)
    requires e.stage.Holding? && Acceptable(cfg, e)
    ensures e.stage.code.userId in cfg.users
  {
  }

  lemma StepKeeps(cfg: Config, s: State, a: Action)
    requires Lawful(cfg) && Inv(cfg, s) && RefreshTokens.Indexed(s.refresh.table)
    ensures Inv(cfg, Apply(cfg, s, a))
  {
    hide Inv, AfterAccept, AfterDecide, AfterStoreCode, AfterPresent, AfterConsume, AfterIssue, RefreshFlow.Apply,
         RefreshTokens.Indexed;
    match a
    case Accept(userId, clientId, scopes, merged) => AcceptKeeps(cfg, s, userId, clientId, scopes, merged);
    case Decide(id, cmd, session, code) => DecideKeeps(cfg, s, id, cmd, session, code);
    case StoreCode(id) =>
      if id in s.pending {
        StoreCodeKeeps(cfg, s, id);
      }
    case Present(id, clientId, redirectUri, verifier, code, secretOk) =>
      if id !in s.exchanges {
        PresentKeeps(cfg, s, id, clientId, redirectUri, verifier, code, secretOk);
      }
    case Consume(id, at) =>
      if id in s.exchanges && s.exchanges[id].stage.Begun? {
        ConsumeKeeps(cfg, s, id, at);
      }
    case IssueTokens(id, at, value, cached) =>
      if id in s.exchanges && s.exchanges[id].stage.Holding? {
        IssueKeeps(cfg, s, id, at, value, cached);
      }
    case Refresh(step) => RefreshKeeps(cfg, s, step);
  }

  // ---------------------------------------------------------------------------
  // The refresh side of a run is a run of the refresh machine
  // ---------------------------------------------------------------------------

  lemma IssueFlow(cfg: Config, s: State, id: nat, at: Instant, value: string, cached: bool)
    requires id in s.exchanges && s.exchanges[id].stage.Holding?
    ensures var after := AfterIssue(cfg, s, id, at, value, cached).refresh;
            || after == s.refresh
            || (&& s.exchanges[id].stage.code.userId in cfg.users
                && after == RefreshFlow.Apply(FlowConfig(cfg), s.refresh,
                                              RefreshFlow.Grant(FirstToken(cfg, s.exchanges[id], at, value), cached)))
  {
    hide RefreshFlow.Apply, Decode, MayIssueRefreshToken, Acceptable, FirstToken;
    if Acceptable(cfg, s.exchanges[id]) {
      AcceptableUser(cfg, s.exchanges[id]);
    }
  }

  lemma OtherFlow(cfg: Config, s: State, a: Action)
    requires !a.IssueTokens? && !a.Refresh?
    ensures Apply(cfg, s, a).refresh == s.refresh
  {
    hide Named, Merged, AfterDecide, AfterStoreCode, AfterPresent, AfterConsume;
  }

  lemma FlowStep(cfg: Config, s: State, a: Action)
    returns (steps: seq<RefreshFlow.Action>)
    ensures Apply(cfg, s, a).refresh == RefreshFlow.Run(FlowConfig(cfg), s.refresh, steps)
  {
    hide RefreshFlow.Apply, AfterIssue, AfterAccept, AfterDecide, AfterStoreCode, AfterPresent, AfterConsume;
    hide FirstToken;
    steps := [];
    match a
    case IssueTokens(id, at, value, cached) =>
      if id in s.exchanges && s.exchanges[id].stage.Holding? {
        IssueFlow(cfg, s, id, at, value, cached);
        if AfterIssue(cfg, s, id, at, value, cached).refresh != s.refresh {
          steps := [RefreshFlow.Grant(FirstToken(cfg, s.exchanges[id], at, value), cached)];
        }
      }
    case Refresh(step) => steps := [step];
    case _ => OtherFlow(cfg, s, a);
  }

  lemma {:induction false} FlowRunConcat(cfg: RefreshFlow.Config, s: RefreshFlow.State,
                                         xs: seq<RefreshFlow.Action>, ys: seq<RefreshFlow.Action>)
    ensures RefreshFlow.Run(cfg, RefreshFlow.Run(cfg, s, xs), ys) == RefreshFlow.Run(cfg, s, xs + ys)
  {
    hide RefreshFlow.Apply;
    if ys == [] {
      assert xs + ys == xs;
    } else {
      FlowRunConcat(cfg, s, xs, ys[..|ys| - 1]);
      assert (xs + ys)[..|xs + ys| - 1] == xs + ys[..|ys| - 1];
    }
  }

  lemma {:induction false} FlowRun(cfg: Config, now: Instant, actions: seq<Action>)
    returns (steps: seq<RefreshFlow.Action>)
    ensures Run(cfg, Init(now), actions).refresh == RefreshFlow.Run(FlowConfig(cfg), RefreshFlow.Init(now), steps)
  {
    hide Apply, RefreshFlow.Apply;
    if actions == [] {
      steps := [];
    } else {
      var before := FlowRun(cfg, now, actions[..|actions| - 1]);
      var last := FlowStep(cfg, Run(cfg, Init(now), actions[..|actions| - 1]), actions[|actions| - 1]);
      FlowRunConcat(FlowConfig(cfg), RefreshFlow.Init(now), before, last);
      steps := before + last;
    }
  }

  lemma FlowInv(cfg: Config, now: Instant, actions: seq<Action>)
    requires Lawful(cfg)
    ensures RefreshFlow.Inv(FlowConfig(cfg), Run(cfg, Init(now), actions).refresh)
    ensures RefreshTokens.Indexed(Run(cfg, Init(now), actions).refresh.table)
  {
    hide Run, RefreshFlow.Run;
    var steps := FlowRun(cfg, now, actions);
    RefreshFlow.RunKeeps(FlowConfig(cfg), RefreshFlow.Init(now), steps);
  }

  lemma {:induction false} RunKeeps(cfg: Config, now: Instant, actions: seq<Action>)
    requires Lawful(cfg)
    ensures Inv(cfg, Run(cfg, Init(now), actions))
  {
    if actions != [] {
      hide Inv, Apply, RefreshFlow.Inv;
      RunKeeps(cfg, now, actions[..|actions| - 1]);
      FlowInv(cfg, now, actions[..|actions| - 1]);
      StepKeeps(cfg, Run(cfg, Init(now), actions[..|actions| - 1]), actions[|actions| - 1]);
    }
  }

  // ---------------------------------------------------------------------------
  // Main results
  // ---------------------------------------------------------------------------

  /** In every interleaving a code yields tokens at most once, and then only to the
      client and redirect URI it was issued for, for its proof key, and before it
      expired. */
  lemma CodeYieldsTokensOnce(cfg: Config, s: State, a: nat, b: nat)
    requires Lawful(cfg) && Reachable(cfg, s)
    requires a in s.exchanges && s.exchanges[a].stage.Issued?
    requires b in s.exchanges && s.exchanges[b].stage.Issued?
    requires s.exchanges[a].key == s.exchanges[b].key
    ensures a == b
    ensures var e := s.exchanges[a];
            && e.key in s.codes && e.key in s.consumers
            && Eligible(e) && Delivered(cfg, s.codes[e.key], e)
            && s.consumers[e.key].at < s.codes[e.key].expiresAt
  {
    var now, actions :| s == Run(cfg, Init(now), actions);
    RunKeeps(cfg, now, actions);
    hide Run, OriginsOk, ConsentsOk;
    ExchangeFor(cfg, s, a);
    ExchangeFor(cfg, s, b);
  }

  /** Everything the user accepted for the client during the run. */
  function AcceptedBy(cfg: Config, now: Instant, actions: seq<Action>, userId: int, clientId: int): set<string>
  {
    if actions == [] then {}
    else
      var n := |actions| - 1;
      var before, s := AcceptedBy(cfg, now, actions[..n], userId, clientId), Run(cfg, Init(now), actions[..n]);
      if actions[n].Accept? && actions[n].userId == userId && actions[n].clientId == clientId
         && Named(actions[n].merged) == Merged(cfg.json, s.consents, userId, clientId, actions[n].scopes)
      then before + Named(actions[n].scopes)
      else before
  }

  /** The consent table remembers exactly the union of what each user accepted. */
  lemma {:induction false} ConsentIsAccepted(cfg: Config, now: Instant, actions: seq<Action>, userId: int,
                                             clientId: int)
    requires Lawful(cfg)
    ensures Granted(cfg.json, Run(cfg, Init(now), actions).consents, userId, clientId)
            == Some(AcceptedBy(cfg, now, actions, userId, clientId))
  {
    if actions != [] {
      var n := |actions| - 1;
      ConsentIsAccepted(cfg, now, actions[..n], userId, clientId);
      RunKeeps(cfg, now, actions[..n]);
      ConsentStep(cfg, Run(cfg, Init(now), actions[..n]), actions[n], userId, clientId);
    }
  }

  lemma ConsentStep(cfg: Config, s: State, a: Action, userId: int, clientId: int)
    requires Lawful(cfg) && ConsentsOk(cfg, s.consents)
    ensures Granted(cfg.json, s.consents, userId, clientId).Some?
    ensures Granted(cfg.json, Apply(cfg, s, a).consents, userId, clientId)
            == if a.Accept? && a.userId == userId && a.clientId == clientId
                  && Named(a.merged) == Merged(cfg.json, s.consents, userId, clientId, a.scopes)
               then Some(Granted(cfg.json, s.consents, userId, clientId).value + Named(a.scopes))
               else Granted(cfg.json, s.consents, userId, clientId)
  {
    hide Named, Merged, AfterDecide, AfterStoreCode, AfterPresent, AfterConsume, AfterIssue, RefreshFlow.Apply;
    if a.Accept? {
      if Named(a.merged) == Merged(cfg.json, s.consents, a.userId, a.clientId, a.scopes) {
        AcceptGrants(cfg, s.consents, a.userId, a.clientId, a.scopes, a.merged);
      }
    } else {
      OnlyAcceptChangesConsent(cfg, s, a);
    }
  }

  lemma OnlyAcceptChangesConsent(cfg: Config, s: State, a: Action)
    requires !a.Accept?
    ensures Apply(cfg, s, a).consents == s.consents
  {
    hide AfterDecide, AfterStoreCode, AfterPresent, AfterConsume, AfterIssue, RefreshFlow.Apply;
  }

  /** The rotation chain that holds the token began with an authorization code. */
  ghost predicate BeganWithCode(s: State, id: nat)
  {
    && RefreshTokens.Linked(s.refresh.table)
    && id in s.refresh.table.rows
    && RefreshTokens.Root(s.refresh.table, id) in s.origins
  }

  /** The code was issued by the authorization decision at position `n` of the run. */
  ghost predicate DecidedAt(cfg: Config, now: Instant, actions: seq<Action>, n: nat, code: Code)
  {
    && n < |actions| && actions[n].Decide?
    && var s := Run(cfg, Init(now), actions[..n]);
       var r := Authorize(cfg, s.consents, actions[n].cmd, actions[n].session, s.refresh.now);
       r.Issue? && SameCode(r.code, code)
  }

  ghost predicate Decided(cfg: Config, now: Instant, actions: seq<Action>, code: Code)
  {
    exists n :: DecidedAt(cfg, now, actions, n, code)
  }

  ghost predicate CodesDecided(cfg: Config, now: Instant, actions: seq<Action>, s: State)
  {
    && (forall id :: id in s.pending ==> Decided(cfg, now, actions, s.pending[id].1))
    && (forall key :: key in s.codes ==> Decided(cfg, now, actions, s.codes[key]))
  }

  lemma ConsumeKeepsSame(s: State, id: nat, at: Instant)
    requires id in s.exchanges
    ensures var u := AfterConsume(s, id, at);
            u.codes.Keys == s.codes.Keys && forall key :: key in s.codes ==> SameCode(s.codes[key], u.codes[key])
  {
    hide Stored;
  }

  /** A pending code is an old one or was decided in this step. */
  lemma PendingComesFrom(cfg: Config, s: State, a: Action, id: nat)
    requires id in Apply(cfg, s, a).pending
    ensures var u := Apply(cfg, s, a);
            || (id in s.pending && u.pending[id] == s.pending[id])
            || (a.Decide? && Authorize(cfg, s.consents, a.cmd, a.session, s.refresh.now) == Issue(u.pending[id].1))
  {
    hide Authorize, RefreshFlow.Apply, AfterAccept, AfterPresent, AfterIssue, AfterConsume;
    if a.Accept? {
      AcceptLeavesCodes(cfg, s, a.userId, a.clientId, a.scopes, a.merged);
    }
  }

  lemma AcceptLeavesCodes(cfg: Config, s: State, userId: int, clientId: int, scopes: seq<string>, merged: seq<string>)
    ensures var u := AfterAccept(cfg, s, userId, clientId, scopes, merged); u.pending == s.pending && u.codes == s.codes
  {
    hide Merged, Named;
  }

  /** A stored code is an old one, consumed or not, or was pending. */
  lemma StoredComesFrom(cfg: Config, s: State, a: Action, key: string)
    requires key in Apply(cfg, s, a).codes
    ensures var u := Apply(cfg, s, a);
            || (key in s.codes && SameCode(s.codes[key], u.codes[key]))
            || (a.StoreCode? && a.id in s.pending && u.codes[key] == s.pending[a.id].1)
  {
    hide Authorize, RefreshFlow.Apply, AfterAccept, AfterDecide, AfterPresent, AfterIssue, AfterConsume;
    if a.Accept? {
      AcceptLeavesCodes(cfg, s, a.userId, a.clientId, a.scopes, a.merged);
    } else if a.Consume? && a.id in s.exchanges {
      ConsumeKeepsSame(s, a.id, a.at);
    }
  }

  lemma DecidedStays(cfg: Config, now: Instant, actions: seq<Action>, code: Code, same: Code)
    requires actions != [] && Decided(cfg, now, actions[..|actions| - 1], code) && SameCode(code, same)
    ensures Decided(cfg, now, actions, same)
  {
    hide Authorize, Run;
    var front := actions[..|actions| - 1];
    var n: nat :| DecidedAt(cfg, now, front, n, code);
    assert front[..n] == actions[..n];
    assert DecidedAt(cfg, now, actions, n, same);
  }

  lemma {:induction false} EveryCodeIsDecided(cfg: Config, now: Instant, actions: seq<Action>)
    ensures CodesDecided(cfg, now, actions, Run(cfg, Init(now), actions))
  {
    hide Authorize, Apply, Decided;
    if actions != [] {
      var n := |actions| - 1;
      var s := Run(cfg, Init(now), actions[..n]);
      EveryCodeIsDecided(cfg, now, actions[..n]);
      var u := Run(cfg, Init(now), actions);
      forall id | id in u.pending
        ensures Decided(cfg, now, actions, u.pending[id].1)
      {
        PendingComesFrom(cfg, s, actions[n], id);
        if id in s.pending && u.pending[id] == s.pending[id] {
          DecidedStays(cfg, now, actions, u.pending[id].1, u.pending[id].1);
        } else {
          DecidedNow(cfg, now, actions, u.pending[id].1);
        }
      }
      forall key | key in u.codes
        ensures Decided(cfg, now, actions, u.codes[key])
      {
        StoredComesFrom(cfg, s, actions[n], key);
        if key in s.codes && SameCode(s.codes[key], u.codes[key]) {
          DecidedStays(cfg, now, actions, s.codes[key], u.codes[key]);
        } else {
          DecidedStays(cfg, now, actions, u.codes[key], u.codes[key]);
        }
      }
    }
  }

  lemma DecidedNow(cfg: Config, now: Instant, actions: seq<Action>, code: Code)
    requires actions != [] && DecidedAt(cfg, now, actions, |actions| - 1, code)
    ensures Decided(cfg, now, actions, code)
  {
  }

  /** Every token of a chain that began with an authorization code carries scopes the
      client registered and, where the client asks for consent, scopes its user had
      accepted before the authorization decision that issued the code. */
  lemma ScopesStayWithinConsent(cfg: Config, now: Instant, actions: seq<Action>, id: nat, k: string) returns (n: nat)
    requires Lawful(cfg) && BeganWithCode(Run(cfg, Init(now), actions), id)
    requires k in cfg.clients
             && cfg.clients[k].id == Run(cfg, Init(now), actions).refresh.table.rows[id].token.clientId
    ensures n < |actions| && actions[n].Decide?
    ensures var token := Run(cfg, Init(now), actions).refresh.table.rows[id].token;
            var scopes := Decode(cfg.json, token.scopesJson);
            && Contained(scopes, cfg.clients[k].scopes) && OFFLINE_ACCESS in scopes
            && token.userId.Some? && actions[n].session == token.userId
            && (cfg.clients[k].requireConsent ==>
                  Named(scopes) <= AcceptedBy(cfg, now, actions[..n], token.userId.value, token.clientId))
  {
    var s := Run(cfg, Init(now), actions);
    RunKeeps(cfg, now, actions);
    FlowInv(cfg, now, actions);
    EveryCodeIsDecided(cfg, now, actions);
    hide Run, AcceptedBy, Granted, Named, Decode, Contained, Inv, RefreshFlow.Inv, Authorize;
    CodeOfRoot(cfg, s, id);
    var code := s.codes[s.origins[RefreshTokens.Root(s.refresh.table, id)]];
    n :| DecidedAt(cfg, now, actions, n, code);
    var before := Run(cfg, Init(now), actions[..n]);
    AuthorizedIsCovered(cfg, before.consents, actions[n].cmd, actions[n].session, before.refresh.now);
    var token := s.refresh.table.rows[id].token;
    ConsentIsAccepted(cfg, now, actions[..n], token.userId.value, token.clientId);
  }

  lemma CodeOfRoot(cfg: Config, s: State, id: nat)
    requires Inv(cfg, s) && RefreshFlow.Inv(FlowConfig(cfg), s.refresh) && id in s.refresh.table.rows
    requires RefreshTokens.Root(s.refresh.table, id) in s.origins
    ensures var token := s.refresh.table.rows[id].token;
            var key := s.origins[RefreshTokens.Root(s.refresh.table, id)];
            && key in s.codes
            && token.clientId == s.codes[key].clientId && token.userId == Some(s.codes[key].userId)
            && Decode(cfg.json, token.scopesJson) == Decode(cfg.json, s.codes[key].scopesJson)
            && OFFLINE_ACCESS in Decode(cfg.json, token.scopesJson)
  {
    hide ExchangesOk, TimelyOk, ConsentsOk, Covered, Decode;
    RefreshFlow.RootKeepsGrant(FlowConfig(cfg), s.refresh.table, id);
  }
}
