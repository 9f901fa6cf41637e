/** The whole code grant: when an authorization request gets a code, when that code gets
    tokens, and what the first refresh token carries. */
module CodeGrants {
  import opened Clock
  import opened Wrappers
  import opened Text
  import opened Scopes
  import opened AuthorizationCodes
  import opened Grants
  import RefreshTokens
  import RefreshFlow
  import RefreshChains

  // ---------------------------------------------------------------------------
  // Authorization
  // ---------------------------------------------------------------------------

  /** The names asked for. */
  function Wanted(scope: seq<string>): set<string>
  {
    if Named(scope) == {} then {"openid"} else Named(scope)
  }

  lemma RequestedNames(scope: seq<string>)
    ensures Requested(scope) != [] && Wanted(scope) != {}
    ensures forall name :: name in Requested(scope) <==> name in Wanted(scope)
    ensures forall name :: name in Requested(scope) ==> name != "" && Trim(name) == name
  {
    NormalizedIsNamed(scope);
    OpenidIsTrimmed();
    hide Trim, Named, Normalized;
    if Normalized(scope) == [] {
      assert forall name :: name !in Named(scope);
    } else {
      assert Normalized(scope)[0] in Named(scope);
    }
  }

  lemma TrimmedNames(names: seq<string>)
    requires forall name :: name in names ==> name != "" && Trim(name) == name
    ensures forall name :: name in Named(names) <==> name in names
  {
    hide Trim;
    forall name | name in names
      ensures name in Named(names)
    {
      var i :| 0 <= i < |names| && names[i] == name;
    }
  }

  lemma RequestedIsWanted(scope: seq<string>, allowed: seq<string>)
    ensures Named(Requested(scope)) == Wanted(scope) != {}
    ensures Contained(Requested(scope), allowed) <==> Wanted(scope) <= Named(allowed)
    ensures forall name :: name in Requested(scope) <==> name in Wanted(scope)
  {
    hide Trim, Requested, Wanted, Named;
    RequestedNames(scope);
    TrimmedNames(Requested(scope));
  }

  lemma OpenidIsTrimmed()
    ensures Trim("openid") == "openid"
  {
  }

  /** The request is in order: a known client that may use codes, one of its redirect
      URIs, scopes it registered, and a challenge of a known method or, where the client
      may do without, none. */
  predicate Admissible(cfg: Config, cmd: Command)
  {
    && Trim(cmd.responseType) == "code" && Trim(cmd.clientId) != "" && Trim(cmd.redirectUri) != ""
    && Trim(cmd.clientId) in cfg.clients
    && var client := cfg.clients[Trim(cmd.clientId)];
       && client.active && AuthorizationCode in client.grants && cmd.redirectUri in client.redirectUris
       && Wanted(cmd.scope) <= Named(client.scopes)
       && (if Trim(cmd.challenge) == "" then !client.requirePkce else KnownMethod(Trim(cmd.mode)))
  }

  /** What the user accepted for the client during the run covers the request. */
  predicate Consented(cfg: Config, now: Instant, actions: seq<Action>, cmd: Command, userId: int)
    requires Admissible(cfg, cmd)
  {
    var client := cfg.clients[Trim(cmd.clientId)];
    client.requireConsent ==> Wanted(cmd.scope) <= AcceptedBy(cfg, now, actions, userId, client.id)
  }

  lemma ConsentIsHeld(cfg: Config, now: Instant, actions: seq<Action>, cmd: Command, userId: int)
    requires Grants.Lawful(cfg) && Admissible(cfg, cmd)
    ensures var client, consents := cfg.clients[Trim(cmd.clientId)], Run(cfg, Init(now), actions).consents;
            HasConsent(cfg.json, consents, userId, client.id, Requested(cmd.scope))
            == Some(Wanted(cmd.scope) <= AcceptedBy(cfg, now, actions, userId, client.id))
  {
    hide Run, AcceptedBy, Wanted, Named, Requested, Trim;
    var client := cfg.clients[Trim(cmd.clientId)];
    ConsentIsAccepted(cfg, now, actions, userId, client.id);
    RequestedIsWanted(cmd.scope, client.scopes);
  }

  /** In every run the answer to an authorization request is settled by the request, the
      session and what the user accepted so far. */
  lemma AuthorizesExactly(cfg: Config, now: Instant, actions: seq<Action>, cmd: Command, session: Option<int>)
    requires Grants.Lawful(cfg)
    ensures var s := Run(cfg, Init(now), actions);
            var r := Authorize(cfg, s.consents, cmd, session, s.refresh.now);
            && (r.Invalid? <==> !Admissible(cfg, cmd))
            && (r.RequireLogin? <==> Admissible(cfg, cmd) && session.None?)
            && (r.RequireConsent? <==>
                  Admissible(cfg, cmd) && session.Some? && !Consented(cfg, now, actions, cmd, session.value))
            && (r.Issue? <==>
                  Admissible(cfg, cmd) && session.Some? && Consented(cfg, now, actions, cmd, session.value))
  {
    hide Run, AcceptedBy, Wanted, Named, Requested, Trim, HasConsent, NormalizeMethod, Stored, KnownMethod, Contained;
    if Trim(cmd.clientId) in cfg.clients {
      RequestedIsWanted(cmd.scope, cfg.clients[Trim(cmd.clientId)].scopes);
    }
    if Admissible(cfg, cmd) && session.Some? {
      ConsentIsHeld(cfg, now, actions, cmd, session.value);
    }
  }

  // ---------------------------------------------------------------------------
  // From the code to tokens
  // ---------------------------------------------------------------------------

  /** A token request: how the client presents itself and the code. */
  datatype Redemption = Redemption(id: nat, clientName: string, secretOk: bool, redirectUri: string, verifier: string,
                                   code: string, at: Instant, issueAt: Instant, value: string, cached: bool)

  /** The request is decided and its code stored. */
  function CodeStored(cfg: Config, s: State, id: nat, cmd: Command, userId: int, code: string): State
  {
    Apply(cfg, Apply(cfg, s, Decide(id, cmd, Some(userId), code)), StoreCode(id))
  }

  /** A token request in three steps. */
  function Redeemed(cfg: Config, s: State, r: Redemption): State
  {
    var presented := Apply(cfg, s, Present(r.id, r.clientName, r.redirectUri, r.verifier, r.code, r.secretOk));
    Apply(cfg, Apply(cfg, presented, Consume(r.id, r.at)), IssueTokens(r.id, r.issueAt, r.value, r.cached))
  }

  lemma CodeIsStored(cfg: Config, s: State, id: nat, cmd: Command, userId: int, code: string)
    requires id !in s.pending && cfg.collate(code) !in s.codes
    requires Authorize(cfg, s.consents, cmd, Some(userId), s.refresh.now).Issue?
    ensures var model := Authorize(cfg, s.consents, cmd, Some(userId), s.refresh.now).code;
            CodeStored(cfg, s, id, cmd, userId, code) == s.(codes := s.codes[cfg.collate(code) := model])
  {
    hide Authorize;
    var model := Authorize(cfg, s.consents, cmd, Some(userId), s.refresh.now).code;
    assert s.pending[id := (cfg.collate(code), model)] - {id} == s.pending;
  }

  /** The client presenting the code is authenticated and may use codes. */
  predicate Presentable(cfg: Config, r: Redemption)
  {
    && Trim(r.clientName) in cfg.clients && r.secretOk
    && var client := cfg.clients[Trim(r.clientName)];
       client.active && AuthorizationCode in client.grants && r.redirectUri in client.redirectUris
  }

  /** The code was issued to this client, redirect URI and proof key, and is in time. */
  predicate Redeemable(cfg: Config, code: Code, r: Redemption)
    requires Trim(r.clientName) in cfg.clients
  {
    var client := cfg.clients[Trim(r.clientName)];
    && code.clientId == client.id && code.redirectUri == r.redirectUri && r.at < code.expiresAt
    && ValidVerifier(cfg.s256, code.challenge, code.mode, client.requirePkce, r.verifier)
    && code.userId in cfg.users
  }

  predicate GetsRefreshToken(cfg: Config, code: Code, r: Redemption)
    requires Trim(r.clientName) in cfg.clients
  {
    var client := cfg.clients[Trim(r.clientName)];
    RefreshToken in client.grants && client.refreshTtl > 0 && OFFLINE_ACCESS in Decode(cfg.json, code.scopesJson)
  }

  /** The row of the first refresh token. */
  predicate FirstRow(cfg: Config, code: Code, r: Redemption, row: RefreshTokens.Row)
    requires Trim(r.clientName) in cfg.clients && code.userId in cfg.users
  {
    var client := cfg.clients[Trim(r.clientName)];
    && row.token.value == r.value && row.token.sha == cfg.hash(r.value)
    && row.token.clientId == code.clientId && row.token.userId == Some(code.userId)
    && row.token.subject == cfg.users[code.userId]
    && Decode(cfg.json, row.token.scopesJson) == Decode(cfg.json, code.scopesJson)
    && row.token.issuedAt == r.issueAt && row.expiresAt == Stored(r.issueAt + Seconds(client.refreshTtl))
    && row.revokedAt.None? && row.replacedBy.None?
  }

  lemma NotPresented(cfg: Config, s: State, r: Redemption)
    requires r.id !in s.exchanges && !Presentable(cfg, r)
    ensures Redeemed(cfg, s, r) == s
  {
    hide Trim, AfterConsume, AfterIssue;
  }

  lemma PresentedAndConsumed(cfg: Config, s: State, r: Redemption)
    requires r.id !in s.exchanges && Presentable(cfg, r)
    requires var key := cfg.collate(r.code); key in s.codes && s.codes[key].consumedAt.None?
    ensures var key := cfg.collate(r.code);
            var presented := Apply(cfg, s, Present(r.id, r.clientName, r.redirectUri, r.verifier, r.code, r.secretOk));
            var consumed := Apply(cfg, presented, Consume(r.id, r.at));
            && r.id in consumed.exchanges && consumed.refresh == s.refresh
            && consumed.exchanges[r.id]
               == Exchange(cfg.clients[Trim(r.clientName)], key, r.redirectUri, r.verifier,
                           if r.at < s.codes[key].expiresAt then Holding(Consumed(s.codes[key], r.at)) else Failed)
  {
    hide Trim, Stored;
  }

  /** The request holds the code that `r` presented. */
  predicate HoldsCode(cfg: Config, e: Exchange, code: Code, r: Redemption)
  {
    && Trim(r.clientName) in cfg.clients && e.client == cfg.clients[Trim(r.clientName)]
    && e.redirectUri == r.redirectUri && e.verifier == r.verifier
    && e.stage == Holding(Consumed(code, r.at)) && r.at < code.expiresAt
  }

  lemma AcceptableExactly(cfg: Config, e: Exchange, code: Code, r: Redemption)
    requires HoldsCode(cfg, e, code, r)
    ensures Acceptable(cfg, e) <==> Redeemable(cfg, code, r)
    ensures MayIssueRefreshToken(e.client, Decode(cfg.json, e.stage.code.scopesJson)) <==>
            GetsRefreshToken(cfg, code, r)
  {
    hide Trim, Decode, ValidVerifier;
  }

  lemma FirstRowOf(cfg: Config, e: Exchange, code: Code, r: Redemption)
    requires Grants.Lawful(cfg) && HoldsCode(cfg, e, code, r) && Redeemable(cfg, code, r)
    ensures FirstRow(cfg, code, r, RefreshTokens.NewRow(FirstToken(cfg, e, r.issueAt, r.value)))
  {
    DecodeAfterEncode(cfg.json, Decode(cfg.json, code.scopesJson));
    hide Trim, Decode, ValidVerifier, Stored;
  }

  lemma GrantInserts(cfg: RefreshFlow.Config, s: RefreshFlow.State, token: RefreshTokens.Token, cached: bool)
    requires token.sha !in s.table.bySha
    ensures RefreshFlow.Apply(cfg, s, RefreshFlow.Grant(token, cached)).table
            == RefreshTokens.Table(s.table.rows[s.table.next := RefreshTokens.NewRow(token)],
                                   s.table.bySha[token.sha := s.table.next], s.table.next + 1)
  {
    hide RefreshTokens.NewRow;
  }

  lemma FirstTokenCases(cfg: Config, s: State, id: nat, token: RefreshTokens.Token, cached: bool)
    requires id in s.exchanges
    ensures var u := WithFirstToken(cfg, s, id, token, cached);
            && id in u.exchanges
            && u.exchanges[id].stage == (if token.sha in s.refresh.table.bySha then Failed else Issued)
            && u.refresh == if token.sha in s.refresh.table.bySha then s.refresh
                            else RefreshFlow.Apply(FlowConfig(cfg), s.refresh, RefreshFlow.Grant(token, cached))
  {
    hide RefreshFlow.Apply;
  }

  lemma IssueCases(cfg: Config, s: State, r: Redemption)
    requires r.id in s.exchanges && s.exchanges[r.id].stage.Holding?
    ensures var e, u := s.exchanges[r.id], Apply(cfg, s, IssueTokens(r.id, r.issueAt, r.value, r.cached));
            var more := MayIssueRefreshToken(e.client, Decode(cfg.json, e.stage.code.scopesJson));
            && r.id in u.exchanges
            && (u.exchanges[r.id].stage.Issued? <==>
                  Acceptable(cfg, e) && (more ==> cfg.hash(r.value) !in s.refresh.table.bySha))
            && (if u.exchanges[r.id].stage.Issued? && more then
                  && e.stage.code.userId in cfg.users
                  && u.refresh == RefreshFlow.Apply(FlowConfig(cfg), s.refresh,
                                                    RefreshFlow.Grant(FirstToken(cfg, e, r.issueAt, r.value), r.cached))
                else u.refresh == s.refresh)
  {
    hide Decode, Acceptable, MayIssueRefreshToken, RefreshFlow.Apply, AfterAccept, AfterDecide, AfterStoreCode,
         AfterPresent, AfterConsume, WithFirstToken;
    var e := s.exchanges[r.id];
    if Acceptable(cfg, e) {
      AcceptableUser(cfg, e);
      FirstTokenCases(cfg, s, r.id, FirstToken(cfg, e, r.issueAt, r.value), r.cached);
    }
  }

  lemma IssueAnswers(cfg: Config, s: State, r: Redemption, code: Code)
    requires Grants.Lawful(cfg) && r.id in s.exchanges && HoldsCode(cfg, s.exchanges[r.id], code, r)
    ensures var u := Apply(cfg, s, IssueTokens(r.id, r.issueAt, r.value, r.cached));
            && r.id in u.exchanges
            && (u.exchanges[r.id].stage.Issued? <==>
                  && Redeemable(cfg, code, r)
                  && (GetsRefreshToken(cfg, code, r) ==> cfg.hash(r.value) !in s.refresh.table.bySha))
            && (if u.exchanges[r.id].stage.Issued? && GetsRefreshToken(cfg, code, r) then
                  && u.refresh.table.next == s.refresh.table.next + 1
                  && s.refresh.table.next in u.refresh.table.rows
                  && u.refresh.table.bySha == s.refresh.table.bySha[cfg.hash(r.value) := s.refresh.table.next]
                  && FirstRow(cfg, code, r, u.refresh.table.rows[s.refresh.table.next])
                else u.refresh == s.refresh)
  {
    hide Trim, Decode, Apply, RefreshFlow.Apply, FirstRow, Redeemable, GetsRefreshToken, Acceptable,
         MayIssueRefreshToken, RefreshTokens.NewRow;
    var e := s.exchanges[r.id];
    AcceptableExactly(cfg, e, code, r);
    IssueCases(cfg, s, r);
    if Redeemable(cfg, code, r) && cfg.hash(r.value) !in s.refresh.table.bySha {
      AcceptableUser(cfg, e);
      FirstRowOf(cfg, e, code, r);
      GrantInserts(FlowConfig(cfg), s.refresh, FirstToken(cfg, e, r.issueAt, r.value), r.cached);
    }
  }

  /** A stored code that nobody has consumed yields tokens exactly if an authenticated
      client that may use codes presents it in time, with the code's redirect URI and
      proof key, for a known user, and the refresh token, if there is one, is new. There
      is one exactly if the client has refresh tokens and offline access was granted. */
  lemma RedeemsExactly(cfg: Config, s: State, r: Redemption)
    requires Grants.Lawful(cfg) && r.id !in s.exchanges
    requires var key := cfg.collate(r.code); key in s.codes && s.codes[key].consumedAt.None?
    ensures var u, code := Redeemed(cfg, s, r), s.codes[cfg.collate(r.code)];
            var issued := r.id in u.exchanges && u.exchanges[r.id].stage.Issued?;
            && (issued <==>
                  && Presentable(cfg, r) && Redeemable(cfg, code, r)
                  && (GetsRefreshToken(cfg, code, r) ==> cfg.hash(r.value) !in s.refresh.table.bySha))
            && (if issued && GetsRefreshToken(cfg, code, r) then
                  && s.refresh.table.next in u.refresh.table.rows
                  && u.refresh.table.bySha == s.refresh.table.bySha[cfg.hash(r.value) := s.refresh.table.next]
                  && FirstRow(cfg, code, r, u.refresh.table.rows[s.refresh.table.next])
                else u.refresh == s.refresh)
  {
    hide Trim, Apply, Redeemable, GetsRefreshToken, FirstRow;
    if !Presentable(cfg, r) {
      NotPresented(cfg, s, r);
    } else {
      PresentedAndConsumed(cfg, s, r);
      var presented := Apply(cfg, s, Present(r.id, r.clientName, r.redirectUri, r.verifier, r.code, r.secretOk));
      var consumed := Apply(cfg, presented, Consume(r.id, r.at));
      var code := s.codes[cfg.collate(r.code)];
      if r.at < code.expiresAt {
        IssueAnswers(cfg, consumed, r, code);
      } else {
        LateIsRefused(cfg, consumed, r, code);
      }
    }
  }

  /** In every run the refresh token that a code yields is let through the replay check and
      unused until it expires, whether or not Redis learned of it. */
  lemma FirstTokenIsUsable(cfg: Config, now: Instant, actions: seq<Action>, r: Redemption, t: Instant)
    requires Grants.Lawful(cfg) && r.id !in Run(cfg, Init(now), actions).exchanges && Presentable(cfg, r)
    requires var s, key := Run(cfg, Init(now), actions), cfg.collate(r.code);
             && key in s.codes && s.codes[key].consumedAt.None? && Redeemable(cfg, s.codes[key], r)
             && GetsRefreshToken(cfg, s.codes[key], r) && cfg.hash(r.value) !in s.refresh.table.bySha
    ensures var s := Run(cfg, Init(now), actions);
            var u, client, sha := Redeemed(cfg, s, r), cfg.clients[Trim(r.clientName)], cfg.hash(r.value);
            && RefreshFlow.Admitted(u.refresh.cache, sha)
            && (RefreshFlow.Unused(u.refresh.table, sha, client.id, t) <==>
                  t < Stored(r.issueAt + Seconds(client.refreshTtl)))
  {
    hide Run, Apply, RefreshFlow.Apply, RefreshFlow.Run, RefreshFlow.Admitted, RefreshFlow.Unused, Trim, Decode,
         Stored, Redeemable, GetsRefreshToken, Acceptable, MayIssueRefreshToken;
    var s := Run(cfg, Init(now), actions);
    var steps := FlowRun(cfg, now, actions);
    PresentedAndConsumed(cfg, s, r);
    var presented := Apply(cfg, s, Present(r.id, r.clientName, r.redirectUri, r.verifier, r.code, r.secretOk));
    var consumed := Apply(cfg, presented, Consume(r.id, r.at));
    var code := s.codes[cfg.collate(r.code)];
    InTime(cfg, code, r);
    AcceptableExactly(cfg, consumed.exchanges[r.id], code, r);
    IssueCases(cfg, consumed, r);
    AcceptableUser(cfg, consumed.exchanges[r.id]);
    RefreshChains.GrantIsFollowed(FlowConfig(cfg), s.refresh,
                                  FirstToken(cfg, consumed.exchanges[r.id], r.issueAt, r.value), r.cached, t);
  }

  lemma InTime(cfg: Config, code: Code, r: Redemption)
    requires Trim(r.clientName) in cfg.clients && Redeemable(cfg, code, r)
    ensures r.at < code.expiresAt
  {
    hide Trim, ValidVerifier;
  }

  lemma LateIsRefused(cfg: Config, s: State, r: Redemption, code: Code)
    requires r.id in s.exchanges && s.exchanges[r.id].stage.Failed? && r.at >= code.expiresAt
    requires Trim(r.clientName) in cfg.clients
    ensures Apply(cfg, s, IssueTokens(r.id, r.issueAt, r.value, r.cached)) == s && !Redeemable(cfg, code, r)
  {
    hide Trim, AfterIssue, ValidVerifier;
  }

  /** From the request to the tokens, in every run: the user's accepted scopes become a
      code, and the client that asked, presenting it in time with its redirect URI and
      verifier, gets tokens, unless the new refresh token's hash is taken. The refresh
      token carries the client, the user, the user's subject and the names asked for. */
  lemma CodeGrantSucceeds(cfg: Config, now: Instant, actions: seq<Action>, id: nat, cmd: Command, userId: int,
                          code: string, r: Redemption)
    requires Grants.Lawful(cfg) && userId in cfg.users
    requires Admissible(cfg, cmd) && Consented(cfg, now, actions, cmd, userId)
    requires var s := Run(cfg, Init(now), actions);
             && id !in s.pending && r.id !in s.exchanges
             && cfg.collate(code) !in s.codes && cfg.collate(r.code) == cfg.collate(code)
             && r.at < Stored(s.refresh.now + cfg.codeTtl) && cfg.hash(r.value) !in s.refresh.table.bySha
    requires Trim(r.clientName) == Trim(cmd.clientId) && r.secretOk && r.redirectUri == cmd.redirectUri
    requires var mode := NormalizeMethod(Trim(cmd.mode));
             Trim(cmd.challenge) != "" ==>
               (mode == "plain" || mode == "S256") && r.verifier != ""
               && Transform(cfg.s256, mode, r.verifier) == Trim(cmd.challenge)
    ensures var s := Run(cfg, Init(now), actions);
            var u := Redeemed(cfg, CodeStored(cfg, s, id, cmd, userId, code), r);
            var client := cfg.clients[Trim(cmd.clientId)];
            && r.id in u.exchanges && u.exchanges[r.id].stage.Issued?
            && (if RefreshToken in client.grants && client.refreshTtl > 0 && OFFLINE_ACCESS in Wanted(cmd.scope) then
                  && s.refresh.table.next in u.refresh.table.rows
                  && var row := u.refresh.table.rows[s.refresh.table.next];
                     && row.token.sha == cfg.hash(r.value) && row.token.clientId == client.id
                     && row.token.userId == Some(userId) && row.token.subject == cfg.users[userId]
                     && Named(Decode(cfg.json, row.token.scopesJson)) == Wanted(cmd.scope)
                     && row.expiresAt == Stored(r.issueAt + Seconds(client.refreshTtl))
                else u.refresh == s.refresh)
  {
    hide Run, Trim, Wanted, Requested, Named, Authorize, Redeemed, CodeStored, Stored, NormalizeMethod, Decode,
         AcceptedBy;
    var s := Run(cfg, Init(now), actions);
    AuthorizesExactly(cfg, now, actions, cmd, Some(userId));
    var model := Authorize(cfg, s.consents, cmd, Some(userId), s.refresh.now).code;
    CodeIsStored(cfg, s, id, cmd, userId, code);
    IssuedCode(cfg, s.consents, cmd, userId, s.refresh.now);
    IssuedChallengeIsUsable(cfg, s.consents, cmd, Some(userId), s.refresh.now,
                            cfg.clients[Trim(cmd.clientId)].requirePkce, r.verifier);
    IssuedShape(cfg, s.consents, cmd, Some(userId), s.refresh.now);
    RequestedIsWanted(cmd.scope, []);
    RedeemsExactly(cfg, s.(codes := s.codes[cfg.collate(code) := model]), r);
  }

  lemma IssuedCode(cfg: Config, consents: Consents, cmd: Command, userId: int, now: Instant)
    requires Grants.Lawful(cfg) && Authorize(cfg, consents, cmd, Some(userId), now).Issue?
    ensures var code := Authorize(cfg, consents, cmd, Some(userId), now).code;
            && Trim(cmd.clientId) in cfg.clients && code.clientId == cfg.clients[Trim(cmd.clientId)].id
            && code.userId == userId && code.redirectUri == cmd.redirectUri && code.consumedAt.None?
            && code.expiresAt == Stored(now + cfg.codeTtl)
            && Decode(cfg.json, code.scopesJson) == Requested(cmd.scope)
  {
    hide Trim, Decode, Requested, Authorize, Stored;
    AuthorizedIsCovered(cfg, consents, cmd, Some(userId), now);
    IssuedScopes(cfg, consents, cmd, userId, now);
    DecodeAfterEncode(cfg.json, Requested(cmd.scope));
  }

  lemma IssuedScopes(cfg: Config, consents: Consents, cmd: Command, userId: int, now: Instant)
    requires Authorize(cfg, consents, cmd, Some(userId), now).Issue?
    ensures Authorize(cfg, consents, cmd, Some(userId), now).code.scopesJson == cfg.json.encode(Requested(cmd.scope))
  {
    hide Trim, Requested, Contained, HasConsent, Stored, NormalizeMethod, ValidChallenge;
  }
}
