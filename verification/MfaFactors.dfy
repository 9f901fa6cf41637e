/** Each second factor on its own: exactly when it turns a challenge into a session, from
    the challenge's creation on. */
module MfaFactors {
  import opened Clock
  import opened Wrappers
  import opened Text
  import opened ChallengeMask
  import opened MfaChallenges
  import Sessions
  import Totp
  import TotpUse

  /** The stores and the clock are as before. */
  predicate Quiet(s: State, u: State)
  {
    u.slots == s.slots && u.now == s.now && u.browsers == s.browsers && u.used == s.used
  }

  /** The operation would get to work on what is stored. */
  predicate Ready(slot: Slot, op: Op, now: Instant)
  {
    slot.hash.Some? && slot.hash.value.expiresAt > now && Admits(op, slot.hash.value)
  }

  // ---------------------------------------------------------------------------
  // Reading and finishing
  // ---------------------------------------------------------------------------

  /** A request that starts now reads both keys. */
  ghost function Opened(crypto: Totp.Crypto, s: State, id: nat, challenge: string, op: Op): State
    requires Totp.Lawful(crypto)
  {
    Apply(crypto, Apply(crypto, s, ReadHash(id, challenge, op, s.now)), ReadState(id))
  }

  lemma ReadsHash(crypto: Totp.Crypto, s: State, id: nat, challenge: string, op: Op)
    requires Totp.Lawful(crypto) && id !in s.requests && s.now >= 0
    ensures var u, slot := Apply(crypto, s, ReadHash(id, challenge, op, s.now)), SlotOf(s.slots, challenge);
            && Quiet(s, u)
            && (id in u.requests <==> Ready(slot, op, s.now))
            && (id in u.requests ==>
                  && u.requests[id].op == op && u.requests[id].challenge == challenge
                  && u.requests[id].seenAt == s.now && u.requests[id].hash == slot.hash.value
                  && u.requests[id].stage.Reading?)
  {
    hide Admits, SlotOf;
  }

  lemma ReadsState(crypto: Totp.Crypto, s: State, id: nat)
    requires Totp.Lawful(crypto) && (id in s.requests ==> s.requests[id].stage.Reading?)
    ensures var u := Apply(crypto, s, ReadState(id));
            && Quiet(s, u) && (id in u.requests <==> id in s.requests)
            && (id in u.requests ==>
                  var r := s.requests[id];
                  && u.requests[id].(version := r.version, gap := r.gap, stage := r.stage) == r
                  && u.requests[id].version == VersionOf(SlotOf(s.slots, r.challenge))
                  && u.requests[id].stage == if r.op.PushFinish? then Proved(Approval) else Loaded)
  {
    hide SlotOf, VersionOf;
  }

  lemma Opens(crypto: Totp.Crypto, s: State, id: nat, challenge: string, op: Op)
    requires Totp.Lawful(crypto) && id !in s.requests && s.now >= 0
    ensures var u, slot := Opened(crypto, s, id, challenge, op), SlotOf(s.slots, challenge);
            && Quiet(s, u)
            && (id in u.requests <==> Ready(slot, op, s.now))
            && (id in u.requests ==>
                  && u.requests[id].op == op && u.requests[id].challenge == challenge
                  && u.requests[id].seenAt == s.now
                  && u.requests[id].hash == slot.hash.value && u.requests[id].version == VersionOf(slot)
                  && u.requests[id].stage == if op.PushFinish? then Proved(Approval) else Loaded)
  {
    hide Admits, SlotOf, Apply, VersionOf;
    ReadsHash(crypto, s, id, challenge, op);
    ReadsState(crypto, Apply(crypto, s, ReadHash(id, challenge, op, s.now)), id);
  }

  /** A request that has its proof deletes the challenge and issues the session. */
  ghost function Concluded(crypto: Totp.Crypto, s: State, id: nat): State
    requires Totp.Lawful(crypto)
  {
    Apply(crypto, Apply(crypto, s, Delete(id)), IssueSession(id))
  }

  predicate HasSession(s: State, id: nat, userId: int)
  {
    id in s.requests && s.requests[id].stage.Issued? && s.requests[id].hash.userId == userId
  }

  lemma ProofGivesSession(crypto: Totp.Crypto, s: State, id: nat)
    requires Totp.Lawful(crypto) && id in s.requests && s.requests[id].stage.Proved?
    ensures var u := Concluded(crypto, s, id);
            && HasSession(u, id, s.requests[id].hash.userId)
            && SlotOf(u.slots, s.requests[id].challenge) == GONE
  {
    var u := Apply(crypto, s, Delete(id));
    assert u.requests[id].stage.Deleted? && SlotOf(u.slots, s.requests[id].challenge) == GONE;
  }

  lemma NoProofNoSession(crypto: Totp.Crypto, s: State, id: nat)
    requires Totp.Lawful(crypto)
    requires id in s.requests ==> s.requests[id].stage.Loaded? || s.requests[id].stage.Failed?
    ensures Quiet(s, Concluded(crypto, s, id)) && forall userId :: !HasSession(Concluded(crypto, s, id), id, userId)
  {
  }

  // ---------------------------------------------------------------------------
  // The factors
  // ---------------------------------------------------------------------------

  ghost function CodeFinished(crypto: Totp.Crypto, s: State, id: nat, challenge: string, secret: string,
                              code: string): State
    requires Totp.Lawful(crypto)
  {
    Concluded(crypto, Apply(crypto, Opened(crypto, s, id, challenge, OneTimeCode), Reserve(id, secret, code)), id)
  }

  ghost function PasskeyFinished(crypto: Totp.Crypto, s: State, id: nat, challenge: string): State
    requires Totp.Lawful(crypto)
  {
    Concluded(crypto, Apply(crypto, Opened(crypto, s, id, challenge, PasskeyFinish), FinishAssertion(id)), id)
  }

  ghost function PushFinished(crypto: Totp.Crypto, s: State, id: nat, challenge: string): State
    requires Totp.Lawful(crypto)
  {
    Concluded(crypto, Opened(crypto, s, id, challenge, PushFinish), id)
  }

  lemma ReservesExactly(crypto: Totp.Crypto, s: State, id: nat, secret: string, code: string)
    requires Totp.Lawful(crypto) && At(s, id, OneTimeCode)
    ensures var u, step := Apply(crypto, s, Reserve(id, secret, code)),
                           Totp.Matched(crypto, secret, code, s.requests[id].seenAt);
            && id in u.requests && u.requests[id].hash == s.requests[id].hash
            && if step.Some? && TotpUse.Free(s.used, KeyOf(s.requests[id].hash.userId, step.value), s.now)
               then u.requests[id].stage.Proved?
               else u.requests[id].stage.Failed?
  {
    hide Totp.Matched, TotpUse.Free;
  }

  /** A one-time code gives the challenge's user a session exactly if the challenge is
      live and the code stands for a step of the window that is not in use. */
  lemma CodeGivesSessionExactly(crypto: Totp.Crypto, s: State, id: nat, challenge: string, secret: string,
                                code: string, userId: int)
    requires Totp.Lawful(crypto) && id !in s.requests && s.now >= 0
    ensures var slot, step := SlotOf(s.slots, challenge), Totp.Matched(crypto, secret, code, s.now);
            HasSession(CodeFinished(crypto, s, id, challenge, secret, code), id, userId) <==>
            && slot.hash.Some? && slot.hash.value.expiresAt > s.now && slot.hash.value.userId == userId > 0
            && step.Some? && TotpUse.Free(s.used, KeyOf(userId, step.value), s.now)
  {
    hide Apply, SlotOf, Totp.Matched, TotpUse.Free, Concluded, Opened, KeyOf;
    Opens(crypto, s, id, challenge, OneTimeCode);
    var u := Opened(crypto, s, id, challenge, OneTimeCode);
    var v := Apply(crypto, u, Reserve(id, secret, code));
    if id in u.requests {
      ReservesExactly(crypto, u, id, secret, code);
    } else {
      AbsentStays(crypto, u, id, Reserve(id, secret, code));
    }
    if id in v.requests && v.requests[id].stage.Proved? {
      ProofGivesSession(crypto, v, id);
    } else {
      NoProofNoSession(crypto, v, id);
    }
  }

  lemma AbsentStays(crypto: Totp.Crypto, s: State, id: nat, a: Action)
    requires Totp.Lawful(crypto) && id !in s.requests
    requires a.Reserve? || a.FinishAssertion? || a.BindPasskey? || a.Resolve? || a.Decide?
    requires a.id == id
    ensures Quiet(s, Apply(crypto, s, a)) && id !in Apply(crypto, s, a).requests
  {
  }

  lemma AssertionProves(crypto: Totp.Crypto, s: State, id: nat)
    requires Totp.Lawful(crypto) && At(s, id, PasskeyFinish)
    ensures var u := Apply(crypto, s, FinishAssertion(id));
            && id in u.requests && u.requests[id].hash == s.requests[id].hash && u.requests[id].stage.Proved?
  {
  }

  /** A verified assertion gives the challenge's user a session exactly if the challenge is
      live, in passkey mode and bound to a passkey login. */
  lemma PasskeyGivesSessionExactly(crypto: Totp.Crypto, s: State, id: nat, challenge: string, userId: int)
    requires Totp.Lawful(crypto) && id !in s.requests && s.now >= 0
    ensures var slot := SlotOf(s.slots, challenge);
            HasSession(PasskeyFinished(crypto, s, id, challenge), id, userId) <==>
            && slot.hash.Some? && slot.hash.value.expiresAt > s.now && slot.hash.value.userId == userId > 0
            && slot.hash.value.mode.Passkey? && Trim(slot.hash.value.passkey) != ""
  {
    hide Apply, SlotOf, Trim, Concluded, Opened;
    Opens(crypto, s, id, challenge, PasskeyFinish);
    var u := Opened(crypto, s, id, challenge, PasskeyFinish);
    var v := Apply(crypto, u, FinishAssertion(id));
    if id in u.requests {
      AssertionProves(crypto, u, id);
      ProofGivesSession(crypto, v, id);
    } else {
      AbsentStays(crypto, u, id, FinishAssertion(id));
      NoProofNoSession(crypto, v, id);
    }
  }

  /** A push gives the challenge's user a session exactly if the challenge is live and
      says approved. */
  lemma PushGivesSessionExactly(crypto: Totp.Crypto, s: State, id: nat, challenge: string, userId: int)
    requires Totp.Lawful(crypto) && id !in s.requests && s.now >= 0
    ensures var slot := SlotOf(s.slots, challenge);
            HasSession(PushFinished(crypto, s, id, challenge), id, userId) <==>
            && slot.hash.Some? && slot.hash.value.expiresAt > s.now && slot.hash.value.userId == userId > 0
            && slot.hash.value.push.Approved?
  {
    hide Apply, SlotOf, Concluded, Opened;
    Opens(crypto, s, id, challenge, PushFinish);
    var u := Opened(crypto, s, id, challenge, PushFinish);
    if id in u.requests {
      ProofGivesSession(crypto, u, id);
    } else {
      NoProofNoSession(crypto, u, id);
    }
  }

  // ---------------------------------------------------------------------------
  // Writing back
  // ---------------------------------------------------------------------------

  /** The stored decision admits this one. */
  predicate Compatible(slot: Slot, decision: Decision)
  {
    Standing(slot).Pending? || Standing(slot) == decision
  }

  ghost function PushDecided(crypto: Totp.Crypto, s: State, id: nat, challenge: string, sessionId: string,
                             approve: bool, matchCode: string): State
    requires Totp.Lawful(crypto)
  {
    var begun := Opened(crypto, s, id, challenge, PushDecide);
    Apply(crypto, Apply(crypto, begun, Resolve(id, sessionId)), Decide(id, approve, matchCode))
  }

  ghost function PasskeyBound(crypto: Totp.Crypto, s: State, id: nat, challenge: string, session: string): State
    requires Totp.Lawful(crypto)
  {
    Apply(crypto, Opened(crypto, s, id, challenge, PasskeyBegin), BindPasskey(id, session))
  }

  lemma ResolvesExactly(crypto: Totp.Crypto, s: State, id: nat, sessionId: string)
    requires Totp.Lawful(crypto) && At(s, id, PushDecide)
    ensures var u, r := Apply(crypto, s, Resolve(id, sessionId)), s.requests[id];
            && Quiet(s, u) && id in u.requests
            && u.requests[id].challenge == r.challenge && u.requests[id].hash == r.hash
            && u.requests[id].version == r.version
            && if Trim(sessionId) != ""
                  && Sessions.CacheFirstLookup(s.browsers.store, Trim(sessionId), s.now) == Some(r.hash.userId)
               then u.requests[id].stage == Approving(r.hash.userId)
               else u.requests[id].stage.Failed?
  {
    hide Sessions.CacheFirstLookup, Trim;
  }

  lemma SavesExactly(s: State, id: nat, changed: Hash)
    requires id in s.requests && s.requests[id].version == VersionOf(SlotOf(s.slots, s.requests[id].challenge))
    ensures var u, c := AfterSave(s, id, changed), s.requests[id].challenge;
            && u.now == s.now
            && u.slots == if Compatible(SlotOf(s.slots, c), DecisionOf(changed))
                          then s.slots[c := Slot(Some(changed), Some(Packed(DecisionOf(changed),
                                                                            NextVersion(s.requests[id].version))))]
                          else s.slots
  {
    hide SlotOf, NextVersion;
  }

  lemma DecidesExactly(crypto: Totp.Crypto, s: State, id: nat, approve: bool, matchCode: string)
    requires Totp.Lawful(crypto) && AtDecision(s, id) && s.requests[id].hash.mode.Push?
    requires s.requests[id].version == VersionOf(SlotOf(s.slots, s.requests[id].challenge))
    ensures var u, c := Apply(crypto, s, Decide(id, approve, matchCode)), s.requests[id].challenge;
            var decision := if approve then Approved else Denied;
            && u.now == s.now
            && u.slots == if (approve ==> CodeMatches(matchCode, s.requests[id].hash))
                             && Compatible(SlotOf(s.slots, c), decision)
                          then s.slots[c := Slot(Some(s.requests[id].hash.(push := decision)),
                                                 Some(Packed(decision, NextVersion(s.requests[id].version))))]
                          else s.slots
  {
    hide AfterSave, SlotOf, NextVersion, CodeMatches, Compatible;
    SavesExactly(s, id, s.requests[id].hash.(push := if approve then Approved else Denied));
  }

  lemma UndecidedStays(crypto: Totp.Crypto, s: State, id: nat, approve: bool, matchCode: string)
    requires Totp.Lawful(crypto) && !AtDecision(s, id)
    ensures Quiet(s, Apply(crypto, s, Decide(id, approve, matchCode)))
  {
  }

  /** The session that brings the decision belongs to the challenge's user. */
  predicate OwnSession(s: State, sessionId: string, userId: int)
  {
    Trim(sessionId) != "" && Sessions.CacheFirstLookup(s.browsers.store, Trim(sessionId), s.now) == Some(userId)
  }

  /** A push decision is stored exactly if the challenge is live and in push mode, a
      session of its own user brings it, an approval comes with the code, and no other
      decision stands. */
  lemma PushDecisionExactly(crypto: Totp.Crypto, s: State, id: nat, challenge: string, sessionId: string,
                            approve: bool, matchCode: string)
    requires Totp.Lawful(crypto) && id !in s.requests && s.now >= 0
    ensures var u, slot := PushDecided(crypto, s, id, challenge, sessionId, approve, matchCode),
                           SlotOf(s.slots, challenge);
            var decision := if approve then Approved else Denied;
            && u.now == s.now
            && u.slots == if Ready(slot, PushDecide, s.now) && OwnSession(s, sessionId, slot.hash.value.userId)
                             && (approve ==> CodeMatches(matchCode, slot.hash.value)) && Compatible(slot, decision)
                          then s.slots[challenge := Slot(Some(slot.hash.value.(push := decision)),
                                                         Some(Packed(decision, NextVersion(VersionOf(slot)))))]
                          else s.slots
  {
    hide Apply, SlotOf, Opened, Trim, Sessions.CacheFirstLookup, NextVersion, VersionOf, CodeMatches, Compatible;
    Opens(crypto, s, id, challenge, PushDecide);
    var u := Opened(crypto, s, id, challenge, PushDecide);
    var v := Apply(crypto, u, Resolve(id, sessionId));
    if id in u.requests {
      ResolvesExactly(crypto, u, id, sessionId);
    } else {
      AbsentStays(crypto, u, id, Resolve(id, sessionId));
    }
    if AtDecision(v, id) {
      DecidesExactly(crypto, v, id, approve, matchCode);
    } else {
      UndecidedStays(crypto, v, id, approve, matchCode);
    }
  }

  /** A passkey login is bound to the challenge exactly if it is live, in passkey mode and
      without a decision. */
  lemma PasskeyBindsExactly(crypto: Totp.Crypto, s: State, id: nat, challenge: string, session: string)
    requires Totp.Lawful(crypto) && id !in s.requests && s.now >= 0
    ensures var u, slot := PasskeyBound(crypto, s, id, challenge, session), SlotOf(s.slots, challenge);
            && u.now == s.now
            && u.slots == if Ready(slot, PasskeyBegin, s.now) && Compatible(slot, Pending)
                          then s.slots[challenge := Slot(Some(slot.hash.value.(passkey := session)),
                                                         Some(Packed(Pending, NextVersion(VersionOf(slot)))))]
                          else s.slots
  {
    hide SlotOf, Opened, NextVersion, VersionOf, Compatible, AfterSave, Trim;
    Opens(crypto, s, id, challenge, PasskeyBegin);
    var u := Opened(crypto, s, id, challenge, PasskeyBegin);
    if id in u.requests {
      SavesExactly(u, id, u.requests[id].hash.(passkey := session));
    }
  }

  ghost function ModeChanged(crypto: Totp.Crypto, s: State, id: nat, challenge: string, mode: Mode): State
    requires Totp.Lawful(crypto)
  {
    Apply(crypto, Opened(crypto, s, id, challenge, ModeUpdate), ChangeMode(id, mode))
  }

  /** The mode is changed exactly if the challenge is live and no decision stands that the
      new mode does not allow. */
  lemma ModeChangesExactly(crypto: Totp.Crypto, s: State, id: nat, challenge: string, mode: Mode)
    requires Totp.Lawful(crypto) && id !in s.requests && s.now >= 0
    ensures var u, slot := ModeChanged(crypto, s, id, challenge, mode), SlotOf(s.slots, challenge);
            && u.now == s.now
            && u.slots == if Ready(slot, ModeUpdate, s.now)
                             && Compatible(slot, DecisionOf(slot.hash.value.(mode := mode)))
                          then s.slots[challenge := Slot(Some(slot.hash.value.(mode := mode)),
                                                         Some(Packed(DecisionOf(slot.hash.value.(mode := mode)),
                                                                     NextVersion(VersionOf(slot)))))]
                          else s.slots
  {
    hide SlotOf, Opened, NextVersion, VersionOf, Compatible, AfterSave, Trim;
    Opens(crypto, s, id, challenge, ModeUpdate);
    var u := Opened(crypto, s, id, challenge, ModeUpdate);
    if id in u.requests {
      SavesExactly(u, id, u.requests[id].hash.(mode := mode));
    }
  }

  // ---------------------------------------------------------------------------
  // From the beginning
  // ---------------------------------------------------------------------------

  lemma Begins(crypto: Totp.Crypto, s: State, challenge: string, userId: int, mode: Mode, pushCode: string,
               ttl: Duration)
    requires Totp.Lawful(crypto) && challenge !in s.origins
    ensures var u := Apply(crypto, s, Create(challenge, userId, mode, pushCode, ttl));
            && u.now == s.now && u.browsers == s.browsers && u.requests == s.requests
            && SlotOf(u.slots, challenge)
               == Slot(Some(Hash(userId, WholeSecond(s.now + ttl), mode, Pending, pushCode, "")),
                       Some(Packed(Pending, 1)))
  {
    hide WholeSecond;
  }

  /** A challenge created in push mode, decided once and then finished, gives a session to
      its user exactly if the decision approved it with the code, out of a session of that
      same user, and the challenge lives longer than the moment. */
  lemma PushLoginExactly(crypto: Totp.Crypto, s: State, challenge: string, userId: int, pushCode: string,
                         ttl: Duration, a: nat, sessionId: string, approve: bool, matchCode: string, b: nat)
    requires Totp.Lawful(crypto) && challenge !in s.origins && a !in s.requests && s.now >= 0
    requires var created := Apply(crypto, s, Create(challenge, userId, Push, pushCode, ttl));
             b !in PushDecided(crypto, created, a, challenge, sessionId, approve, matchCode).requests
    ensures var created := Apply(crypto, s, Create(challenge, userId, Push, pushCode, ttl));
            var decided := PushDecided(crypto, created, a, challenge, sessionId, approve, matchCode);
            HasSession(PushFinished(crypto, decided, b, challenge), b, userId) <==>
            && approve && Trim(matchCode) != "" && Trim(matchCode) == Trim(pushCode)
            && OwnSession(s, sessionId, userId) && userId > 0 && WholeSecond(s.now + ttl) > s.now
  {
    hide Apply, PushDecided, PushFinished, Trim, Sessions.CacheFirstLookup, WholeSecond;
    Begins(crypto, s, challenge, userId, Push, pushCode, ttl);
    var created := Apply(crypto, s, Create(challenge, userId, Push, pushCode, ttl));
    PushDecisionExactly(crypto, created, a, challenge, sessionId, approve, matchCode);
    var decided := PushDecided(crypto, created, a, challenge, sessionId, approve, matchCode);
    PushGivesSessionExactly(crypto, decided, b, challenge, userId);
  }

  /** A challenge created in passkey mode and bound to a passkey login gives a session to
      its user exactly if that login has a name and the challenge lives longer than the
      moment. */
  lemma PasskeyLoginExactly(crypto: Totp.Crypto, s: State, challenge: string, userId: int, ttl: Duration,
                            a: nat, session: string, b: nat)
    requires Totp.Lawful(crypto) && challenge !in s.origins && a !in s.requests && s.now >= 0
    requires var created := Apply(crypto, s, Create(challenge, userId, Passkey, "", ttl));
             b !in PasskeyBound(crypto, created, a, challenge, session).requests
    ensures var created := Apply(crypto, s, Create(challenge, userId, Passkey, "", ttl));
            var begun := PasskeyBound(crypto, created, a, challenge, session);
            HasSession(PasskeyFinished(crypto, begun, b, challenge), b, userId) <==>
            Trim(session) != "" && userId > 0 && WholeSecond(s.now + ttl) > s.now
  {
    hide Apply, PasskeyBound, PasskeyFinished, WholeSecond;
    Begins(crypto, s, challenge, userId, Passkey, "", ttl);
    var created := Apply(crypto, s, Create(challenge, userId, Passkey, "", ttl));
    PasskeyBindsExactly(crypto, created, a, challenge, session);
    var begun := PasskeyBound(crypto, created, a, challenge, session);
    PasskeyGivesSessionExactly(crypto, begun, b, challenge, userId);
  }
}
