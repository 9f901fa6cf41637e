/** How many sessions one challenge, and one one-time code, can give. The handlers read
    the challenge, prove themselves, delete it and issue a session without holding
    anything in between, so the answer depends on the order of reads and deletions. */
module MfaSessions {
  import opened Clock
  import opened Wrappers
  import opened ChallengeMask
  import opened MfaChallenges
  import opened MfaDeletion
  import Decimal
  import Sessions
  import Text
  import Totp
  import TotpUse

  // ---------------------------------------------------------------------------
  // Reads come before deletions
  // ---------------------------------------------------------------------------

  /** `r` deleted its challenge no earlier than the first deletion and, unless that
      challenge was brought back, read it before. */
  predicate Ordered(log: Log, r: Request)
  {
    && r.readAt < log.steps
    && (r.challenge in log.deleted && r.challenge !in log.revived ==> r.readAt < log.deleted[r.challenge])
    && (MarkOf(r.stage).Some? ==>
          r.challenge in log.deleted && log.deleted[r.challenge] <= MarkOf(r.stage).value < log.steps)
  }

  predicate RequestsOrdered(s: State)
  {
    forall id :: id in s.requests ==> Ordered(s.log, s.requests[id])
  }

  /** The bookkeeping goes on: what was deleted or brought back stays so, and a first
      deletion happens in this step. */
  predicate Continues(log: Log, after: Log)
  {
    && after.steps == log.steps + 1 && log.revived <= after.revived
    && (forall c :: c in log.deleted ==> c in after.deleted && after.deleted[c] == log.deleted[c])
    && (forall c :: c in after.deleted && c !in log.deleted ==> after.deleted[c] == log.steps)
  }

  lemma StepContinues(crypto: Totp.Crypto, s: State, a: Action)
    requires Totp.Lawful(crypto) && Inv(s)
    ensures Continues(s.log, Apply(crypto, s, a).log)
  {
    hide Inv, Act, Revives, SlotOf;
    var u := Apply(crypto, s, a);
    forall c
      ensures c in s.log.deleted ==> c in u.log.deleted && u.log.deleted[c] == s.log.deleted[c]
      ensures c in u.log.deleted && c !in s.log.deleted ==> u.log.deleted[c] == s.log.steps
      ensures c in s.log.revived ==> c in u.log.revived
    {
      DeletedStays(crypto, s, a, c);
      StepRevives(crypto, s, a, c);
    }
  }

  lemma KeptOrdered(log: Log, after: Log, r: Request, q: Request)
    requires Ordered(log, r) && Continues(log, after) && q.challenge == r.challenge && q.readAt == r.readAt
    requires q.challenge in log.deleted ==> log.deleted[q.challenge] < log.steps
    requires MarkOf(q.stage).Some? ==>
               || MarkOf(q.stage) == MarkOf(r.stage)
               || (MarkOf(q.stage) == Some(log.steps) && q.challenge in after.deleted)
    ensures Ordered(after, q)
  {
  }

  /** Where a request of the next state comes from. */
  lemma RequestComesFrom(crypto: Totp.Crypto, s: State, a: Action, id: nat)
    requires Totp.Lawful(crypto) && id in Act(crypto, s, a).requests
    ensures var u := Act(crypto, s, a);
            var q := u.requests[id];
            || (&& id in s.requests && q.challenge == s.requests[id].challenge && q.readAt == s.requests[id].readAt
                && (MarkOf(q.stage).Some? ==>
                      || MarkOf(q.stage) == MarkOf(s.requests[id].stage)
                      || (MarkOf(q.stage) == Some(s.log.steps) && q.challenge in u.log.deleted)))
            || (q.readAt == s.log.steps && q.stage.Reading? && SlotOf(s.slots, q.challenge) != GONE && u.log == s.log)
  {
    hide Quiet, Admits, Totp.Matched, Sessions.Apply;
    if !Reads(s, a) && !Deletes(s, a) {
      hide Act, SlotOf;
      OtherStepsAreQuiet(crypto, s, a);
      QuietFor(s, Act(crypto, s, a), id);
    }
  }

  lemma StepKeepsOrder(crypto: Totp.Crypto, s: State, a: Action)
    requires Totp.Lawful(crypto) && Inv(s) && DeletedGone(s) && RequestsOrdered(s)
    ensures RequestsOrdered(Apply(crypto, s, a))
  {
    hide Inv, Act, Continues, Ordered, SlotOf, MarkOf;
    StepContinues(crypto, s, a);
    var u := Apply(crypto, s, a);
    forall id | id in u.requests
      ensures Ordered(u.log, u.requests[id])
    {
      RequestComesFrom(crypto, s, a, id);
      if u.requests[id].readAt == s.log.steps && u.requests[id].stage.Reading? && Act(crypto, s, a).log == s.log
         && SlotOf(s.slots, u.requests[id].challenge) != GONE {
        NewOrdered(s.log, u.log, u.requests[id]);
      } else {
        KeptOrdered(s.log, u.log, s.requests[id], u.requests[id]);
      }
    }
  }

  lemma NewOrdered(log: Log, after: Log, r: Request)
    requires r.readAt == log.steps && r.stage.Reading? && after == log.(steps := log.steps + 1)
    requires r.challenge in log.deleted ==> r.challenge in log.revived
    ensures Ordered(after, r)
  {
  }

  lemma {:induction false} RunKeepsOrder(crypto: Totp.Crypto, now: Instant, actions: seq<Action>)
    requires Totp.Lawful(crypto)
    ensures DeletedGone(Run(crypto, Init(now), actions)) && RequestsOrdered(Run(crypto, Init(now), actions))
  {
    RunKeepsGone(crypto, now, actions);
    if actions != [] {
      hide Inv, DeletedGone, RequestsOrdered, Apply;
      RunKeepsGone(crypto, now, actions[..|actions| - 1]);
      RunKeepsOrder(crypto, now, actions[..|actions| - 1]);
      StepKeepsOrder(crypto, Run(crypto, Init(now), actions[..|actions| - 1]), actions[|actions| - 1]);
    }
  }

  /** In every run, a request that gave a session had read the challenge before anything
      deleted it, unless the challenge was brought back. */
  lemma SessionReadFirst(crypto: Totp.Crypto, s: State, id: nat)
    requires Totp.Lawful(crypto) && Reachable(crypto, s) && id in s.requests && s.requests[id].stage.Issued?
    ensures var r := s.requests[id];
            && r.challenge in s.log.deleted && s.log.deleted[r.challenge] <= r.stage.mark < s.log.steps
            && (r.challenge !in s.log.revived ==> r.readAt < s.log.deleted[r.challenge])
  {
    var now, actions :| s == Run(crypto, Init(now), actions);
    RunKeepsOrder(crypto, now, actions);
    hide Run;
    assert Ordered(s.log, s.requests[id]);
  }

  /** After the first deletion of a challenge no request can read it, unless it was brought
      back. */
  lemma LateReadFindsNothing(crypto: Totp.Crypto, s: State, challenge: string, id: nat, op: Op, seenAt: Instant)
    requires Totp.Lawful(crypto) && Reachable(crypto, s)
    requires challenge in s.log.deleted && challenge !in s.log.revived
    ensures Act(crypto, s, ReadHash(id, challenge, op, seenAt)) == s
  {
    var now, actions :| s == Run(crypto, Init(now), actions);
    RunKeepsOrder(crypto, now, actions);
    hide Run;
    assert SlotOf(s.slots, challenge) == GONE;
  }

  /** Each of the two read the challenge before the other deleted it. */
  predicate Overlapped(p: Request, q: Request)
    requires p.stage.Issued? && q.stage.Issued?
  {
    p.readAt < q.stage.mark && q.readAt < p.stage.mark
  }

  /** In every run, any two sessions for one challenge come from overlapping requests,
      unless the challenge was brought back. */
  lemma TwoSessionsOverlap(crypto: Totp.Crypto, s: State, a: nat, b: nat)
    requires Totp.Lawful(crypto) && Reachable(crypto, s)
    requires a in s.requests && b in s.requests && s.requests[a].stage.Issued? && s.requests[b].stage.Issued?
    requires s.requests[a].challenge == s.requests[b].challenge && s.requests[a].challenge !in s.log.revived
    ensures Overlapped(s.requests[a], s.requests[b])
  {
    SessionReadFirst(crypto, s, a);
    SessionReadFirst(crypto, s, b);
  }

  function SessionsOf(s: State, challenge: string): set<nat>
  {
    set id | id in s.requests && s.requests[id].challenge == challenge && s.requests[id].stage.Issued?
  }

  /** Requests that have not failed, of operations that can give a session, that read the
      challenge before its first deletion. */
  function Contenders(s: State, challenge: string): set<nat>
  {
    set id | id in s.requests && s.requests[id].challenge == challenge && !s.requests[id].stage.Failed?
             && (s.requests[id].op.OneTimeCode? || s.requests[id].op.PasskeyFinish? || s.requests[id].op.PushFinish?)
             && (challenge in s.log.deleted ==> s.requests[id].readAt < s.log.deleted[challenge])
  }

  predicate Serial(s: State, challenge: string)
  {
    forall a, b :: a in SessionsOf(s, challenge) && b in SessionsOf(s, challenge) && a != b ==>
                     !Overlapped(s.requests[a], s.requests[b])
  }

  /** In every run a challenge that is not brought back gives no more sessions than
      requests contended for it, and at most one when requests do not overlap. */
  lemma OneSessionPerChallenge(crypto: Totp.Crypto, s: State, challenge: string)
    requires Totp.Lawful(crypto) && Reachable(crypto, s) && challenge !in s.log.revived
    ensures SessionsOf(s, challenge) <= Contenders(s, challenge)
    ensures Serial(s, challenge) ==> |SessionsOf(s, challenge)| <= 1
  {
    forall id | id in SessionsOf(s, challenge)
      ensures id in Contenders(s, challenge)
    {
      SessionReadFirst(crypto, s, id);
      SessionIsEarned(crypto, s, id);
    }
    if Serial(s, challenge) {
      forall a, b | a in SessionsOf(s, challenge) && b in SessionsOf(s, challenge)
        ensures a == b
      {
        TwoSessionsOverlap(crypto, s, a, b);
      }
      AtMostOne(SessionsOf(s, challenge));
    }
  }

  lemma AtMostOne(ids: set<nat>)
    requires forall a, b :: a in ids && b in ids ==> a == b
    ensures |ids| <= 1
  {
    if ids != {} {
      var a :| a in ids;
      assert ids == {a};
    }
  }

  // ---------------------------------------------------------------------------
  // Overlapping requests both succeed
  // ---------------------------------------------------------------------------

  /** Nothing stops two requests that have read a challenge and proved themselves: from
      every reachable state both can go on to give a session for it. */
  lemma ProvedRequestsBothIssue(crypto: Totp.Crypto, s: State, a: nat, b: nat) returns (t: State)
    requires Totp.Lawful(crypto) && Reachable(crypto, s) && a != b
    requires a in s.requests && b in s.requests && s.requests[a].stage.Proved? && s.requests[b].stage.Proved?
    requires s.requests[a].challenge == s.requests[b].challenge
    ensures Reachable(crypto, t) && {a, b} <= SessionsOf(t, s.requests[a].challenge)
  {
    hide Reachable;
    t := Concludes(crypto, s, a);
    t := Concludes(crypto, t, b);
  }

  // ---------------------------------------------------------------------------
  // Two codes, two sessions
  // ---------------------------------------------------------------------------

  /** The window accepts both codes at that time, for different steps. */
  ghost predicate TwoCodes(crypto: Totp.Crypto, secret: string, first: string, second: string, now: Instant)
    requires Totp.Lawful(crypto)
  {
    var a := Totp.Matched(crypto, secret, first, now);
    var b := Totp.Matched(crypto, secret, second, now);
    a.Some? && b.Some? && a.value != b.value
  }

  /** A request reads both keys of a challenge that is there. */
  lemma ReadsCode(crypto: Totp.Crypto, s: State, id: nat, challenge: string) returns (t: State)
    requires Totp.Lawful(crypto) && Reachable(crypto, s) && id !in s.requests && s.now >= 0
    requires var slot := SlotOf(s.slots, challenge);
             slot.hash.Some? && slot.hash.value.userId > 0 && s.now < slot.hash.value.expiresAt
    ensures Reachable(crypto, t) && t.now == s.now && t.used == s.used && t.slots == s.slots
    ensures s.log.steps < t.log.steps && id in t.requests && t.requests == s.requests[id := t.requests[id]]
    ensures var r := t.requests[id];
            && r.op == OneTimeCode && r.challenge == challenge && r.seenAt == s.now && r.readAt == s.log.steps
            && r.hash == SlotOf(s.slots, challenge).hash.value && r.stage == Loaded
  {
    hide Reachable;
    Extend(crypto, s, ReadHash(id, challenge, OneTimeCode, s.now));
    t := Apply(crypto, s, ReadHash(id, challenge, OneTimeCode, s.now));
    Extend(crypto, t, ReadState(id));
    t := Apply(crypto, t, ReadState(id));
  }

  /** A new challenge of `userId`, in passkey mode. */
  lemma Challenged(crypto: Totp.Crypto, userId: int, challenge: string, now: Instant, ttl: Duration) returns (s: State)
    requires Totp.Lawful(crypto)
    ensures Reachable(crypto, s) && s.now == now && s.used == map[] && s.requests == map[]
    ensures SlotOf(s.slots, challenge).hash == Some(Hash(userId, WholeSecond(now + ttl), Passkey, Pending, "", ""))
  {
    hide Reachable, WholeSecond;
    Start(crypto, now);
    Extend(crypto, Init(now), Create(challenge, userId, Passkey, "", ttl));
    s := Apply(crypto, Init(now), Create(challenge, userId, Passkey, "", ttl));
  }

  lemma Proves(crypto: Totp.Crypto, s: State, id: nat, secret: string, code: string) returns (t: State)
    requires Totp.Lawful(crypto) && Reachable(crypto, s) && At(s, id, OneTimeCode)
    requires var step := Totp.Matched(crypto, secret, code, s.requests[id].seenAt);
             step.Some? && TotpUse.Free(s.used, KeyOf(s.requests[id].hash.userId, step.value), s.now)
    ensures Reachable(crypto, t) && t.now == s.now && t.slots == s.slots && s.log.steps < t.log.steps
    ensures var step := Totp.Matched(crypto, secret, code, s.requests[id].seenAt).value;
            && t.used == s.used[KeyOf(s.requests[id].hash.userId, step) := s.now + TotpUse.REPLAY_TTL]
            && t.requests == s.requests[id := s.requests[id].(stage := Proved(ReservedStep(step, s.now)))]
  {
    hide Reachable, Totp.Matched, KeyOf;
    Extend(crypto, s, Reserve(id, secret, code));
    t := Apply(crypto, s, Reserve(id, secret, code));
  }

  /** One challenge, two codes of the same user, two sessions: whenever the window holds
      two codes, for every challenge that is not stillborn there is a run in which
      overlapping requests turn it into two sessions. */
  lemma OverlapYieldsTwoSessions(crypto: Totp.Crypto, userId: int, challenge: string, secret: string,
                                 first: string, second: string, now: Instant, ttl: Duration) returns (s: State)
    requires Totp.Lawful(crypto) && userId > 0 && 0 <= now < WholeSecond(now + ttl)
    requires TwoCodes(crypto, secret, first, second, now)
    ensures Reachable(crypto, s) && {0, 1} <= SessionsOf(s, challenge)
  {
    hide Reachable, Totp.Matched, WholeSecond;
    s := Challenged(crypto, userId, challenge, now, ttl);
    s := ReadsCode(crypto, s, 0, challenge);
    s := ReadsCode(crypto, s, 1, challenge);
    s := Proves(crypto, s, 0, secret, first);
    s := Proves(crypto, s, 1, secret, second);
    s := ProvedRequestsBothIssue(crypto, s, 0, 1);
  }

  /** A request reads the hash of a challenge to bind a passkey, and no more yet. */
  lemma BeginsReading(crypto: Totp.Crypto, s: State, id: nat, challenge: string) returns (t: State)
    requires Totp.Lawful(crypto) && Reachable(crypto, s) && id !in s.requests && s.now >= 0
    requires var slot := SlotOf(s.slots, challenge);
             && slot.hash.Some? && slot.hash.value.userId > 0 && slot.hash.value.mode.Passkey?
             && s.now < slot.hash.value.expiresAt
    ensures Reachable(crypto, t) && t.now == s.now && t.used == s.used && t.slots == s.slots
    ensures id in t.requests && t.requests == s.requests[id := t.requests[id]]
    ensures var r := t.requests[id];
            && r.op == PasskeyBegin && r.challenge == challenge && r.stage == Reading
            && r.hash == SlotOf(s.slots, challenge).hash.value
  {
    hide Reachable;
    Extend(crypto, s, ReadHash(id, challenge, PasskeyBegin, s.now));
    t := Apply(crypto, s, ReadHash(id, challenge, PasskeyBegin, s.now));
  }

  /** Whenever a challenge that gave a session can be read again, it gives another one to
      any code that is still good, and the two requests do not overlap. */
  lemma LiveAgainYieldsAnotherSession(crypto: Totp.Crypto, s: State, a: nat, id: nat, secret: string, code: string)
    returns (t: State)
    requires Totp.Lawful(crypto) && Reachable(crypto, s) && s.now >= 0 && id !in s.requests
    requires a in s.requests && s.requests[a].stage.Issued?
    requires var hash := SlotOf(s.slots, s.requests[a].challenge).hash;
             var step := Totp.Matched(crypto, secret, code, s.now);
             && hash.Some? && hash.value.userId > 0 && s.now < hash.value.expiresAt
             && step.Some? && TotpUse.Free(s.used, KeyOf(hash.value.userId, step.value), s.now)
    ensures Reachable(crypto, t) && {a, id} <= SessionsOf(t, s.requests[a].challenge)
    ensures !Overlapped(t.requests[a], t.requests[id])
  {
    hide Reachable, Totp.Matched, SlotOf, KeyOf;
    SessionReadFirst(crypto, s, a);
    t := ReadsCode(crypto, s, id, s.requests[a].challenge);
    t := Proves(crypto, t, id, secret, code);
    t := Concludes(crypto, t, id);
  }

  /** A challenge that gave a session and was deleted gives another one. For every user,
      challenge, time and two codes there is a run in which a read that straddles the
      deletion brings the challenge back, and a request that only then reads it gives a
      second session: the two do not overlap. */
  lemma RevivedChallengeYieldsAnotherSession(crypto: Totp.Crypto, userId: int, challenge: string, secret: string,
                                             first: string, second: string, now: Instant, ttl: Duration)
    returns (s: State)
    requires Totp.Lawful(crypto) && userId > 0 && 0 <= now < WholeSecond(now + ttl)
    requires TwoCodes(crypto, secret, first, second, now)
    ensures Reachable(crypto, s) && {0, 2} <= SessionsOf(s, challenge)
    ensures !Overlapped(s.requests[0], s.requests[2])
  {
    hide Reachable, Totp.Matched, WholeSecond, SlotOf;
    s := Challenged(crypto, userId, challenge, now, ttl);
    s := BeginsReading(crypto, s, 1, challenge);
    s := ReadsCode(crypto, s, 0, challenge);
    s := Proves(crypto, s, 0, secret, first);
    s := StraddlingReadRevives(crypto, s, 0, 1, "");
    s := LiveAgainYieldsAnotherSession(crypto, s, 0, 2, secret, second);
  }

  /** The window holds two such codes exactly when its three steps do not share one. */
  lemma WindowHoldsTwoCodes(crypto: Totp.Crypto, secret: string, key: seq<Totp.Byte>, now: Instant)
    requires Totp.Lawful(crypto) && crypto.decodeKey(Text.Upper(Text.Trim(secret))) == Some(key) && key != []
    ensures (exists first, second :: TwoCodes(crypto, secret, first, second, now))
       <==> (exists p, q :: TotpUse.Near(p, now) && TotpUse.Near(q, now)
                            && Totp.CodeAt(crypto, key, p) != Totp.CodeAt(crypto, key, q))
  {
    hide Totp.CodeAt, Totp.Matched, TotpUse.Near, Text.Upper, Text.Trim;
    if p, q :| TotpUse.Near(p, now) && TotpUse.Near(q, now)
               && Totp.CodeAt(crypto, key, p) != Totp.CodeAt(crypto, key, q) {
      CodesOfSteps(crypto, secret, key, p, q, now);
      assert TwoCodes(crypto, secret, Totp.CodeAt(crypto, key, p), Totp.CodeAt(crypto, key, q), now);
    }
    if first, second :| TwoCodes(crypto, secret, first, second, now) {
      StepsOfCodes(crypto, secret, key, first, second, now);
    }
  }

  lemma CodesOfSteps(crypto: Totp.Crypto, secret: string, key: seq<Totp.Byte>, p: int, q: int, now: Instant)
    requires Totp.Lawful(crypto) && crypto.decodeKey(Text.Upper(Text.Trim(secret))) == Some(key) && key != []
    requires TotpUse.Near(p, now) && TotpUse.Near(q, now) && Totp.CodeAt(crypto, key, p) != Totp.CodeAt(crypto, key, q)
    ensures TwoCodes(crypto, secret, Totp.CodeAt(crypto, key, p), Totp.CodeAt(crypto, key, q), now)
  {
    hide Totp.CodeAt, Totp.Matched, Text.Upper, Text.Trim;
    Totp.WindowMatches(crypto, secret, key, p, now);
    Totp.WindowMatches(crypto, secret, key, q, now);
  }

  lemma StepsOfCodes(crypto: Totp.Crypto, secret: string, key: seq<Totp.Byte>, first: string, second: string,
                     now: Instant)
    requires Totp.Lawful(crypto) && crypto.decodeKey(Text.Upper(Text.Trim(secret))) == Some(key) && key != []
    requires TwoCodes(crypto, secret, first, second, now)
    ensures var a := Totp.Matched(crypto, secret, first, now).value;
            var b := Totp.Matched(crypto, secret, second, now).value;
            && TotpUse.Near(a, now) && TotpUse.Near(b, now)
            && Totp.CodeAt(crypto, key, a) != Totp.CodeAt(crypto, key, b)
  {
    hide Totp.CodeAt, Totp.StepAt, Text.Upper, Text.Trim;
    Totp.MatchingIsFirst(crypto, key, Text.Trim(first), Totp.StepAt(now) - 1, 3);
    Totp.MatchingIsFirst(crypto, key, Text.Trim(second), Totp.StepAt(now) - 1, 3);
  }

  // ---------------------------------------------------------------------------
  // A one-time step gives one session
  // ---------------------------------------------------------------------------

  function EvidenceOf(stage: Stage): Option<Evidence>
  {
    match stage
    case Proved(evidence) => Some(evidence)
    case Deleted(evidence, _) => Some(evidence)
    case Issued(evidence, _) => Some(evidence)
    case _ => None
  }

  /** The request rests on a reserved one-time step. */
  predicate OnStep(r: Request)
  {
    EvidenceOf(r.stage).Some? && EvidenceOf(r.stage).value.ReservedStep?
  }

  function StepKey(r: Request): TotpUse.Key
    requires OnStep(r)
  {
    KeyOf(r.hash.userId, EvidenceOf(r.stage).value.step)
  }

  predicate Once(requests: map<nat, Request>)
  {
    forall a, b :: a in requests && b in requests && a != b && OnStep(requests[a]) && OnStep(requests[b]) ==>
                     StepKey(requests[a]) != StepKey(requests[b])
  }

  /** A request reserves within 30 seconds of the time it captured. */
  predicate Prompt(s: State, a: Action)
  {
    a.Reserve? && a.id in s.requests ==> s.now - s.requests[a.id].seenAt <= TotpUse.WINDOW_SLACK
  }

  ghost predicate PromptRun(crypto: Totp.Crypto, s: State, actions: seq<Action>)
    requires Totp.Lawful(crypto)
  {
    forall k :: 0 <= k < |actions| ==> Prompt(Run(crypto, s, actions[..k]), actions[k])
  }

  /** While a promptly reserving request holds a step near its time, a reservation of
      that step by another request has not expired. */
  lemma HeldStepIsNotFree(s: State, id: nat, other: nat, step: int)
    requires Inv(s) && id in s.requests && other in s.requests && OnStep(s.requests[other])
    requires TotpUse.Near(step, s.requests[id].seenAt)
    requires StepKey(s.requests[other]) == KeyOf(s.requests[id].hash.userId, step)
    requires s.now - s.requests[id].seenAt <= TotpUse.WINDOW_SLACK
    ensures !TotpUse.Free(s.used, KeyOf(s.requests[id].hash.userId, step), s.now)
  {
    RequestFor(s, id);
    RequestFor(s, other);
    hide Inv, TotpUse.Near, Admits, Decimal.FormatInt;
    TotpUse.WindowWidth(step, s.requests[other].seenAt, s.requests[id].seenAt);
  }

  /** Every request of `u` that rests on a step did so in `s`. */
  predicate NoNewSteps(s: State, u: State)
  {
    forall id :: id in u.requests && OnStep(u.requests[id]) ==>
                   id in s.requests && OnStep(s.requests[id]) && StepKey(u.requests[id]) == StepKey(s.requests[id])
  }

  lemma MovedAddsNoStep(s: State, u: State, id: nat)
    requires id in s.requests && id in u.requests
    requires u.requests == s.requests[id := s.requests[id].(stage := u.requests[id].stage)]
    requires OnStep(u.requests[id]) ==> EvidenceOf(u.requests[id].stage) == EvidenceOf(s.requests[id].stage)
    ensures NoNewSteps(s, u)
  {
    hide KeyOf;
  }

  lemma SameAddsNoStep(s: State, u: State)
    requires u.requests == s.requests
    ensures NoNewSteps(s, u)
  {
  }

  lemma ReadHashAddsNoStep(s: State, id: nat, challenge: string, op: Op, seenAt: Instant)
    requires id !in s.requests
    ensures NoNewSteps(s, AfterReadHash(s, id, challenge, op, seenAt))
  {
    hide KeyOf, Admits;
  }

  lemma ReadStateAddsNoStep(s: State, id: nat)
    requires id in s.requests
    ensures NoNewSteps(s, AfterReadState(s, id))
  {
    hide KeyOf;
  }

  lemma SavesAddNone(crypto: Totp.Crypto, s: State, a: Action)
    requires Totp.Lawful(crypto) && (a.BindPasskey? || a.ChangeMode? || a.Resolve? || a.Decide?) && a.id in s.requests
    ensures NoNewSteps(s, Act(crypto, s, a))
  {
    hide AfterSave, AfterResolve, AfterDecide, NoNewSteps, StepKey;
    MovedAddsNoStep(s, Act(crypto, s, a), a.id);
  }

  lemma StagesAddNone(crypto: Totp.Crypto, s: State, a: Action)
    requires Totp.Lawful(crypto) && (a.FinishAssertion? || a.Delete? || a.IssueSession? || a.Abandon?)
    requires a.id in s.requests
    ensures NoNewSteps(s, Act(crypto, s, a))
  {
    hide NoNewSteps, AfterDelete, StepKey;
    MovedAddsNoStep(s, Act(crypto, s, a), a.id);
  }

  lemma ReadsAddNone(crypto: Totp.Crypto, s: State, a: Action)
    requires Totp.Lawful(crypto) && (a.ReadHash? || a.ReadState?)
    ensures NoNewSteps(s, Act(crypto, s, a))
  {
    hide AfterReadHash, AfterReadState, NoNewSteps;
    SameAddsNoStep(s, s);
    if a.ReadHash? && a.id !in s.requests {
      ReadHashAddsNoStep(s, a.id, a.challenge, a.op, a.seenAt);
    } else if a.ReadState? && a.id in s.requests {
      ReadStateAddsNoStep(s, a.id);
    }
  }

  lemma OtherStepsAddNone(crypto: Totp.Crypto, s: State, a: Action)
    requires Totp.Lawful(crypto) && !a.Reserve?
    ensures NoNewSteps(s, Act(crypto, s, a))
  {
    hide AfterSave, AfterDecide, AfterResolve, AfterDelete, AfterLose, AfterReadHash, AfterReadState;
    hide WholeSecond, NoNewSteps, Sessions.Apply;
    if a.ReadHash? || a.ReadState? {
      ReadsAddNone(crypto, s, a);
    } else if a.Tick? || a.Browse? || a.Create? || a.Lose? || a.id !in s.requests {
      SameAddsNoStep(s, Act(crypto, s, a));
    } else if a.BindPasskey? || a.ChangeMode? || a.Resolve? || a.Decide? {
      SavesAddNone(crypto, s, a);
    } else {
      StagesAddNone(crypto, s, a);
    }
  }

  lemma NoNewStepsKeepsOnce(s: State, u: State)
    requires Once(s.requests) && NoNewSteps(s, u)
    ensures Once(u.requests)
  {
    hide StepKey, OnStep;
  }

  lemma ReserveKeepsOnce(s: State, id: nat, step: int)
    requires Inv(s) && Once(s.requests) && At(s, id, OneTimeCode) && TotpUse.Near(step, s.requests[id].seenAt)
    requires s.now - s.requests[id].seenAt <= TotpUse.WINDOW_SLACK
    ensures Once(Reserved(s, id, step).requests)
  {
    hide Inv, TotpUse.Near, KeyOf;
    var u := Reserved(s, id, step);
    if TotpUse.Free(s.used, KeyOf(s.requests[id].hash.userId, step), s.now) {
      forall other | other in s.requests && OnStep(s.requests[other])
        ensures StepKey(s.requests[other]) != KeyOf(s.requests[id].hash.userId, step)
      {
        if StepKey(s.requests[other]) == KeyOf(s.requests[id].hash.userId, step) {
          HeldStepIsNotFree(s, id, other, step);
        }
      }
    }
  }

  lemma StepKeepsOnce(crypto: Totp.Crypto, s: State, a: Action)
    requires Totp.Lawful(crypto) && Inv(s) && Once(s.requests) && Prompt(s, a)
    ensures Once(Apply(crypto, s, a).requests)
  {
    hide Inv, Once, NoNewSteps, Reserved, Totp.Matched;
    if a.Reserve? && At(s, a.id, OneTimeCode) {
      Totp.MatchIsNear(crypto, a.secret, a.code, s.requests[a.id].seenAt);
      var matched := Totp.Matched(crypto, a.secret, a.code, s.requests[a.id].seenAt);
      if matched.Some? {
        ReserveKeepsOnce(s, a.id, matched.value);
      } else {
        MovedAddsNoStep(s, Moved(s, a.id, Failed), a.id);
        NoNewStepsKeepsOnce(s, Moved(s, a.id, Failed));
      }
    } else if !a.Reserve? {
      hide Act;
      OtherStepsAddNone(crypto, s, a);
      NoNewStepsKeepsOnce(s, Act(crypto, s, a));
    }
  }

  lemma {:induction false} RunKeepsOnce(crypto: Totp.Crypto, now: Instant, actions: seq<Action>)
    requires Totp.Lawful(crypto) && PromptRun(crypto, Init(now), actions)
    ensures Once(Run(crypto, Init(now), actions).requests)
  {
    if actions != [] {
      hide Inv, Once, Apply;
      var n := |actions| - 1;
      assert forall k :: 0 <= k < n ==> actions[..n][..k] == actions[..k];
      RunKeepsOnce(crypto, now, actions[..n]);
      RunKeeps(crypto, Init(now), actions[..n]);
      StepKeepsOnce(crypto, Run(crypto, Init(now), actions[..n]), actions[n]);
    }
  }

  /** When requests reserve within 30 seconds of capturing the time, in every run one
      one-time step of a user gives at most one session, over all challenges. */
  lemma StepGivesOneSession(crypto: Totp.Crypto, now: Instant, actions: seq<Action>, a: nat, b: nat)
    requires Totp.Lawful(crypto) && PromptRun(crypto, Init(now), actions)
    requires var s := Run(crypto, Init(now), actions);
             && a in s.requests && s.requests[a].stage.Issued? && s.requests[a].stage.evidence.ReservedStep?
             && b in s.requests && s.requests[b].stage.Issued? && s.requests[b].stage.evidence.ReservedStep?
             && s.requests[a].hash.userId == s.requests[b].hash.userId
             && s.requests[a].stage.evidence.step == s.requests[b].stage.evidence.step
    ensures a == b
  {
    hide Run, Once, PromptRun;
    RunKeepsOnce(crypto, now, actions);
    OnceFor(Run(crypto, Init(now), actions).requests, a, b);
  }

  lemma OnceFor(requests: map<nat, Request>, a: nat, b: nat)
    requires Once(requests) && a in requests && b in requests
    requires requests[a].stage.Issued? && requests[a].stage.evidence.ReservedStep?
    requires requests[b].stage.Issued? && requests[b].stage.evidence.ReservedStep?
    requires requests[a].hash.userId == requests[b].hash.userId
    requires requests[a].stage.evidence.step == requests[b].stage.evidence.step
    ensures a == b
  {
    hide KeyOf;
  }
}
