/** Deleted challenges. A deletion removes both keys, but a request that read the hash
    before it and the state after it holds version 0, and the save script takes that for
    a new challenge: its save brings the challenge back. */
module MfaDeletion {
  import opened Clock
  import opened Wrappers
  import opened ChallengeMask
  import opened MfaChallenges
  import Sessions
  import Totp

  // ---------------------------------------------------------------------------
  // What each step does to the keys
  // ---------------------------------------------------------------------------

  /** The step runs the save script. */
  predicate Saves(s: State, a: Action)
  {
    || (a.BindPasskey? && At(s, a.id, PasskeyBegin))
    || (a.ChangeMode? && At(s, a.id, ModeUpdate))
    || (a.Decide? && AtDecision(s, a.id) && (a.approve ==> CodeMatches(a.matchCode, s.requests[a.id].hash)))
  }

  function Written(s: State, a: Action): Hash
    requires Saves(s, a)
  {
    var hash := s.requests[a.id].hash;
    if a.BindPasskey? then hash.(passkey := a.session)
    else if a.ChangeMode? then hash.(mode := a.mode)
    else hash.(push := if a.approve then Approved else Denied)
  }

  predicate Deletes(s: State, a: Action)
  {
    a.Delete? && a.id in s.requests && s.requests[a.id].stage.Proved?
  }

  lemma SaveStep(crypto: Totp.Crypto, s: State, a: Action)
    requires Totp.Lawful(crypto) && Saves(s, a)
    ensures var u := AfterSave(s, a.id, Written(s, a));
            Act(crypto, s, a).slots == u.slots && Act(crypto, s, a).log == u.log
  {
    hide AfterSave, CodeMatches;
  }

  lemma OtherStep(crypto: Totp.Crypto, s: State, a: Action)
    requires Totp.Lawful(crypto) && !Saves(s, a) && !Deletes(s, a) && !a.Lose? && !a.Create?
    ensures Act(crypto, s, a).slots == s.slots && Act(crypto, s, a).log == s.log
  {
    hide AfterSave, AfterReadHash, AfterReadState, AfterReserve, AfterResolve, AfterDelete, AfterLose;
    hide CodeMatches, Sessions.Apply, OnlyStage;
  }

  // ---------------------------------------------------------------------------
  // Revivals
  // ---------------------------------------------------------------------------

  /** The step writes back a challenge that was deleted: it saves for a request that
      found no state key, while both keys are gone. */
  predicate Revives(s: State, a: Action, c: string)
  {
    && Saves(s, a) && s.requests[a.id].challenge == c && s.requests[a.id].version == 0
    && SlotOf(s.slots, c) == GONE && c in s.log.deleted
  }

  lemma SaveRevives(s: State, id: nat, changed: Hash, c: string)
    requires id in s.requests
    ensures var u := AfterSave(s, id, changed);
            && u.log == s.log.(revived := u.log.revived)
            && (c in u.log.revived <==>
                  || c in s.log.revived
                  || (s.requests[id].challenge == c && s.requests[id].version == 0 && SlotOf(s.slots, c) == GONE
                      && c in s.log.deleted))
            && (SlotOf(s.slots, c) == GONE ==>
                  (SlotOf(u.slots, c) == GONE <==> !(s.requests[id].challenge == c && s.requests[id].version == 0)))
  {
  }

  /** A step brings back a deleted challenge exactly if it is a revival. */
  lemma StepRevives(crypto: Totp.Crypto, s: State, a: Action, c: string)
    requires Totp.Lawful(crypto)
    ensures c in Apply(crypto, s, a).log.revived <==> c in s.log.revived || Revives(s, a, c)
    ensures c in s.log.deleted && c in s.origins && SlotOf(s.slots, c) == GONE ==>
              (SlotOf(Apply(crypto, s, a).slots, c) == GONE <==> !Revives(s, a, c))
  {
    hide CodeMatches, AfterSave, AfterReserve, AfterReadHash, AfterReadState, AfterResolve, AfterDecide, WholeSecond;
    if Saves(s, a) {
      hide Act;
      SaveStep(crypto, s, a);
      SaveRevives(s, a.id, Written(s, a), c);
    } else if !Deletes(s, a) && !a.Lose? && !a.Create? {
      hide Act;
      OtherStep(crypto, s, a);
    }
  }

  // ---------------------------------------------------------------------------
  // Deleted challenges are gone, revivals aside
  // ---------------------------------------------------------------------------

  predicate DeletedGone(s: State)
  {
    forall c :: c in s.log.deleted ==>
      && c in s.origins && s.log.deleted[c] < s.log.steps
      && (c !in s.log.revived ==> SlotOf(s.slots, c) == GONE)
  }

  /** A challenge marked deleted keeps its mark, or is the one deleted right now. */
  lemma DeletedStays(crypto: Totp.Crypto, s: State, a: Action, c: string)
    requires Totp.Lawful(crypto) && Inv(s)
    ensures var u := Act(crypto, s, a);
            && (c in s.log.deleted ==> c in u.log.deleted && u.log.deleted[c] == s.log.deleted[c])
            && (c in u.log.deleted && c !in s.log.deleted ==>
                  c in u.origins && SlotOf(u.slots, c) == GONE && u.log.deleted[c] == s.log.steps)
  {
    hide Inv, CodeMatches, AfterSave, AfterReserve, AfterReadHash, AfterReadState, AfterResolve, AfterDecide;
    hide WholeSecond;
    if Saves(s, a) {
      hide Act;
      SaveStep(crypto, s, a);
      SaveRevives(s, a.id, Written(s, a), c);
    } else if Deletes(s, a) {
      RequestFor(s, a.id);
    } else if !a.Lose? && !a.Create? {
      hide Act;
      OtherStep(crypto, s, a);
    }
  }

  lemma StepKeepsGone(crypto: Totp.Crypto, s: State, a: Action)
    requires Totp.Lawful(crypto) && Inv(s) && DeletedGone(s)
    ensures DeletedGone(Apply(crypto, s, a))
  {
    hide Inv, Act, Revives;
    var u := Apply(crypto, s, a);
    forall c | c in u.log.deleted
      ensures c in u.origins && u.log.deleted[c] < u.log.steps && (c !in u.log.revived ==> SlotOf(u.slots, c) == GONE)
    {
      DeletedStays(crypto, s, a, c);
      StepRevives(crypto, s, a, c);
      if c in s.log.deleted {
        OriginStays(crypto, s, a, c);
      }
    }
  }

  lemma {:induction false} RunKeepsGone(crypto: Totp.Crypto, now: Instant, actions: seq<Action>)
    requires Totp.Lawful(crypto)
    ensures Inv(Run(crypto, Init(now), actions)) && DeletedGone(Run(crypto, Init(now), actions))
  {
    RunKeeps(crypto, Init(now), actions);
    if actions != [] {
      hide Inv, DeletedGone, Apply;
      RunKeepsGone(crypto, now, actions[..|actions| - 1]);
      StepKeepsGone(crypto, Run(crypto, Init(now), actions[..|actions| - 1]), actions[|actions| - 1]);
    }
  }

  /** Somewhere in the run the challenge is brought back. */
  ghost predicate RevivedIn(crypto: Totp.Crypto, now: Instant, actions: seq<Action>, c: string)
    requires Totp.Lawful(crypto)
  {
    exists k :: 0 <= k < |actions| && Revives(Run(crypto, Init(now), actions[..k]), actions[k], c)
  }

  lemma {:induction false} RevivedExactly(crypto: Totp.Crypto, now: Instant, actions: seq<Action>, c: string)
    requires Totp.Lawful(crypto)
    ensures c in Run(crypto, Init(now), actions).log.revived <==> RevivedIn(crypto, now, actions, c)
  {
    if actions != [] {
      hide Apply, Revives, RevivedIn;
      var n := |actions| - 1;
      RevivedExactly(crypto, now, actions[..n], c);
      StepRevives(crypto, Run(crypto, Init(now), actions[..n]), actions[n], c);
      RevivedLast(crypto, now, actions, c);
    }
  }

  lemma RevivedLast(crypto: Totp.Crypto, now: Instant, actions: seq<Action>, c: string)
    requires Totp.Lawful(crypto) && actions != []
    ensures var n := |actions| - 1;
            RevivedIn(crypto, now, actions, c)
            <==> RevivedIn(crypto, now, actions[..n], c) || Revives(Run(crypto, Init(now), actions[..n]), actions[n], c)
  {
    hide Run, Revives;
    var n := |actions| - 1;
    assert forall k :: 0 <= k < n ==> actions[..n][..k] == actions[..k] && actions[..n][k] == actions[k];
    if k :| 0 <= k < n && Revives(Run(crypto, Init(now), actions[..n][..k]), actions[..n][k], c) {
      assert Revives(Run(crypto, Init(now), actions[..k]), actions[k], c);
    }
  }

  /** At every point of the run the challenge, once deleted, is gone. */
  ghost predicate StaysGone(crypto: Totp.Crypto, now: Instant, actions: seq<Action>, c: string)
    requires Totp.Lawful(crypto)
  {
    forall k :: 0 <= k <= |actions| ==>
      var s := Run(crypto, Init(now), actions[..k]);
      c in s.log.deleted ==> SlotOf(s.slots, c) == GONE
  }

  /** A deleted challenge stays gone throughout a run exactly if no request that found no
      state key saves it after a deletion. */
  lemma DeletedStaysGoneExactly(crypto: Totp.Crypto, now: Instant, actions: seq<Action>, c: string)
    requires Totp.Lawful(crypto)
    ensures StaysGone(crypto, now, actions, c) <==> !RevivedIn(crypto, now, actions, c)
  {
    hide Run, Revives, SlotOf;
    if k :| 0 <= k < |actions| && Revives(Run(crypto, Init(now), actions[..k]), actions[k], c) {
      RevivalSeen(crypto, now, actions, k, c);
    } else {
      forall k | 0 <= k <= |actions|
        ensures var s := Run(crypto, Init(now), actions[..k]); c in s.log.deleted ==> SlotOf(s.slots, c) == GONE
      {
        GoneUntil(crypto, now, actions, k, c);
      }
    }
  }

  lemma RevivalSeen(crypto: Totp.Crypto, now: Instant, actions: seq<Action>, k: nat, c: string)
    requires Totp.Lawful(crypto) && k < |actions| && Revives(Run(crypto, Init(now), actions[..k]), actions[k], c)
    ensures var s := Run(crypto, Init(now), actions[..k + 1]); c in s.log.deleted && SlotOf(s.slots, c) != GONE
  {
    hide Revives, Apply, Inv, DeletedGone;
    RunKeepsGone(crypto, now, actions[..k]);
    RevivalShows(crypto, Run(crypto, Init(now), actions[..k]), actions[k], c);
    assert actions[..k + 1][..k] == actions[..k];
  }

  lemma GoneUntil(crypto: Totp.Crypto, now: Instant, actions: seq<Action>, k: nat, c: string)
    requires Totp.Lawful(crypto) && k <= |actions| && !RevivedIn(crypto, now, actions, c)
    ensures var s := Run(crypto, Init(now), actions[..k]); c in s.log.deleted ==> SlotOf(s.slots, c) == GONE
  {
    hide Revives, Run, Inv;
    RunKeepsGone(crypto, now, actions[..k]);
    RevivedExactly(crypto, now, actions[..k], c);
    assert forall j :: 0 <= j < k ==> actions[..k][..j] == actions[..j] && actions[..k][j] == actions[j];
  }

  lemma RevivalShows(crypto: Totp.Crypto, s: State, a: Action, c: string)
    requires Totp.Lawful(crypto) && Inv(s) && DeletedGone(s) && Revives(s, a, c)
    ensures var u := Apply(crypto, s, a); c in u.log.deleted && SlotOf(u.slots, c) != GONE
  {
    hide Inv, Act, Saves;
    StepRevives(crypto, s, a, c);
    DeletedStays(crypto, s, a, c);
  }

  // ---------------------------------------------------------------------------
  // What each step does to the requests
  // ---------------------------------------------------------------------------

  function MarkOf(stage: Stage): Option<nat>
  {
    match stage
    case Deleted(_, mark) => Some(mark)
    case Issued(_, mark) => Some(mark)
    case _ => None
  }

  /** The request has read both keys. */
  predicate HasRead(stage: Stage)
  {
    !stage.Reading? && !stage.Failed?
  }

  /** What was read stays as it was. */
  predicate SameRead(before: Request, after: Request)
  {
    && after.challenge == before.challenge && after.readAt == before.readAt
    && after.version == before.version && after.gap == before.gap
    && (HasRead(after.stage) ==> HasRead(before.stage)) && (after.stage.Reading? ==> before.stage.Reading?)
  }

  predicate Kept(before: Request, after: Request)
  {
    SameRead(before, after) && (MarkOf(after.stage).Some? ==> MarkOf(after.stage) == MarkOf(before.stage))
  }

  /** A step that at most changes the stage of requests, adding no mark. */
  predicate Quiet(s: State, u: State)
  {
    u.requests.Keys == s.requests.Keys && forall id :: id in s.requests ==> Kept(s.requests[id], u.requests[id])
  }

  lemma SameIsQuiet(s: State, u: State)
    requires u.requests == s.requests
    ensures Quiet(s, u)
  {
  }

  lemma MovedIsQuiet(s: State, u: State, id: nat)
    requires id in s.requests && id in u.requests && HasRead(s.requests[id].stage)
    requires u.requests == s.requests[id := s.requests[id].(stage := u.requests[id].stage)]
    requires !u.requests[id].stage.Reading?
    requires MarkOf(u.requests[id].stage).Some? ==> MarkOf(u.requests[id].stage) == MarkOf(s.requests[id].stage)
    ensures Quiet(s, u)
  {
  }

  lemma FailedIsQuiet(s: State, u: State, id: nat)
    requires id in s.requests && u.requests == s.requests[id := s.requests[id].(stage := Failed)]
    ensures Quiet(s, u)
  {
  }

  /** The steps that hand over to an operation of their own. */
  predicate Delegates(s: State, a: Action)
  {
    || (a.Reserve? && At(s, a.id, OneTimeCode))
    || (a.BindPasskey? && At(s, a.id, PasskeyBegin))
    || (a.ChangeMode? && At(s, a.id, ModeUpdate))
    || (a.Resolve? && At(s, a.id, PushDecide))
    || (a.Decide? && AtDecision(s, a.id))
  }

  lemma DelegatesAreQuiet(crypto: Totp.Crypto, s: State, a: Action)
    requires Totp.Lawful(crypto) && Delegates(s, a)
    ensures Quiet(s, Act(crypto, s, a))
  {
    hide AfterSave, AfterDecide, AfterReserve, AfterResolve, Quiet;
    MovedIsQuiet(s, Act(crypto, s, a), a.id);
  }

  predicate Reads(s: State, a: Action)
  {
    (a.ReadHash? && a.id !in s.requests) || (a.ReadState? && a.id in s.requests && s.requests[a.id].stage.Reading?)
  }

  lemma OtherStepsAreQuiet(crypto: Totp.Crypto, s: State, a: Action)
    requires Totp.Lawful(crypto) && !Reads(s, a) && !Deletes(s, a)
    ensures Quiet(s, Act(crypto, s, a))
  {
    hide AfterSave, AfterDecide, AfterReserve, AfterResolve, AfterReadHash, AfterReadState, AfterDelete, AfterLose;
    hide WholeSecond, Sessions.Apply, Quiet, OnlyStage;
    if Delegates(s, a) {
      DelegatesAreQuiet(crypto, s, a);
    } else if a.FinishAssertion? && At(s, a.id, PasskeyFinish) {
      MovedIsQuiet(s, Act(crypto, s, a), a.id);
    } else if a.IssueSession? && a.id in s.requests && s.requests[a.id].stage.Deleted? {
      MovedIsQuiet(s, Act(crypto, s, a), a.id);
    } else if a.Abandon? && a.id in s.requests && InFlight(s.requests[a.id]) {
      FailedIsQuiet(s, Act(crypto, s, a), a.id);
    } else {
      SameIsQuiet(s, Act(crypto, s, a));
    }
  }

  // ---------------------------------------------------------------------------
  // Version 0 comes from a read that straddled a removal
  // ---------------------------------------------------------------------------

  /** The keys of one challenge: versions start at 1, both keys say the same decision,
      and without a loss of the state key alone a hash has its state. */
  predicate SlotOk(slot: Slot, halved: bool)
  {
    && (slot.packed.Some? ==> slot.packed.value.version >= 1)
    && (slot.packed.Some? && slot.hash.Some? && !slot.packed.value.decided.Pending? ==>
          slot.hash.value.push == slot.packed.value.decided)
    && (slot.hash.Some? && slot.packed.None? ==> halved)
  }

  /** What a request that found no state key, or is about to, has been through. */
  predicate ReadOk(slot: Slot, log: Log, r: Request)
  {
    && r.readAt < log.steps
    && (r.stage.Reading? && slot.packed.None? && r.challenge !in log.halved ==>
          r.challenge in log.removed && r.readAt < log.removed[r.challenge] < log.steps)
    && (HasRead(r.stage) && r.version == 0 && r.challenge !in log.halved ==>
          r.gap.Some? && r.readAt < r.gap.value < log.steps)
  }

  ghost predicate KeysOk(s: State)
  {
    forall c :: SlotOk(SlotOf(s.slots, c), c in s.log.halved)
  }

  predicate ReadsOk(s: State)
  {
    forall id :: id in s.requests ==> ReadOk(SlotOf(s.slots, s.requests[id].challenge), s.log, s.requests[id])
  }

  /** A step changes the keys of a challenge in good order, and removes a state key only
      with a record of that. */
  predicate KeyStep(s: State, u: State, c: string)
  {
    var before, after := SlotOf(s.slots, c), SlotOf(u.slots, c);
    && u.log.steps == s.log.steps && s.log.halved <= u.log.halved
    && (SlotOk(before, c in s.log.halved) ==> SlotOk(after, c in u.log.halved))
    && (c in s.log.removed ==>
          c in u.log.removed && (u.log.removed[c] == s.log.removed[c] || u.log.removed[c] == s.log.steps))
    && (after.packed.None? && before.packed.Some? ==> c in u.log.removed && u.log.removed[c] == s.log.steps)
  }

  lemma SaveIsKeyStep(s: State, id: nat, changed: Hash, c: string)
    requires id in s.requests
    ensures KeyStep(s, AfterSave(s, id, changed), c)
  {
  }

  lemma LoseIsKeyStep(s: State, challenge: string, hash: bool, packed: bool, c: string)
    ensures KeyStep(s, AfterLose(s, challenge, hash, packed), c)
  {
  }

  lemma StepIsKeyStep(crypto: Totp.Crypto, s: State, a: Action, c: string)
    requires Totp.Lawful(crypto)
    ensures KeyStep(s, Act(crypto, s, a), c)
  {
    hide CodeMatches, AfterSave, AfterReserve, AfterReadHash, AfterReadState, AfterResolve, AfterDecide, AfterLose;
    hide WholeSecond;
    if Saves(s, a) {
      hide Act;
      SaveStep(crypto, s, a);
      SaveIsKeyStep(s, a.id, Written(s, a), c);
    } else if a.Lose? {
      LoseIsKeyStep(s, a.challenge, a.hash, a.packed, c);
    } else if !Deletes(s, a) && !a.Create? {
      hide Act;
      OtherStep(crypto, s, a);
    }
  }

  lemma KeptReadOk(s: State, u: State, before: Request, after: Request)
    requires KeyStep(s, u, before.challenge) && SameRead(before, after)
    requires ReadOk(SlotOf(s.slots, before.challenge), s.log, before)
    ensures ReadOk(SlotOf(u.slots, after.challenge), u.log.(steps := s.log.steps + 1), after)
  {
    hide SlotOk, SlotOf;
  }

  lemma HashReadOk(s: State, id: nat, challenge: string, op: Op, seenAt: Instant)
    requires SlotOk(SlotOf(s.slots, challenge), challenge in s.log.halved)
    ensures var u := AfterReadHash(s, id, challenge, op, seenAt);
            u.requests == s.requests
            || (&& id in u.requests && u.requests == s.requests[id := u.requests[id]]
                && u.requests[id].challenge == challenge
                && ReadOk(SlotOf(u.slots, challenge), s.log.(steps := s.log.steps + 1), u.requests[id]))
  {
    hide Admits;
  }

  lemma StateReadOk(s: State, id: nat)
    requires id in s.requests && s.requests[id].stage.Reading?
    requires var c := s.requests[id].challenge;
             SlotOk(SlotOf(s.slots, c), c in s.log.halved) && ReadOk(SlotOf(s.slots, c), s.log, s.requests[id])
    ensures var r := AfterReadState(s, id).requests[id];
            && r.challenge == s.requests[id].challenge
            && ReadOk(SlotOf(s.slots, r.challenge), s.log.(steps := s.log.steps + 1), r)
  {
    hide SlotOf;
  }

  lemma StepKeepsReads(crypto: Totp.Crypto, s: State, a: Action)
    requires Totp.Lawful(crypto) && KeysOk(s) && ReadsOk(s)
    ensures KeysOk(Apply(crypto, s, a)) && ReadsOk(Apply(crypto, s, a))
  {
    var u := Apply(crypto, s, a);
    forall c
      ensures SlotOk(SlotOf(u.slots, c), c in u.log.halved)
    {
      hide SlotOk, Act;
      StepIsKeyStep(crypto, s, a, c);
    }
    hide SlotOk, KeyStep, ReadOk, Quiet, SlotOf;
    forall id | id in u.requests
      ensures ReadOk(SlotOf(u.slots, u.requests[id].challenge), u.log, u.requests[id])
    {
      RequestReadOk(crypto, s, a, id);
    }
  }

  lemma RequestReadOk(crypto: Totp.Crypto, s: State, a: Action, id: nat)
    requires Totp.Lawful(crypto) && KeysOk(s) && ReadsOk(s) && id in Act(crypto, s, a).requests
    ensures var u := Act(crypto, s, a);
            ReadOk(SlotOf(u.slots, u.requests[id].challenge), u.log.(steps := s.log.steps + 1), u.requests[id])
  {
    hide SlotOk, ReadOk, Quiet, SlotOf, AfterReadHash, AfterReadState, AfterDelete, SameRead, KeyStep;
    var u := Act(crypto, s, a);
    if a.ReadHash? && a.id !in s.requests && 0 <= a.seenAt <= s.now {
      HashReadOk(s, a.id, a.challenge, a.op, a.seenAt);
      if id in s.requests && u.requests[id] == s.requests[id] {
        SameReadOk(crypto, s, a, id);
      }
    } else if a.ReadState? && a.id in s.requests && s.requests[a.id].stage.Reading? && a.id == id {
      StateReadOk(s, id);
    } else {
      KeptStep(crypto, s, a, id);
      StepIsKeyStep(crypto, s, a, s.requests[id].challenge);
      KeptReadOk(s, u, s.requests[id], u.requests[id]);
    }
  }

  lemma SameReadOk(crypto: Totp.Crypto, s: State, a: Action, id: nat)
    requires Totp.Lawful(crypto) && ReadsOk(s) && id in s.requests && id in Act(crypto, s, a).requests
    requires Act(crypto, s, a).requests[id] == s.requests[id]
    ensures var u := Act(crypto, s, a);
            ReadOk(SlotOf(u.slots, u.requests[id].challenge), u.log.(steps := s.log.steps + 1), u.requests[id])
  {
    hide SlotOk, ReadOk, SlotOf, Act, KeyStep;
    StepIsKeyStep(crypto, s, a, s.requests[id].challenge);
    KeptReadOk(s, Act(crypto, s, a), s.requests[id], s.requests[id]);
  }

  lemma KeptStep(crypto: Totp.Crypto, s: State, a: Action, id: nat)
    requires Totp.Lawful(crypto) && id in Act(crypto, s, a).requests
    requires !(a.ReadHash? && a.id !in s.requests && 0 <= a.seenAt <= s.now)
    requires !(a.ReadState? && a.id in s.requests && s.requests[a.id].stage.Reading? && a.id == id)
    ensures id in s.requests && SameRead(s.requests[id], Act(crypto, s, a).requests[id])
  {
    hide AfterReadHash, AfterDelete, Quiet;
    if !Reads(s, a) && !Deletes(s, a) {
      OtherStepsAreQuiet(crypto, s, a);
      QuietFor(s, Act(crypto, s, a), id);
    }
  }

  lemma QuietFor(s: State, u: State, id: nat)
    requires Quiet(s, u) && id in u.requests
    ensures id in s.requests && Kept(s.requests[id], u.requests[id])
  {
  }

  lemma {:induction false} RunKeepsReads(crypto: Totp.Crypto, now: Instant, actions: seq<Action>)
    requires Totp.Lawful(crypto)
    ensures KeysOk(Run(crypto, Init(now), actions)) && ReadsOk(Run(crypto, Init(now), actions))
  {
    if actions != [] {
      hide KeysOk, ReadsOk, Apply;
      RunKeepsReads(crypto, now, actions[..|actions| - 1]);
      StepKeepsReads(crypto, Run(crypto, Init(now), actions[..|actions| - 1]), actions[|actions| - 1]);
    }
  }

  /** In every run, unless Redis dropped its state key alone, a challenge is brought back
      only by a request that read its hash before and its state after both were removed. */
  lemma RevivalStraddles(crypto: Totp.Crypto, s: State, a: Action, c: string)
    requires Totp.Lawful(crypto) && Reachable(crypto, s) && Revives(s, a, c) && c !in s.log.halved
    ensures var r := s.requests[a.id]; r.gap.Some? && r.readAt < r.gap.value < s.log.steps
  {
    var now, actions :| s == Run(crypto, Init(now), actions);
    RunKeepsReads(crypto, now, actions);
    hide Run, KeysOk, CodeMatches;
    assert ReadOk(SlotOf(s.slots, c), s.log, s.requests[a.id]);
  }

  /** Deletes the challenge of a proved request and issues its session. */
  lemma Concludes(crypto: Totp.Crypto, s: State, id: nat) returns (t: State)
    requires Totp.Lawful(crypto) && Reachable(crypto, s) && id in s.requests && s.requests[id].stage.Proved?
    ensures Reachable(crypto, t) && t.now == s.now && t.used == s.used && s.log.steps < t.log.steps
    ensures t.slots == s.slots[s.requests[id].challenge := GONE] && s.requests[id].challenge in t.log.deleted
    ensures t.requests
            == s.requests[id := s.requests[id].(stage := Issued(s.requests[id].stage.evidence, s.log.steps))]
  {
    hide Reachable;
    Extend(crypto, s, Delete(id));
    t := Apply(crypto, s, Delete(id));
    Extend(crypto, t, IssueSession(id));
    t := Apply(crypto, t, IssueSession(id));
  }

  /** A request that finds no state key writes the challenge back. */
  lemma WritesBack(crypto: Totp.Crypto, s: State, id: nat, session: string) returns (t: State)
    requires Totp.Lawful(crypto) && Reachable(crypto, s) && id in s.requests
    requires s.requests[id].stage.Reading? && s.requests[id].op.PasskeyBegin?
    requires SlotOf(s.slots, s.requests[id].challenge) == GONE && s.requests[id].challenge in s.log.deleted
    ensures Reachable(crypto, t) && t.now == s.now && t.used == s.used && s.log.steps < t.log.steps
    ensures s.requests[id].challenge in t.log.revived
    ensures SlotOf(t.slots, s.requests[id].challenge).hash == Some(s.requests[id].hash.(passkey := session))
    ensures id in t.requests && t.requests == s.requests[id := t.requests[id]]
  {
    hide Reachable, NextVersion;
    Extend(crypto, s, ReadState(id));
    t := Apply(crypto, s, ReadState(id));
    Extend(crypto, t, BindPasskey(id, session));
    t := Apply(crypto, t, BindPasskey(id, session));
  }

  /** Any deletion under way can be straddled: from every reachable state in which one
      request is about to delete a challenge and another has read the hash to bind a
      passkey, the first can give its session and the second bring the challenge back. */
  lemma StraddlingReadRevives(crypto: Totp.Crypto, s: State, a: nat, b: nat, session: string) returns (t: State)
    requires Totp.Lawful(crypto) && Reachable(crypto, s)
    requires a in s.requests && s.requests[a].stage.Proved?
    requires b in s.requests && s.requests[b].stage.Reading? && s.requests[b].op.PasskeyBegin?
    requires s.requests[a].challenge == s.requests[b].challenge
    ensures Reachable(crypto, t) && t.now == s.now && t.used == s.used
    ensures s.requests[a].challenge in t.log.revived
    ensures SlotOf(t.slots, s.requests[a].challenge).hash == Some(s.requests[b].hash.(passkey := session))
    ensures a in t.requests && b in t.requests && t.requests == s.requests[a := t.requests[a]][b := t.requests[b]]
    ensures t.requests[a].challenge == s.requests[a].challenge
    ensures t.requests[a].stage.Issued? && t.requests[a].stage.mark < t.log.steps
  {
    hide Reachable;
    t := Concludes(crypto, s, a);
    t := WritesBack(crypto, t, b, session);
  }
}
