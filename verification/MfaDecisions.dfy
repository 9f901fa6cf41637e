/** Push decisions: once taken they stand, and an approval comes from a session. */
module MfaDecisions {
  import opened Clock
  import opened Wrappers
  import opened MfaChallenges
  import opened MfaDeletion
  import Sessions
  import Text
  import Totp

  // ---------------------------------------------------------------------------
  // Decisions are final
  // ---------------------------------------------------------------------------

  lemma SaveStands(s: State, id: nat, changed: Hash, c: string)
    requires id in s.requests && !Standing(SlotOf(s.slots, c)).Pending?
    ensures Standing(SlotOf(AfterSave(s, id, changed).slots, c)) == Standing(SlotOf(s.slots, c))
  {
  }

  lemma LoseStands(s: State, challenge: string, hash: bool, packed: bool, c: string)
    requires SlotOk(SlotOf(s.slots, c), c in s.log.halved) && !Standing(SlotOf(s.slots, c)).Pending?
    ensures var after := SlotOf(AfterLose(s, challenge, hash, packed).slots, c);
            after != GONE ==> Standing(after) == Standing(SlotOf(s.slots, c))
  {
  }

  lemma StepStands(crypto: Totp.Crypto, s: State, a: Action, c: string)
    requires Totp.Lawful(crypto) && KeysOk(s) && c in s.origins && !Standing(SlotOf(s.slots, c)).Pending?
    ensures var after := SlotOf(Apply(crypto, s, a).slots, c);
            after != GONE ==> Standing(after) == Standing(SlotOf(s.slots, c))
  {
    hide SlotOk, CodeMatches, AfterSave, AfterReserve, AfterReadHash, AfterReadState, AfterResolve, AfterDecide;
    hide AfterLose;
    hide WholeSecond, Standing;
    if Saves(s, a) {
      hide Act;
      SaveStep(crypto, s, a);
      SaveStands(s, a.id, Written(s, a), c);
    } else if a.Lose? {
      LoseStands(s, a.challenge, a.hash, a.packed, c);
    } else if !Deletes(s, a) && !a.Create? {
      hide Act;
      OtherStep(crypto, s, a);
    }
  }

  /** At no point of the run are both keys gone. */
  ghost predicate Kept(crypto: Totp.Crypto, s: State, actions: seq<Action>, c: string)
    requires Totp.Lawful(crypto)
  {
    forall k :: 0 <= k <= |actions| ==> SlotOf(Run(crypto, s, actions[..k]).slots, c) != GONE
  }

  lemma {:induction false} RunStands(crypto: Totp.Crypto, s: State, actions: seq<Action>, c: string)
    requires Totp.Lawful(crypto) && KeysOk(s) && ReadsOk(s) && c in s.origins
    requires Kept(crypto, s, actions, c) && !Standing(SlotOf(s.slots, c)).Pending?
    ensures KeysOk(Run(crypto, s, actions)) && ReadsOk(Run(crypto, s, actions)) && c in Run(crypto, s, actions).origins
    ensures Standing(SlotOf(Run(crypto, s, actions).slots, c)) == Standing(SlotOf(s.slots, c))
  {
    if actions != [] {
      hide KeysOk, ReadsOk, Apply, Standing, SlotOf, Totp.Lawful;
      var n := |actions| - 1;
      assert forall k :: 0 <= k <= n ==> actions[..n][..k] == actions[..k];
      RunStands(crypto, s, actions[..n], c);
      var t := Run(crypto, s, actions[..n]);
      StepKeepsReads(crypto, t, actions[n]);
      StepStands(crypto, t, actions[n], c);
      OriginStays(crypto, t, actions[n], c);
      assert actions[..n + 1] == actions;
    }
  }

  /** Once a push is approved or denied, that stands throughout every run in which Redis
      always has one of the two keys, whatever stale copies are saved. */
  lemma DecisionIsFinal(crypto: Totp.Crypto, s: State, actions: seq<Action>, c: string)
    requires Totp.Lawful(crypto) && Reachable(crypto, s) && c in s.origins
    requires Kept(crypto, s, actions, c) && !Standing(SlotOf(s.slots, c)).Pending?
    ensures Standing(SlotOf(Run(crypto, s, actions).slots, c)) == Standing(SlotOf(s.slots, c))
  {
    var now, before :| s == Run(crypto, Init(now), before);
    RunKeepsReads(crypto, now, before);
    hide Run, KeysOk, ReadsOk, Kept, Standing, SlotOf;
    RunStands(crypto, s, actions, c);
  }

  // ---------------------------------------------------------------------------
  // Approvals come from sessions
  // ---------------------------------------------------------------------------

  /** At position `n` of the run a session of the user was presented and found active. */
  ghost predicate FoundAt(crypto: Totp.Crypto, now: Instant, actions: seq<Action>, n: nat, userId: int)
    requires Totp.Lawful(crypto)
  {
    && n < |actions| && actions[n].Resolve? && Text.Trim(actions[n].sessionId) != ""
    && var s := Run(crypto, Init(now), actions[..n]);
       Sessions.CacheFirstLookup(s.browsers.store, Text.Trim(actions[n].sessionId), s.now) == Some(userId)
  }

  ghost predicate Found(crypto: Totp.Crypto, now: Instant, actions: seq<Action>, userId: int)
    requires Totp.Lawful(crypto)
  {
    exists n :: FoundAt(crypto, now, actions, n, userId)
  }

  ghost predicate ApproversFound(crypto: Totp.Crypto, now: Instant, actions: seq<Action>, s: State)
    requires Totp.Lawful(crypto)
  {
    && (forall id :: id in s.requests && s.requests[id].stage.Approving? ==>
          Found(crypto, now, actions, s.requests[id].stage.approver))
    && (forall c :: c in s.approvals ==> Found(crypto, now, actions, s.approvals[c].userId))
  }

  lemma FoundStays(crypto: Totp.Crypto, now: Instant, actions: seq<Action>, userId: int)
    requires Totp.Lawful(crypto) && actions != [] && Found(crypto, now, actions[..|actions| - 1], userId)
    ensures Found(crypto, now, actions, userId)
  {
    hide Run, Text.Trim, Sessions.CacheFirstLookup;
    var front := actions[..|actions| - 1];
    var n: nat :| FoundAt(crypto, now, front, n, userId);
    assert front[..n] == actions[..n];
    assert FoundAt(crypto, now, actions, n, userId);
  }

  /** A request has an approver only by finding a session of that user. */
  lemma ApproverComesFrom(crypto: Totp.Crypto, s: State, a: Action, id: nat)
    requires Totp.Lawful(crypto)
    requires id in Act(crypto, s, a).requests && Act(crypto, s, a).requests[id].stage.Approving?
    ensures var stage := Act(crypto, s, a).requests[id].stage;
            || (id in s.requests && s.requests[id].stage == stage)
            || (&& a.Resolve? && Text.Trim(a.sessionId) != ""
                && Sessions.CacheFirstLookup(s.browsers.store, Text.Trim(a.sessionId), s.now) == Some(stage.approver))
  {
    hide Text.Trim, Sessions.CacheFirstLookup, Sessions.Apply, Admits, WholeSecond;
    hide AfterReserve, AfterSave, AfterDecide, AfterDelete, AfterLose;
  }

  /** An approval is recorded only for a request that has its approver. */
  lemma ApprovalComesFrom(crypto: Totp.Crypto, s: State, a: Action, c: string)
    requires Totp.Lawful(crypto) && c in Act(crypto, s, a).approvals
    ensures var who := Act(crypto, s, a).approvals[c];
            || (c in s.approvals && s.approvals[c] == who)
            || (a.Decide? && AtDecision(s, a.id) && s.requests[a.id].stage.approver == who.userId)
  {
    hide AfterReadHash, AfterReadState, AfterReserve, AfterSave, AfterResolve, AfterDelete, AfterLose;
    hide Sessions.Apply, WholeSecond, OnlyStage;
  }

  lemma {:induction false} RunKeepsFound(crypto: Totp.Crypto, now: Instant, actions: seq<Action>)
    requires Totp.Lawful(crypto)
    ensures ApproversFound(crypto, now, actions, Run(crypto, Init(now), actions))
  {
    if actions != [] {
      hide Act, Found, Text.Trim, Sessions.CacheFirstLookup;
      var n := |actions| - 1;
      var s := Run(crypto, Init(now), actions[..n]);
      RunKeepsFound(crypto, now, actions[..n]);
      var u := Act(crypto, s, actions[n]);
      forall id | id in u.requests && u.requests[id].stage.Approving?
        ensures Found(crypto, now, actions, u.requests[id].stage.approver)
      {
        ApproverComesFrom(crypto, s, actions[n], id);
        if id in s.requests && s.requests[id].stage == u.requests[id].stage {
          FoundStays(crypto, now, actions, u.requests[id].stage.approver);
        } else {
          FoundNow(crypto, now, actions, u.requests[id].stage.approver);
        }
      }
      forall c | c in u.approvals
        ensures Found(crypto, now, actions, u.approvals[c].userId)
      {
        ApprovalComesFrom(crypto, s, actions[n], c);
        FoundStays(crypto, now, actions, u.approvals[c].userId);
      }
    }
  }

  lemma FoundNow(crypto: Totp.Crypto, now: Instant, actions: seq<Action>, userId: int)
    requires Totp.Lawful(crypto) && actions != [] && FoundAt(crypto, now, actions, |actions| - 1, userId)
    ensures Found(crypto, now, actions, userId)
  {
  }

  /** The sessions of a run are a run of the session machine, on the same clock. */
  lemma {:induction false} BrowsersRun(crypto: Totp.Crypto, now: Instant, actions: seq<Action>)
    requires Totp.Lawful(crypto)
    ensures var s := Run(crypto, Init(now), actions); Sessions.Reachable(s.browsers) && s.browsers.now == s.now
  {
    if actions == [] {
      Sessions.StartIsReachable(now);
    } else {
      hide Sessions.Reachable;
      BrowsersRun(crypto, now, actions[..|actions| - 1]);
      BrowsersStep(crypto, Run(crypto, Init(now), actions[..|actions| - 1]), actions[|actions| - 1]);
    }
  }

  lemma BrowsersStep(crypto: Totp.Crypto, s: State, a: Action)
    requires Totp.Lawful(crypto) && Sessions.Reachable(s.browsers) && s.browsers.now == s.now
    ensures var u := Apply(crypto, s, a); Sessions.Reachable(u.browsers) && u.browsers.now == u.now
  {
    hide Sessions.Reachable;
    if a.Tick? {
      Sessions.Extend(s.browsers, Sessions.Tick(a.elapsed));
    } else if a.Browse? {
      if !a.step.Tick? {
        Sessions.Extend(s.browsers, a.step);
        Sessions.OnlyTickMoves(s.browsers, a.step);
      }
    } else {
      BrowsersStay(crypto, s, a);
    }
  }

  lemma BrowsersStay(crypto: Totp.Crypto, s: State, a: Action)
    requires Totp.Lawful(crypto) && !a.Tick? && !a.Browse?
    ensures Act(crypto, s, a).browsers == s.browsers && Act(crypto, s, a).now == s.now
  {
    hide AfterReadHash, AfterReadState, AfterReserve, AfterSave, AfterResolve, AfterDecide, AfterDelete, AfterLose;
    hide WholeSecond, OnlyStage;
  }

  /** In every run an approved challenge was approved by its own user, with a session of
      that user that was presented in the run and found active: its row was live in the
      database, or it was logged out while its login was under way or it had a copy. */
  lemma ApprovalBySession(crypto: Totp.Crypto, now: Instant, actions: seq<Action>, c: string) returns (n: nat)
    requires Totp.Lawful(crypto) && c in Run(crypto, Init(now), actions).approvals
    ensures n < |actions| && actions[n].Resolve?
    ensures c in Run(crypto, Init(now), actions).origins
    ensures var s := Run(crypto, Init(now), actions[..n]);
            var userId := Run(crypto, Init(now), actions).origins[c].userId;
            var id := Text.Trim(actions[n].sessionId);
            && Sessions.CacheFirstLookup(s.browsers.store, id, s.now) == Some(userId)
            && (|| Sessions.DatabaseLookup(s.browsers.store, id, s.now) == Some(userId)
                || Sessions.Late(s.browsers.log, id))
  {
    var t := Run(crypto, Init(now), actions);
    RunKeeps(crypto, Init(now), actions);
    RunKeepsFound(crypto, now, actions);
    assert ApprovedByUser(t.origins, t.approvals, c);
    n :| FoundAt(crypto, now, actions, n, t.approvals[c].userId);
    BrowsersRun(crypto, now, actions[..n]);
    hide Run, Sessions.Reachable, Text.Trim;
    Sessions.CacheRefinesDatabase(Run(crypto, Init(now), actions[..n]).browsers, Text.Trim(actions[n].sessionId));
  }
}
