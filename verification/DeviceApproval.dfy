/** What a token request for a device code rests on: the user's last decision before the
    request read the code, and the client the code was saved for. */
module DeviceApproval {
  import opened Clock
  import opened Wrappers
  import opened DeviceCodes
  import opened DeviceFlow

  /** The last decision among the actions. */
  function LastDecision(actions: seq<Action>): Option<Action>
  {
    if actions == [] then None
    else if actions[|actions| - 1].Decide? then Some(actions[|actions| - 1])
    else LastDecision(actions[..|actions| - 1])
  }

  /** The request read the code at position `n`, as that client, when the last decision was
      an approval by that user. */
  predicate ReadApproved(actions: seq<Action>, id: nat, n: nat, client: string, userId: string, subject: string)
  {
    && n < |actions| && actions[n] == Load(id, client)
    && LastDecision(actions[..n]) == Some(Decide(true, userId, subject))
  }

  ghost predicate Approved(actions: seq<Action>, id: nat, client: string, entry: Record)
  {
    exists n :: ReadApproved(actions, id, n, client, entry.userId, entry.subject)
  }

  /** A record is what is left of the saved one, or one without an expiry that a write
      brought back. */
  predicate Original(saved: Record, r: Record)
  {
    r.expiresAt == ZERO_TIME || (r.clientId == saved.clientId && r.expiresAt == saved.expiresAt)
  }

  predicate CodeOk(saved: Record, actions: seq<Action>, code: Option<Record>)
  {
    code.Some? ==>
      && Original(saved, code.value)
      && (code.value.status == DeviceCodes.Approved ==>
            LastDecision(actions) == Some(Decide(true, code.value.userId, code.value.subject)))
  }

  /** What a request read was the saved code as it stood, approved or not. */
  ghost predicate RequestOk(saved: Record, actions: seq<Action>, id: nat, q: Request)
  {
    && (!q.Rejected? ==> q.readAt > ZERO_TIME && Original(saved, q.entry))
    && (!q.Rejected? && q.entry.status == DeviceCodes.Approved ==> Approved(actions, id, q.entry.clientId, q.entry))
    && (q.Polled? || q.Returned? ==> q.entry.status == DeviceCodes.Approved && q.entry.expiresAt > ZERO_TIME)
  }

  ghost predicate Inv(saved: Record, actions: seq<Action>, s: State)
  {
    && s.now > ZERO_TIME && CodeOk(saved, actions, s.code)
    && forall id :: id in s.requests ==> RequestOk(saved, actions, id, s.requests[id])
  }

  lemma ApprovedStays(actions: seq<Action>, a: Action, id: nat, client: string, entry: Record)
    requires Approved(actions, id, client, entry)
    ensures Approved(actions + [a], id, client, entry)
  {
    var n: nat :| ReadApproved(actions, id, n, client, entry.userId, entry.subject);
    assert (actions + [a])[..n] == actions[..n];
    assert ReadApproved(actions + [a], id, n, client, entry.userId, entry.subject);
  }

  lemma LastAfter(actions: seq<Action>, a: Action)
    ensures LastDecision(actions + [a]) == if a.Decide? then Some(a) else LastDecision(actions)
  {
    assert (actions + [a])[..|actions|] == actions;
  }

  lemma CodeStays(saved: Record, actions: seq<Action>, s: State, a: Action)
    requires CodeOk(saved, actions, s.code)
    ensures CodeOk(saved, actions + [a], Apply(s, a).code)
  {
    LastAfter(actions, a);
    hide LastDecision, WholeSecond;
  }

  lemma RequestStays(saved: Record, actions: seq<Action>, a: Action, id: nat, q: Request)
    requires RequestOk(saved, actions, id, q)
    ensures RequestOk(saved, actions + [a], id, q)
  {
    if !q.Rejected? && q.entry.status == DeviceCodes.Approved {
      ApprovedStays(actions, a, id, q.entry.clientId, q.entry);
    }
  }

  /** A request that has just read an approved code read it after the approval. */
  lemma LoadReadsDecision(saved: Record, actions: seq<Action>, s: State, id: nat, client: string)
    requires s.now > ZERO_TIME && CodeOk(saved, actions, s.code) && id !in s.requests
    ensures RequestOk(saved, actions + [Load(id, client)], id, Apply(s, Load(id, client)).requests[id])
  {
    var longer := actions + [Load(id, client)];
    assert longer[..|actions|] == actions;
    var q := Apply(s, Load(id, client)).requests[id];
    hide LastDecision;
    if !q.Rejected? && q.entry.status == DeviceCodes.Approved {
      assert ReadApproved(longer, id, |actions|, client, q.entry.userId, q.entry.subject);
    }
  }

  lemma OwnStep(saved: Record, actions: seq<Action>, s: State, a: Action, id: nat)
    requires Inv(saved, actions, s) && id in Apply(s, a).requests
    ensures RequestOk(saved, actions + [a], id, Apply(s, a).requests[id])
  {
    if id in s.requests {
      RequestStays(saved, actions, a, id, s.requests[id]);
      hide Approved, LastDecision, WholeSecond, CodeOk;
    } else {
      LoadReadsDecision(saved, actions, s, id, a.client);
    }
  }

  lemma StepKeeps(saved: Record, actions: seq<Action>, s: State, a: Action)
    requires Inv(saved, actions, s)
    ensures Inv(saved, actions + [a], Apply(s, a))
  {
    CodeStays(saved, actions, s, a);
    forall id | id in Apply(s, a).requests
      ensures RequestOk(saved, actions + [a], id, Apply(s, a).requests[id])
    {
      OwnStep(saved, actions, s, a, id);
    }
    hide RequestOk, CodeOk;
  }

  lemma {:induction false} RunKeeps(s: State, actions: seq<Action>)
    requires Fresh(s)
    ensures Inv(s.code.value, actions, Run(s, actions))
  {
    if actions != [] {
      hide Inv, Apply;
      var n := |actions| - 1;
      RunKeeps(s, actions[..n]);
      StepKeeps(s.code.value, actions[..n], Run(s, actions[..n]), actions[n]);
      assert actions == actions[..n] + [actions[n]];
    }
  }

  /** In every run from a fresh code, however requests interleave and whatever Redis loses,
      a request that returned tokens read the code as the client the code was saved for,
      after the user had approved it and not decided otherwise since, and it carries the
      user and subject of that approval. */
  lemma TokensRestOnApproval(s: State, actions: seq<Action>, id: nat) returns (n: nat)
    requires Fresh(s) && id in Run(s, actions).requests && Run(s, actions).requests[id].Returned?
    ensures var entry := Run(s, actions).requests[id].entry;
            && entry.clientId == s.code.value.clientId
            && ReadApproved(actions, id, n, s.code.value.clientId, entry.userId, entry.subject)
  {
    RunKeeps(s, actions);
    var q := Run(s, actions).requests[id];
    hide Run;
    assert RequestOk(s.code.value, actions, id, q);
    n :| ReadApproved(actions, id, n, q.entry.clientId, q.entry.userId, q.entry.subject);
  }

  /** So a run without an approval returns no tokens. */
  lemma NoApprovalNoTokens(s: State, actions: seq<Action>, id: nat)
    requires Fresh(s) && id in Run(s, actions).requests
    requires forall k :: 0 <= k < |actions| && actions[k].Decide? ==> !actions[k].approve
    ensures !Run(s, actions).requests[id].Returned?
  {
    if Run(s, actions).requests[id].Returned? {
      var n := TokensRestOnApproval(s, actions, id);
      LastIsOne(actions[..n]);
    }
  }

  lemma {:induction false} LastIsOne(actions: seq<Action>)
    ensures LastDecision(actions).Some? ==>
              LastDecision(actions).value in actions && LastDecision(actions).value.Decide?
  {
    if actions != [] {
      LastIsOne(actions[..|actions| - 1]);
    }
  }
}
