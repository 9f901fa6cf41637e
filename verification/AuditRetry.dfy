/** How often one audit message is processed before it leaves the pending list. */
module AuditRetry {
  import opened AuditCodec
  import opened AuditStream

  /** What happened to one message: finished passes over it, those that ended
      in another retry, acknowledgements and burials reported as failed, and the
      times its retry counter was cleared before an acknowledgement. */
  datatype Tally = Tally(processed: nat, retried: nat, failedAcks: nat, failedBurials: nat, resets: nat)

  predicate OnMessage(s: State, a: Action, m: nat)
  {
    a.Work? && Working(s, a.w) && s.workers[a.w].batch[0] == m
  }

  /** The tally of message `m` after one step. */
  function Observe(cfg: Config, s: State, a: Action, m: nat, t: Tally): Tally
  {
    if !OnMessage(s, a, m) then t
    else
      var passed := t.(processed := t.processed + 1);
      match s.workers[a.w].stage
      case Ack(_) => if a.reply.Done? then passed else passed.(failedAcks := t.failedAcks + 1)
      case ClearRetry(_) => if Effective(a.reply) then t.(resets := t.resets + 1) else t
      case Increment(event) =>
        if a.reply.Done? && Retries(s.store, event.eventId) + 1 < cfg.maxRetries
        then passed.(retried := t.retried + 1) else t
      case Bury(_) => if a.reply.Done? then t else passed.(failedBurials := t.failedBurials + 1)
      case AckBuried(letter) =>
        if !a.reply.Done? then passed.(failedAcks := t.failedAcks + 1)
        else if letter.None? then passed else t
      case ClearBuried(_) => passed
      case _ => t
  }

  function RunTally(cfg: Config, actions: seq<Action>, m: nat): Tally
  {
    if actions == [] then Tally(0, 0, 0, 0, 0)
    else
      var init := actions[..|actions| - 1];
      Observe(cfg, Run(cfg, EMPTY, init), actions[|actions| - 1], m, RunTally(cfg, init, m))
  }

  /** No worker dies and no retry counter expires. */
  predicate Steady(actions: seq<Action>)
  {
    forall i :: 0 <= i < |actions| ==> !actions[i].Crash? && !actions[i].ForgetRetries?
  }

  /** No message but `m` carries this event. */
  predicate OnlyCarrier(cfg: Config, stream: seq<Fields>, m: nat, eventId: string)
  {
    forall j :: 0 <= j < |stream| && Carried(cfg.times, stream[j]).Some?
                && Carried(cfg.times, stream[j]).value.eventId == eventId
                ==> j == m
  }

  /** Message `m` carries this event or cannot be read. */
  predicate CarriesOnly(cfg: Config, stream: seq<Fields>, m: nat, eventId: string)
  {
    && OnlyCarrier(cfg, stream, m, eventId)
    && (m < |stream| && Carried(cfg.times, stream[m]).Some? ==> Carried(cfg.times, stream[m]).value.eventId == eventId)
  }

  predicate AtAck(wk: Worker, m: nat)
  {
    wk.stage.Ack? && |wk.batch| > 0 && wk.batch[0] == m
  }

  /** The workers about to acknowledge `m` after persisting it. */
  function Acking(s: State, m: nat): set<nat>
  {
    set w | w in s.workers && AtAck(s.workers[w], m)
  }

  predicate Unacked(s: State, m: nat)
  {
    m in s.store.pending || m >= s.store.cursor
  }

  function Capped(cfg: Config, count: int): int
  {
    if count < cfg.maxRetries - 1 then count else cfg.maxRetries - 1
  }

  /** Retries since the counter was last cleared show in the counter; each time it
      was cleared costs one acknowledgement, failed or still to come. */
  predicate WithinBudget(cfg: Config, s: State, m: nat, eventId: string, t: Tally)
  {
    var count := Retries(s.store, eventId);
    && count >= 0
    && t.retried <= (cfg.maxRetries - 1) * t.resets + Capped(cfg, count)
    && t.resets <= t.failedAcks + |Acking(s, m)|
    && t.processed == t.retried + t.failedAcks + t.failedBurials
  }

  /** Only clearing the counter leads to an acknowledgement stage. */
  lemma PerformStage(cfg: Config, store: Store, wk: Worker, a: Action, m: nat)
    requires a.Work? && !wk.stage.Idle? && wk.batch != [] && wk.batch[0] < |store.stream|
    ensures AtAck(Perform(cfg, store, wk, a).1, m) <==> wk.stage.ClearRetry? && wk.batch[0] == m
  {
    hide Carried, DeadLetter;
  }

  /** The event a worker is busy with. */
  predicate BusyWith(wk: Worker, eventId: string)
  {
    match wk.stage
    case Idle => false
    case Bury(letter) => letter.Some? && letter.value.eventId == eventId
    case AckBuried(letter) => letter.Some? && letter.value.eventId == eventId
    case stage => stage.event.eventId == eventId
  }

  /** A worker touches no counter but that of its own event, and clears it only
      around an acknowledgement. */
  lemma PerformCounter(cfg: Config, store: Store, wk: Worker, a: Action, eventId: string)
    requires a.Work? && !wk.stage.Idle? && wk.batch != [] && wk.batch[0] < |store.stream|
    ensures Retries(Perform(cfg, store, wk, a).0, eventId) ==
            if !BusyWith(wk, eventId) || a.reply.Failed? then Retries(store, eventId)
            else if wk.stage.Increment? then Retries(store, eventId) + 1
            else if wk.stage.ClearRetry? || wk.stage.ClearBuried? then 0
            else Retries(store, eventId)
  {
    hide Carried, DeadLetter, Begin;
  }

  lemma AckingAfterWork(cfg: Config, s: State, a: Action, m: nat)
    requires a.Work? && Working(s, a.w)
    ensures Acking(Apply(cfg, s, a), m) ==
            if s.workers[a.w].stage.ClearRetry? && s.workers[a.w].batch[0] == m
            then Acking(s, m) + {a.w} else Acking(s, m) - {a.w}
    ensures a.w in Acking(s, m) <==> AtAck(s.workers[a.w], m)
  {
    hide Perform;
    PerformStage(cfg, s.store, s.workers[a.w], a, m);
  }

  /** A step on another message, or none at all, touches neither the counter nor
      the acknowledgements to come. */
  lemma OtherStepKeeps(cfg: Config, s: State, a: Action, m: nat, eventId: string)
    requires Conserved(cfg, s) && CarriesOnly(cfg, s.store.stream, m, eventId)
    requires !a.Crash? && !a.ForgetRetries? && !OnMessage(s, a, m)
    ensures Retries(Apply(cfg, s, a).store, eventId) == Retries(s.store, eventId)
    ensures Acking(Apply(cfg, s, a), m) == Acking(s, m)
  {
    hide Carried, Perform;
    if a.Work? && Working(s, a.w) {
      assert WorkerOk(cfg, s.store, s.workers[a.w]);
      PerformCounter(cfg, s.store, s.workers[a.w], a, eventId);
      AckingAfterWork(cfg, s, a, m);
    }
  }

  lemma Product(x: int, y: int)
    ensures x * (y + 1) == x * y + x
  {
  }

  /** A step on the message itself keeps within the budget, or acknowledges it. */
  lemma OwnStepKeeps(cfg: Config, s: State, a: Action, m: nat, eventId: string, t: Tally)
    requires cfg.maxRetries >= 1
    requires Conserved(cfg, s) && CarriesOnly(cfg, s.store.stream, m, eventId)
    requires OnMessage(s, a, m) && WithinBudget(cfg, s, m, eventId, t)
    requires Unacked(s, m) && Unacked(Apply(cfg, s, a), m)
    ensures WithinBudget(cfg, Apply(cfg, s, a), m, eventId, Observe(cfg, s, a, m, t))
  {
    hide Carried, DeadLetter, Acking, Begin, Faithful, Safe, Persisted;
    var wk := s.workers[a.w];
    assert WorkerOk(cfg, s.store, wk);
    hide WorkerOk, StoreOk;
    PerformCounter(cfg, s.store, wk, a, eventId);
    AckingAfterWork(cfg, s, a, m);
    Product(cfg.maxRetries - 1, t.resets);
  }

  lemma StepKeepsBudget(cfg: Config, s: State, a: Action, m: nat, eventId: string, t: Tally)
    requires cfg.maxRetries >= 1 && !a.Crash? && !a.ForgetRetries?
    requires Conserved(cfg, s) && CarriesOnly(cfg, s.store.stream, m, eventId)
    requires Unacked(s, m) && Unacked(Apply(cfg, s, a), m) && WithinBudget(cfg, s, m, eventId, t)
    ensures WithinBudget(cfg, Apply(cfg, s, a), m, eventId, Observe(cfg, s, a, m, t))
  {
    hide Apply, CarriesOnly, Conserved, Acking;
    if OnMessage(s, a, m) {
      OwnStepKeeps(cfg, s, a, m, eventId, t);
    } else {
      OtherStepKeeps(cfg, s, a, m, eventId);
    }
  }

  lemma StepMonotone(cfg: Config, s: State, a: Action, m: nat, eventId: string)
    requires Conserved(cfg, s)
    ensures s.store.stream <= Apply(cfg, s, a).store.stream
    ensures Unacked(Apply(cfg, s, a), m) ==> Unacked(s, m)
    ensures CarriesOnly(cfg, Apply(cfg, s, a).store.stream, m, eventId) ==> CarriesOnly(cfg, s.store.stream, m, eventId)
  {
    hide Carried, Perform;
    if a.Work? && Working(s, a.w) {
      PerformKeeps(cfg, s.store, s.workers[a.w], a);
    }
    var before, after := s.store.stream, Apply(cfg, s, a).store.stream;
    assert forall j :: 0 <= j < |before| ==> before[j] == after[j];
  }

  lemma {:induction false} BudgetHolds(cfg: Config, actions: seq<Action>, m: nat, eventId: string)
    requires cfg.maxRetries >= 1 && Steady(actions)
    requires CarriesOnly(cfg, Run(cfg, EMPTY, actions).store.stream, m, eventId)
    requires Unacked(Run(cfg, EMPTY, actions), m)
    ensures WithinBudget(cfg, Run(cfg, EMPTY, actions), m, eventId, RunTally(cfg, actions, m))
  {
    hide Carried, Apply, Observe, CarriesOnly, Conserved;
    if actions == [] {
      assert Acking(EMPTY, m) == {};
    } else {
      var init, a := actions[..|actions| - 1], actions[|actions| - 1];
      var s := Run(cfg, EMPTY, init);
      NothingIsLost(cfg, init);
      StepMonotone(cfg, s, a, m, eventId);
      BudgetHolds(cfg, init, m, eventId);
      StepKeepsBudget(cfg, s, a, m, eventId, RunTally(cfg, init, m));
    }
  }

  /** While a message is pending, the finished passes over it stay below
      MaxRetryCount for each acknowledgement that failed or is about to be tried,
      and one more round, plus the failed burials. */
  lemma MessageLeavesPendingList(cfg: Config, actions: seq<Action>, m: nat, eventId: string)
    requires cfg.maxRetries >= 1 && Steady(actions)
    requires CarriesOnly(cfg, Run(cfg, EMPTY, actions).store.stream, m, eventId)
    ensures var s, t := Run(cfg, EMPTY, actions), RunTally(cfg, actions, m);
            m in s.store.pending ==>
              t.processed < cfg.maxRetries * (1 + t.failedAcks + |Acking(s, m)|) + t.failedBurials
    ensures var s, t := Run(cfg, EMPTY, actions), RunTally(cfg, actions, m);
            && m < s.store.cursor && Acking(s, m) == {}
            && t.processed >= cfg.maxRetries * (1 + t.failedAcks) + t.failedBurials
            ==> m !in s.store.pending
  {
    hide Acking, CarriesOnly, Run, RunTally;
    var s, t := Run(cfg, EMPTY, actions), RunTally(cfg, actions, m);
    if m in s.store.pending {
      BudgetHolds(cfg, actions, m, eventId);
      Sum(cfg.maxRetries, t, t.failedAcks + |Acking(s, m)|);
    }
  }

  lemma Sum(max: int, t: Tally, rounds: nat)
    requires max >= 1 && t.failedAcks <= rounds && t.resets <= rounds
    requires t.retried <= (max - 1) * t.resets + (max - 1)
    requires t.processed == t.retried + t.failedAcks + t.failedBurials
    ensures t.processed < max * (1 + rounds) + t.failedBurials
  {
    assert (max - 1) * t.resets <= (max - 1) * rounds;
    assert max * (1 + rounds) == (max - 1) * rounds + rounds + max;
  }
}
