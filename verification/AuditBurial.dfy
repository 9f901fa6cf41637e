/** When an event goes to the dead-letter stream: not before it has failed as often as the
    limit says, or its counter could not be read. */
module AuditBurial {
  import opened Wrappers
  import opened AuditCodec
  import opened AuditStream
  import opened AuditRetry

  /** The action is a command of a worker at that stage. */
  predicate Commands(s: State, a: Action)
  {
    a.Work? && Working(s, a.w)
  }

  /** A write of the event that was not answered as done. */
  predicate FailedWrite(s: State, a: Action, event: Event)
  {
    Commands(s, a) && s.workers[a.w].stage == Write(event) && !a.reply.Done?
  }

  predicate Increments(s: State, a: Action, eventId: string)
  {
    && Commands(s, a) && s.workers[a.w].stage.Increment? && s.workers[a.w].stage.event.eventId == eventId
    && Effective(a.reply)
  }

  /** The counter of the event is cleared, by a worker or by its expiry. */
  predicate Clears(s: State, a: Action, eventId: string)
  {
    || a == ForgetRetries(eventId)
    || (&& Commands(s, a) && (s.workers[a.w].stage.ClearRetry? || s.workers[a.w].stage.ClearBuried?)
        && s.workers[a.w].stage.event.eventId == eventId && Effective(a.reply))
  }

  /** The position of the last command of a worker, -1 if there is none. */
  function LastCommand(cfg: Config, actions: seq<Action>, w: nat): int
  {
    if actions == [] then -1
    else
      var n := |actions| - 1;
      var a := actions[n];
      if Commands(Run(cfg, EMPTY, actions[..n]), a) && a.w == w then n else LastCommand(cfg, actions[..n], w)
  }

  /** The commands after which the counter was raised since it was last cleared: for each
      increment the command its worker issued before. */
  function Counted(cfg: Config, actions: seq<Action>, eventId: string): set<int>
  {
    if actions == [] then {}
    else
      var n := |actions| - 1;
      var s, a := Run(cfg, EMPTY, actions[..n]), actions[n];
      var before := Counted(cfg, actions[..n], eventId);
      if Clears(s, a, eventId) then {}
      else if Increments(s, a, eventId) then before + {LastCommand(cfg, actions[..n], a.w)}
      else before
  }

  /** The command at that position is a failed write of the event. */
  predicate FailedAt(cfg: Config, actions: seq<Action>, n: int, event: Event)
  {
    0 <= n < |actions| && FailedWrite(Run(cfg, EMPTY, actions[..n]), actions[n], event)
  }

  ghost predicate FailedIdAt(cfg: Config, actions: seq<Action>, n: int, eventId: string)
  {
    exists event :: FailedAt(cfg, actions, n, event) && event.eventId == eventId
  }

  // ---------------------------------------------------------------------------
  // The counter counts failed writes
  // ---------------------------------------------------------------------------

  /** A worker about to count has just failed to write. */
  predicate IncrementOk(cfg: Config, actions: seq<Action>, w: nat, wk: Worker)
  {
    wk.stage.Increment? ==> FailedAt(cfg, actions, LastCommand(cfg, actions, w), wk.stage.event)
  }

  /** Every counted command is a failed write of the event, and is behind its worker. */
  ghost predicate CountedOk(cfg: Config, actions: seq<Action>, eventId: string)
  {
    forall n :: n in Counted(cfg, actions, eventId) ==>
      && FailedIdAt(cfg, actions, n, eventId)
      && actions[n].Work? && n < LastCommand(cfg, actions, actions[n].w)
  }

  ghost predicate Inv(cfg: Config, actions: seq<Action>, eventId: string)
  {
    var s := Run(cfg, EMPTY, actions);
    && (forall w :: w in s.workers ==> IncrementOk(cfg, actions, w, s.workers[w]))
    && CountedOk(cfg, actions, eventId)
    && Retries(s.store, eventId) == |Counted(cfg, actions, eventId)|
  }

  lemma FailedStays(cfg: Config, actions: seq<Action>, a: Action, n: int, event: Event)
    requires FailedAt(cfg, actions, n, event)
    ensures FailedAt(cfg, actions + [a], n, event)
  {
    hide Run, FailedWrite;
    assert (actions + [a])[..n] == actions[..n];
  }

  lemma LastAfter(cfg: Config, actions: seq<Action>, a: Action, w: nat)
    ensures LastCommand(cfg, actions + [a], w)
            == if Commands(Run(cfg, EMPTY, actions), a) && a.w == w then |actions| else LastCommand(cfg, actions, w)
  {
    assert (actions + [a])[..|actions|] == actions;
  }

  lemma {:induction false} LastBound(cfg: Config, actions: seq<Action>, w: nat)
    ensures -1 <= LastCommand(cfg, actions, w) < |actions|
    ensures LastCommand(cfg, actions, w) >= 0 ==>
              var a := actions[LastCommand(cfg, actions, w)]; a.Work? && a.w == w
  {
    hide Run;
    if actions != [] {
      LastBound(cfg, actions[..|actions| - 1], w);
    }
  }

  lemma CountedAfter(cfg: Config, actions: seq<Action>, a: Action, eventId: string)
    ensures var s := Run(cfg, EMPTY, actions);
            Counted(cfg, actions + [a], eventId)
            == if Clears(s, a, eventId) then {}
               else if Increments(s, a, eventId) then Counted(cfg, actions, eventId) + {LastCommand(cfg, actions, a.w)}
               else Counted(cfg, actions, eventId)
  {
    hide Run, Clears, Increments;
    assert (actions + [a])[..|actions|] == actions;
  }

  /** Only a failed write leads to the counting stage. */
  lemma CountingComesFrom(cfg: Config, s: State, a: Action, w: nat)
    requires w in Apply(cfg, s, a).workers && Apply(cfg, s, a).workers[w].stage.Increment?
    ensures var event := Apply(cfg, s, a).workers[w].stage.event;
            if Commands(s, a) && a.w == w then FailedWrite(s, a, event)
            else w in s.workers && s.workers[w] == Apply(cfg, s, a).workers[w]
  {
    hide Carried, DeadLetter, Created;
  }

  lemma StepKeepsIncrements(cfg: Config, actions: seq<Action>, a: Action, w: nat)
    requires var s := Run(cfg, EMPTY, actions); w in s.workers ==> IncrementOk(cfg, actions, w, s.workers[w])
    requires w in Apply(cfg, Run(cfg, EMPTY, actions), a).workers
    ensures IncrementOk(cfg, actions + [a], w, Apply(cfg, Run(cfg, EMPTY, actions), a).workers[w])
  {
    var s := Run(cfg, EMPTY, actions);
    hide Run, Apply, FailedWrite, Working;
    var wk := Apply(cfg, s, a).workers[w];
    if wk.stage.Increment? {
      CountingComesFrom(cfg, s, a, w);
      LastAfter(cfg, actions, a, w);
      if Commands(s, a) && a.w == w {
        assert (actions + [a])[..|actions|] == actions;
      } else {
        FailedStays(cfg, actions, a, LastCommand(cfg, actions, w), wk.stage.event);
      }
    }
  }

  lemma CounterStep(cfg: Config, s: State, a: Action, eventId: string)
    ensures Retries(Apply(cfg, s, a).store, eventId)
            == if Clears(s, a, eventId) then 0
               else if Increments(s, a, eventId) then Retries(s.store, eventId) + 1
               else Retries(s.store, eventId)
  {
    hide Perform;
    if Commands(s, a) {
      PerformCounter(cfg, s.store, s.workers[a.w], a, eventId);
    }
  }

  lemma StepKeepsCounted(cfg: Config, actions: seq<Action>, a: Action, eventId: string)
    requires Inv(cfg, actions, eventId)
    ensures CountedOk(cfg, actions + [a], eventId)
  {
    var s, longer := Run(cfg, EMPTY, actions), actions + [a];
    CountedAfter(cfg, actions, a, eventId);
    hide Run, Counted, FailedWrite, Clears;
    forall n | n in Counted(cfg, longer, eventId)
      ensures FailedIdAt(cfg, longer, n, eventId) && longer[n].Work? && n < LastCommand(cfg, longer, longer[n].w)
    {
      if n in Counted(cfg, actions, eventId) {
        var event :| FailedAt(cfg, actions, n, event) && event.eventId == eventId;
        FailedStays(cfg, actions, a, n, event);
        LastAfter(cfg, actions, a, actions[n].w);
      } else {
        assert IncrementOk(cfg, actions, a.w, s.workers[a.w]);
        FailedStays(cfg, actions, a, n, s.workers[a.w].stage.event);
        LastBound(cfg, actions, a.w);
        LastAfter(cfg, actions, a, a.w);
      }
    }
  }

  lemma StepKeeps(cfg: Config, actions: seq<Action>, a: Action, eventId: string)
    requires Inv(cfg, actions, eventId)
    ensures Inv(cfg, actions + [a], eventId)
  {
    var s := Run(cfg, EMPTY, actions);
    assert Run(cfg, EMPTY, actions + [a]) == Apply(cfg, s, a) by {
      assert (actions + [a])[..|actions|] == actions;
    }
    forall w | w in Apply(cfg, s, a).workers
      ensures IncrementOk(cfg, actions + [a], w, Apply(cfg, s, a).workers[w])
    {
      StepKeepsIncrements(cfg, actions, a, w);
    }
    StepKeepsCounted(cfg, actions, a, eventId);
    CounterStep(cfg, s, a, eventId);
    CountedAfter(cfg, actions, a, eventId);
    hide Run, Apply, IncrementOk, Counted;
    if Increments(s, a, eventId) {
      LastIsNew(cfg, actions, a, eventId);
    }
  }

  /** A command counted already is not the last of its worker. */
  lemma LastIsNew(cfg: Config, actions: seq<Action>, a: Action, eventId: string)
    requires CountedOk(cfg, actions, eventId) && a.Work?
    ensures LastCommand(cfg, actions, a.w) !in Counted(cfg, actions, eventId)
  {
    hide Run, Counted, FailedWrite;
    LastBound(cfg, actions, a.w);

  }

  lemma {:induction false} RunKeeps(cfg: Config, actions: seq<Action>, eventId: string)
    ensures Inv(cfg, actions, eventId)
  {
    if actions != [] {
      hide Inv;
      var n := |actions| - 1;
      RunKeeps(cfg, actions[..n], eventId);
      StepKeeps(cfg, actions[..n], actions[n], eventId);
      assert actions == actions[..n] + [actions[n]];
    }
  }

  /** In every run the counter of an event is the number of failed writes of it that were
      counted since it was last cleared. */
  lemma CounterCountsFailures(cfg: Config, actions: seq<Action>, eventId: string)
    ensures Retries(Run(cfg, EMPTY, actions).store, eventId) == |Counted(cfg, actions, eventId)|
    ensures forall n :: n in Counted(cfg, actions, eventId) ==> FailedIdAt(cfg, actions, n, eventId)
  {
    RunKeeps(cfg, actions, eventId);
    hide Run, Counted, IncrementOk, FailedIdAt;
  }

  // ---------------------------------------------------------------------------
  // Burials
  // ---------------------------------------------------------------------------

  /** At position `n` a worker counted a failure of the event, and its counter could not
      be read or had reached the limit. */
  predicate GaveUpAt(cfg: Config, actions: seq<Action>, n: int, event: Event)
  {
    && 0 <= n < |actions|
    && var s, a := Run(cfg, EMPTY, actions[..n]), actions[n];
       && Commands(s, a) && s.workers[a.w].stage == Increment(event)
       && (!a.reply.Done? || |Counted(cfg, actions[..n + 1], event.eventId)| >= cfg.maxRetries)
  }

  lemma CountingStep(cfg: Config, s: State, a: Action)
    requires Commands(s, a) && s.workers[a.w].stage.Increment?
    ensures var event := s.workers[a.w].stage.event;
            var u := Apply(cfg, s, a);
            && a.w in u.workers
            && (u.workers[a.w].stage == Bury(Some(event))
                <==> !a.reply.Done? || Retries(u.store, event.eventId) >= cfg.maxRetries)
            && (a.reply.Done? && Retries(u.store, event.eventId) < cfg.maxRetries ==>
                  && u.workers[a.w] == Begin(cfg, s.store, s.workers[a.w].batch[1..])
                  && u.store.pending == s.store.pending)
  {
    hide Carried;
  }

  /** In every run, after counting a failure a worker gives the event up exactly if the
      counter could not be read or the failed writes counted since it was last cleared
      reach the limit; otherwise the message stays pending and the worker goes on. */
  lemma GivenUpExactly(cfg: Config, actions: seq<Action>, a: Action)
    requires Commands(Run(cfg, EMPTY, actions), a) && Run(cfg, EMPTY, actions).workers[a.w].stage.Increment?
    ensures var s, u := Run(cfg, EMPTY, actions), Run(cfg, EMPTY, actions + [a]);
            var event := s.workers[a.w].stage.event;
            var enough := |Counted(cfg, actions + [a], event.eventId)| >= cfg.maxRetries;
            && a.w in u.workers
            && (u.workers[a.w].stage == Bury(Some(event)) <==> !a.reply.Done? || enough)
            && (a.reply.Done? && !enough ==>
                  && u.workers[a.w] == Begin(cfg, s.store, s.workers[a.w].batch[1..])
                  && u.store.pending == s.store.pending)
  {
    var s := Run(cfg, EMPTY, actions);
    assert Run(cfg, EMPTY, actions + [a]) == Apply(cfg, s, a) by {
      assert (actions + [a])[..|actions|] == actions;
    }
    CounterCountsFailures(cfg, actions + [a], s.workers[a.w].stage.event.eventId);
    hide Run, Apply, Counted;
    CountingStep(cfg, s, a);
  }

  /** Failures count when they are counted, not when they happen: with a limit of one, an
      event whose counter is cleared between a failed write and its increment is given up
      although no write of it failed since. */
  lemma ClearedBeforeCounting(cfg: Config, s: State, w: nat, failedAt: string, error: string)
    requires cfg.maxRetries == 1 && Working(s, w) && s.workers[w].stage.Increment?
    ensures var event := s.workers[w].stage.event;
            var u := Apply(cfg, Apply(cfg, s, ForgetRetries(event.eventId)), Work(w, Done, failedAt, error));
            w in u.workers && u.workers[w].stage == Bury(Some(event))
  {
    hide Carried;
  }

  predicate BuryOk(cfg: Config, actions: seq<Action>, w: nat, wk: Worker)
  {
    wk.stage.Bury? && wk.stage.letter.Some? ==>
      GaveUpAt(cfg, actions, LastCommand(cfg, actions, w), wk.stage.letter.value)
  }

  /** Only giving up leads to the burial of a readable event. */
  lemma BuryingComesFrom(cfg: Config, s: State, a: Action, w: nat)
    requires w in Apply(cfg, s, a).workers && Apply(cfg, s, a).workers[w].stage.Bury?
    requires Apply(cfg, s, a).workers[w].stage.letter.Some?
    ensures var event := Apply(cfg, s, a).workers[w].stage.letter.value;
            if Commands(s, a) && a.w == w then s.workers[w].stage == Increment(event)
            else w in s.workers && s.workers[w] == Apply(cfg, s, a).workers[w]
  {
    hide Carried, DeadLetter, Created;
  }

  lemma GaveUpStays(cfg: Config, actions: seq<Action>, a: Action, n: int, event: Event)
    requires GaveUpAt(cfg, actions, n, event)
    ensures GaveUpAt(cfg, actions + [a], n, event)
  {
    hide Run, Counted;
    assert (actions + [a])[..n] == actions[..n] && (actions + [a])[..n + 1] == actions[..n + 1];
  }

  lemma StepKeepsBury(cfg: Config, actions: seq<Action>, a: Action, w: nat)
    requires var s := Run(cfg, EMPTY, actions); w in s.workers ==> BuryOk(cfg, actions, w, s.workers[w])
    requires w in Run(cfg, EMPTY, actions + [a]).workers
    ensures BuryOk(cfg, actions + [a], w, Run(cfg, EMPTY, actions + [a]).workers[w])
  {
    var s, longer := Run(cfg, EMPTY, actions), actions + [a];
    assert Run(cfg, EMPTY, longer) == Apply(cfg, s, a) by {
      assert longer[..|actions|] == actions;
    }
    hide Run, Apply, Counted, Working;
    var wk := Run(cfg, EMPTY, longer).workers[w];
    if wk.stage.Bury? && wk.stage.letter.Some? {
      BuryingComesFrom(cfg, s, a, w);
      LastAfter(cfg, actions, a, w);
      if Commands(s, a) && a.w == w {
        GivenUpExactly(cfg, actions, a);
        assert longer[..|actions|] == actions && longer[..|actions| + 1] == longer;
      } else {
        GaveUpStays(cfg, actions, a, LastCommand(cfg, actions, w), wk.stage.letter.value);
      }
    }
  }

  lemma {:induction false} RunKeepsBury(cfg: Config, actions: seq<Action>, w: nat)
    requires w in Run(cfg, EMPTY, actions).workers
    ensures BuryOk(cfg, actions, w, Run(cfg, EMPTY, actions).workers[w])
  {
    if actions != [] {
      var n := |actions| - 1;
      if w in Run(cfg, EMPTY, actions[..n]).workers {
        RunKeepsBury(cfg, actions[..n], w);
      }
      assert actions == actions[..n] + [actions[n]];
      hide Run, BuryOk;
      StepKeepsBury(cfg, actions[..n], actions[n], w);
    }
  }

  /** At position `n` a worker that had given the event up wrote the letter of message `m`. */
  predicate BuriedAt(cfg: Config, actions: seq<Action>, n: int, m: nat, event: Event)
  {
    && 0 <= n < |actions|
    && var s, a := Run(cfg, EMPTY, actions[..n]), actions[n];
       && Commands(s, a) && s.workers[a.w].stage == Bury(Some(event)) && s.workers[a.w].batch[0] == m
       && GaveUpAt(cfg, actions[..n], LastCommand(cfg, actions[..n], a.w), event)
  }

  ghost predicate BuriedSomewhere(cfg: Config, actions: seq<Action>, m: nat, event: Event)
  {
    exists n :: BuriedAt(cfg, actions, n, m, event)
  }

  lemma BuriedStays(cfg: Config, actions: seq<Action>, a: Action, m: nat, event: Event)
    requires BuriedSomewhere(cfg, actions, m, event)
    ensures BuriedSomewhere(cfg, actions + [a], m, event)
  {
    hide Run, GaveUpAt, LastCommand;
    var n :| BuriedAt(cfg, actions, n, m, event);
    assert (actions + [a])[..n] == actions[..n];
    assert BuriedAt(cfg, actions + [a], n, m, event);
  }

  /** A new letter is of the message its writer is burying. */
  lemma LetterComesFrom(cfg: Config, s: State, a: Action, i: nat)
    requires Conserved(cfg, s) && i < |Apply(cfg, s, a).store.dlq|
    ensures var u := Apply(cfg, s, a);
            || (i < |s.store.dlq| && u.store.dlq[i] == s.store.dlq[i])
            || (&& Commands(s, a) && s.workers[a.w].stage.Bury? && s.workers[a.w].batch[0] == u.store.dlq[i].source
                && s.workers[a.w].batch[0] < |s.store.stream|
                && Carried(cfg.times, s.store.stream[s.workers[a.w].batch[0]]) == s.workers[a.w].stage.letter)
    ensures s.store.stream <= Apply(cfg, s, a).store.stream
  {
    hide Carried, DeadLetter, Created, StoreOk, Begin;
    if Commands(s, a) {
      assert WorkerOk(cfg, s.store, s.workers[a.w]);
    }
  }

  /** In every run each letter of a readable message was written after its event had been
      given up: its counter could not be read, or at least as many failed writes of it as
      the limit had been counted since the counter was last cleared. */
  lemma {:induction false} LettersAreGivenUp(cfg: Config, actions: seq<Action>, i: nat)
    requires i < |Run(cfg, EMPTY, actions).store.dlq|
    ensures var store := Run(cfg, EMPTY, actions).store;
            && store.dlq[i].source < |store.stream|
            && (Carried(cfg.times, store.stream[store.dlq[i].source]).Some? ==>
                  BuriedSomewhere(cfg, actions, store.dlq[i].source,
                                  Carried(cfg.times, store.stream[store.dlq[i].source]).value))
  {
    if actions != [] {
      var n := |actions| - 1;
      var front, a := actions[..n], actions[n];
      var s := Run(cfg, EMPTY, front);
      assert actions == front + [a];
      NothingIsLost(cfg, front);
      hide Apply, Carried;
      LetterComesFrom(cfg, s, a, i);
      var u := Apply(cfg, s, a);
      hide Run;
      if i < |s.store.dlq| && u.store.dlq[i] == s.store.dlq[i] {
        LettersAreGivenUp(cfg, front, i);
        var m := s.store.dlq[i].source;
        assert u.store.stream[m] == s.store.stream[m];
        if Carried(cfg.times, s.store.stream[m]).Some? {
          BuriedStays(cfg, front, a, m, Carried(cfg.times, s.store.stream[m]).value);
        }
      } else if s.workers[a.w].stage.letter.Some? {
        RunKeepsBury(cfg, front, a.w);
        NewLetter(cfg, front, a, s.workers[a.w].stage.letter.value);
      }
    }
  }

  lemma NewLetter(cfg: Config, actions: seq<Action>, a: Action, event: Event)
    requires Commands(Run(cfg, EMPTY, actions), a)
    requires var wk := Run(cfg, EMPTY, actions).workers[a.w];
             wk.stage == Bury(Some(event)) && BuryOk(cfg, actions, a.w, wk)
    ensures BuriedSomewhere(cfg, actions + [a], Run(cfg, EMPTY, actions).workers[a.w].batch[0], event)
  {
    hide Run, GaveUpAt, LastCommand;
    assert (actions + [a])[..|actions|] == actions;
    assert BuriedAt(cfg, actions + [a], |actions|, Run(cfg, EMPTY, actions).workers[a.w].batch[0], event);
  }
}
