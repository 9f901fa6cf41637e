/** The two worker pools of the login service. An I/O job may hand part of its work to
    the CPU pool and wait for it, so I/O workers block on CPU jobs; both queues are
    bounded, and a submitter may be cancelled at any time. */
module WorkerPools {
  import opened Wrappers

  datatype Pool = Io | Cpu

  /** The size of a pool, after the constructor's corrections. */
  method NewWorkerPool(workers: int, queue: int) returns (w: nat, q: nat)
    ensures 1 <= w <= q
    ensures workers >= 1 ==> w == workers
    ensures workers >= 1 && queue >= workers ==> q == queue
  {
    var ws, qs := workers, queue;
    if ws <= 0 {
      ws := 1;
    }
    if qs < ws {
      qs := ws;
    }
    return ws, qs;
  }

  datatype Config = Config(workers: Pool -> nat, capacity: Pool -> nat)

  ghost predicate Valid(cfg: Config)
  {
    forall p :: 1 <= cfg.workers(p) <= cfg.capacity(p)
  }

  /** A result names the job it belongs to, and tells whether its function was called. */
  datatype Outcome = Outcome(job: nat, ran: bool)

  datatype Stage =
    | Submitting            // the submitter waits for room in the queue
    | Queued
    | Running
    | AwaitingChild(child: nat)
    | Returning
    | Done
    | Withdrawn             // cancelled before it was queued

  /** Where the submitter is: waiting, answered, or gone after a cancellation. */
  datatype Answer = Awaiting | Got(outcome: Outcome) | GaveUp

  /** `parent` is the I/O job that submitted a CPU job. `ran` tells whether a worker
      called the job's function. `channel` is the result channel, which holds one element;
      `sent` counts the sends. */
  datatype Job = Job(pool: Pool, nested: bool, parent: Option<nat>, stage: Stage, ran: bool, answer: Answer,
                     channel: seq<Outcome>, sent: nat)

  datatype State = State(jobs: seq<Job>, ioQueue: seq<nat>, cpuQueue: seq<nat>, cancelled: set<nat>)

  datatype Action =
    | Submit(nested: bool)
    | Cancel(job: nat)
    | Enqueue(job: nat)
    | Withdraw(job: nat)
    | Take(pool: Pool)
    | Spawn(job: nat)
    | Compute(job: nat)
    | Send(job: nat)
    | Receive(job: nat)
    | ReceiveChild(job: nat)
    | GiveUp(job: nat)
    | GiveUpChild(job: nat)

  const CHANNEL_CAPACITY: nat := 1

  predicate Busy(j: Job, p: Pool)
  {
    j.pool == p && (j.stage.Running? || j.stage.AwaitingChild? || j.stage.Returning?)
  }

  function BusyCount(jobs: seq<Job>, p: Pool): nat
  {
    if jobs == [] then 0
    else BusyCount(jobs[..|jobs| - 1], p) + if Busy(jobs[|jobs| - 1], p) then 1 else 0
  }

  function QueueOf(s: State, p: Pool): seq<nat>
  {
    match p case Io => s.ioQueue case Cpu => s.cpuQueue
  }

  function WithQueue(s: State, p: Pool, q: seq<nat>): State
  {
    match p case Io => s.(ioQueue := q) case Cpu => s.(cpuQueue := q)
  }

  /** A CPU job runs under the context of the I/O job that submitted it. */
  predicate IsCancelled(s: State, i: nat)
    requires i < |s.jobs|
  {
    (if s.jobs[i].parent.Some? then s.jobs[i].parent.value else i) in s.cancelled
  }

  /** Whether a step of the pools, rather than of their surroundings. */
  predicate Internal(a: Action)
  {
    !a.Submit? && !a.Cancel?
  }

  predicate Enabled(cfg: Config, s: State, a: Action)
  {
    match a
    case Submit(_) => true
    case Cancel(i) => true
    case Enqueue(i) =>
      i < |s.jobs| && s.jobs[i].stage.Submitting? && |QueueOf(s, s.jobs[i].pool)| < cfg.capacity(s.jobs[i].pool)
    case Withdraw(i) => i < |s.jobs| && s.jobs[i].stage.Submitting? && IsCancelled(s, i)
    case Take(p) =>
      QueueOf(s, p) != [] && QueueOf(s, p)[0] < |s.jobs| && BusyCount(s.jobs, p) < cfg.workers(p)
    case Spawn(i) => i < |s.jobs| && s.jobs[i].stage.Running? && s.jobs[i].nested
    case Compute(i) => i < |s.jobs| && s.jobs[i].stage.Running? && !s.jobs[i].nested
    case Send(i) => i < |s.jobs| && s.jobs[i].stage.Returning? && |s.jobs[i].channel| < CHANNEL_CAPACITY
    case Receive(i) =>
      i < |s.jobs| && s.jobs[i].parent.None? && s.jobs[i].answer.Awaiting? && s.jobs[i].channel != []
    case ReceiveChild(i) =>
      && i < |s.jobs| && s.jobs[i].stage.AwaitingChild? && s.jobs[i].stage.child < |s.jobs|
      && s.jobs[i].stage.child != i && s.jobs[s.jobs[i].stage.child].channel != []
    case GiveUp(i) =>
      && i < |s.jobs| && s.jobs[i].parent.None? && s.jobs[i].answer.Awaiting?
      && !s.jobs[i].stage.Submitting? && IsCancelled(s, i)
    case GiveUpChild(i) =>
      && i < |s.jobs| && s.jobs[i].stage.AwaitingChild? && s.jobs[i].stage.child < |s.jobs|
      && s.jobs[i].stage.child != i && !s.jobs[s.jobs[i].stage.child].stage.Submitting? && IsCancelled(s, i)
  }

  function Update(s: State, i: nat, j: Job): State
    requires i < |s.jobs|
  {
    s.(jobs := s.jobs[i := j])
  }

  /** The submitter of a CPU job goes on with the answer. */
  function Resumed(s: State, child: nat): State
    requires child < |s.jobs|
  {
    match s.jobs[child].parent
    case Some(p) => if p < |s.jobs| then Update(s, p, s.jobs[p].(stage := Returning)) else s
    case None => s
  }

  function Apply(cfg: Config, s: State, a: Action): State
  {
    if !Enabled(cfg, s, a) then s
    else match a
      case Submit(nested) => s.(jobs := s.jobs + [Job(Io, nested, None, Submitting, false, Awaiting, [], 0)])
      case Cancel(i) => s.(cancelled := s.cancelled + {i})
      case Enqueue(i) =>
        var p := s.jobs[i].pool;
        Update(WithQueue(s, p, QueueOf(s, p) + [i]), i, s.jobs[i].(stage := Queued))
      case Withdraw(i) => Resumed(Update(s, i, s.jobs[i].(stage := Withdrawn, answer := GaveUp)), i)
      case Take(p) =>
        var i := QueueOf(s, p)[0];
        Update(WithQueue(s, p, QueueOf(s, p)[1..]), i,
               if IsCancelled(s, i) then s.jobs[i].(stage := Returning) else s.jobs[i].(stage := Running, ran := true))
      case Spawn(i) =>
        Update(s.(jobs := s.jobs + [Job(Cpu, false, Some(i), Submitting, false, Awaiting, [], 0)]), i,
               s.jobs[i].(stage := AwaitingChild(|s.jobs|)))
      case Compute(i) => Update(s, i, s.jobs[i].(stage := Returning))
      case Send(i) =>
        Update(s, i, s.jobs[i].(stage := Done, channel := s.jobs[i].channel + [Outcome(i, s.jobs[i].ran)],
                                sent := s.jobs[i].sent + 1))
      case Receive(i) =>
        Update(s, i, s.jobs[i].(answer := Got(s.jobs[i].channel[0]), channel := s.jobs[i].channel[1..]))
      case ReceiveChild(i) =>
        var c := s.jobs[i].stage.child;
        Update(Update(s, c, s.jobs[c].(answer := Got(s.jobs[c].channel[0]), channel := s.jobs[c].channel[1..])), i,
               s.jobs[i].(stage := Returning))
      case GiveUp(i) => Update(s, i, s.jobs[i].(answer := GaveUp))
      case GiveUpChild(i) =>
        var c := s.jobs[i].stage.child;
        Update(Update(s, c, s.jobs[c].(answer := GaveUp)), i, s.jobs[i].(stage := Returning))
  }

  function Run(cfg: Config, s: State, actions: seq<Action>): State
  {
    if actions == [] then s else Apply(cfg, Run(cfg, s, actions[..|actions| - 1]), actions[|actions| - 1])
  }

  const IDLE := State([], [], [], {})

  ghost predicate Reachable(cfg: Config, s: State)
  {
    exists actions :: s == Run(cfg, IDLE, actions)
  }

  // ---------------------------------------------------------------------------
  // Invariant
  // ---------------------------------------------------------------------------

  /** A job sends once, when it is done, and what it sends is its own result. */
  predicate ChannelOk(i: nat, j: Job)
  {
    && j.sent == (if j.stage.Done? then 1 else 0)
    && |j.channel| <= j.sent
    && (j.stage.Done? && j.answer.Awaiting? ==> j.channel != [])
    && (forall k :: 0 <= k < |j.channel| ==> j.channel[k] == Outcome(i, j.ran))
    && (j.answer.Got? ==> j.answer.outcome == Outcome(i, j.ran) && j.stage.Done?)
    && (j.answer.Awaiting? ==> !j.stage.Withdrawn?)
    && (j.stage.Submitting? ==> j.answer.Awaiting?)
    && (j.stage.Submitting? || j.stage.Queued? || j.stage.Withdrawn? ==> !j.ran)
  }

  /** I/O jobs come from outside; a CPU job has an I/O parent, which waits for it as
      long as the answer is wanted. */
  predicate FamilyOk(jobs: seq<Job>, i: nat)
    requires i < |jobs|
  {
    var j := jobs[i];
    && (j.pool.Io? <==> j.parent.None?)
    && (j.pool.Cpu? ==> !j.nested && !j.stage.AwaitingChild?)
    && (j.parent.Some? ==>
          && j.parent.value < i && jobs[j.parent.value].pool.Io?
          && (j.answer.Awaiting? ==> jobs[j.parent.value].stage == AwaitingChild(i)))
    && (j.stage.AwaitingChild? ==>
          && i < j.stage.child < |jobs| && jobs[j.stage.child].parent == Some(i)
          && jobs[j.stage.child].answer.Awaiting?)
  }

  /** The queue holds exactly the queued jobs of its pool, each once. */
  predicate QueueOk(jobs: seq<Job>, queue: seq<nat>, p: Pool)
  {
    && (forall k :: 0 <= k < |queue| ==>
          queue[k] < |jobs| && jobs[queue[k]].pool == p && jobs[queue[k]].stage.Queued?)
    && (forall k, l :: 0 <= k < l < |queue| ==> queue[k] != queue[l])
    && (forall i :: 0 <= i < |jobs| && jobs[i].pool == p && jobs[i].stage.Queued? ==> i in queue)
  }

  predicate JobsOk(jobs: seq<Job>)
  {
    forall i :: 0 <= i < |jobs| ==> ChannelOk(i, jobs[i]) && FamilyOk(jobs, i)
  }

  predicate Inv(s: State)
  {
    JobsOk(s.jobs) && QueueOk(s.jobs, s.ioQueue, Io) && QueueOk(s.jobs, s.cpuQueue, Cpu)
  }

  /** A job that neither enters nor leaves its queue leaves both queues right. */
  lemma QueuesStay(jobs: seq<Job>, queue: seq<nat>, p: Pool, i: nat, j: Job)
    requires QueueOk(jobs, queue, p) && i < |jobs| && j.pool == jobs[i].pool
    requires !jobs[i].stage.Queued? && !j.stage.Queued?
    ensures QueueOk(jobs[i := j], queue, p)
  {
  }

  /** A change of one job that keeps its family ties. */
  lemma JobChanges(jobs: seq<Job>, i: nat, j: Job)
    requires JobsOk(jobs) && i < |jobs| && ChannelOk(i, j)
    requires j.pool == jobs[i].pool && j.nested == jobs[i].nested && j.parent == jobs[i].parent
    requires j.answer == jobs[i].answer || j.parent.None?
    requires !j.stage.AwaitingChild? && !jobs[i].stage.AwaitingChild?
    ensures JobsOk(jobs[i := j])
  {
    hide ChannelOk;
  }

  /** The answer to a CPU job reaches the waiting I/O job. */
  lemma ChildAnswered(jobs: seq<Job>, i: nat, c: nat, child: Job)
    requires JobsOk(jobs) && i < |jobs| && c < |jobs| && jobs[i].stage == AwaitingChild(c) && ChannelOk(c, child)
    requires child.pool == jobs[c].pool && child.nested == jobs[c].nested && child.parent == jobs[c].parent
    requires !child.answer.Awaiting? && !child.stage.AwaitingChild?
    ensures JobsOk(jobs[c := child][i := jobs[i].(stage := Returning)])
  {
    assert FamilyOk(jobs, i) && FamilyOk(jobs, c) && ChannelOk(i, jobs[i]);
    assert ChannelOk(i, jobs[i].(stage := Returning));
    hide ChannelOk;
  }

  lemma JobAdded(jobs: seq<Job>, j: Job)
    requires JobsOk(jobs) && j == Job(Io, j.nested, None, Submitting, false, Awaiting, [], 0)
    ensures JobsOk(jobs + [j])
  {
    assert ChannelOk(|jobs|, j);
    hide ChannelOk;
  }

  lemma ChildAdded(jobs: seq<Job>, i: nat)
    requires JobsOk(jobs) && i < |jobs| && jobs[i].stage.Running? && jobs[i].nested
    ensures JobsOk((jobs + [Job(Cpu, false, Some(i), Submitting, false, Awaiting, [], 0)])
                   [i := jobs[i].(stage := AwaitingChild(|jobs|))])
  {
    assert FamilyOk(jobs, i) && ChannelOk(i, jobs[i]);
    assert ChannelOk(i, jobs[i].(stage := AwaitingChild(|jobs|)));
    assert ChannelOk(|jobs|, Job(Cpu, false, Some(i), Submitting, false, Awaiting, [], 0));
    hide ChannelOk;
  }

  lemma QueuesGrow(jobs: seq<Job>, queue: seq<nat>, p: Pool, j: Job)
    requires QueueOk(jobs, queue, p) && !j.stage.Queued?
    ensures QueueOk(jobs + [j], queue, p)
  {
  }

  /** The submitter of an I/O job gets its answer or leaves. */
  lemma SubmitterLeaves(jobs: seq<Job>, i: nat, j: Job)
    requires JobsOk(jobs) && i < |jobs| && ChannelOk(i, j) && jobs[i].parent.None?
    requires j.pool == jobs[i].pool && j.nested == jobs[i].nested && j.parent == None && j.stage == jobs[i].stage
    ensures JobsOk(jobs[i := j])
  {
    assert FamilyOk(jobs, i);
    hide ChannelOk;
  }

  lemma Enqueues(jobs: seq<Job>, queue: seq<nat>, p: Pool, i: nat)
    requires QueueOk(jobs, queue, p) && i < |jobs| && jobs[i].pool == p && jobs[i].stage.Submitting?
    ensures QueueOk(jobs[i := jobs[i].(stage := Queued)], queue + [i], p)
  {
    assert i !in queue;
    assert forall k :: k in queue ==> k in queue + [i];
  }

  lemma Dequeues(jobs: seq<Job>, queue: seq<nat>, p: Pool, j: Job)
    requires QueueOk(jobs, queue, p) && queue != [] && queue[0] < |jobs| && j.pool == p && !j.stage.Queued?
    ensures QueueOk(jobs[queue[0] := j], queue[1..], p)
  {
    assert queue == [queue[0]] + queue[1..];
  }

  lemma OtherQueue(jobs: seq<Job>, queue: seq<nat>, p: Pool, i: nat, j: Job)
    requires QueueOk(jobs, queue, p) && i < |jobs| && jobs[i].pool != p && j.pool == jobs[i].pool
    ensures QueueOk(jobs[i := j], queue, p)
  {
  }

  lemma InvFor(s: State, i: nat)
    requires Inv(s) && i < |s.jobs|
    ensures ChannelOk(i, s.jobs[i]) && FamilyOk(s.jobs, i)
  {
  }

  lemma UpdateKeeps(s: State, i: nat, j: Job)
    requires Inv(s) && i < |s.jobs| && !s.jobs[i].stage.Queued? && !j.stage.Queued? && j.pool == s.jobs[i].pool
    requires JobsOk(s.jobs[i := j])
    ensures Inv(Update(s, i, j))
  {
    hide JobsOk, QueueOk;
    QueuesStay(s.jobs, s.ioQueue, Io, i, j);
    QueuesStay(s.jobs, s.cpuQueue, Cpu, i, j);
  }

  lemma EnqueueKeeps(s: State, i: nat)
    requires Inv(s) && i < |s.jobs| && s.jobs[i].stage.Submitting?
    ensures var p := s.jobs[i].pool;
            Inv(Update(WithQueue(s, p, QueueOf(s, p) + [i]), i, s.jobs[i].(stage := Queued)))
  {
    InvFor(s, i);
    JobChanges(s.jobs, i, s.jobs[i].(stage := Queued));
    Enqueues(s.jobs, QueueOf(s, s.jobs[i].pool), s.jobs[i].pool, i);
    var other := if s.jobs[i].pool.Io? then Cpu else Io;
    OtherQueue(s.jobs, QueueOf(s, other), other, i, s.jobs[i].(stage := Queued));
  }

  lemma TakeKeeps(s: State, p: Pool, stage: Stage, ran: bool)
    requires Inv(s) && QueueOf(s, p) != [] && QueueOf(s, p)[0] < |s.jobs| && (stage.Running? || stage.Returning?)
    ensures var i := QueueOf(s, p)[0];
            Inv(Update(WithQueue(s, p, QueueOf(s, p)[1..]), i, s.jobs[i].(stage := stage, ran := ran)))
  {
    var i := QueueOf(s, p)[0];
    InvFor(s, i);
    assert s.jobs[i].pool == p && s.jobs[i].stage.Queued?;
    var j := s.jobs[i].(stage := stage, ran := ran);
    JobChanges(s.jobs, i, j);
    Dequeues(s.jobs, QueueOf(s, p), p, j);
    var other := if p.Io? then Cpu else Io;
    OtherQueue(s.jobs, QueueOf(s, other), other, i, j);
  }

  lemma ChildAnsweredKeeps(s: State, i: nat, c: nat, child: Job)
    requires Inv(s) && i < |s.jobs| && c < |s.jobs| && s.jobs[i].stage == AwaitingChild(c) && ChannelOk(c, child)
    requires child.pool == s.jobs[c].pool && child.nested == s.jobs[c].nested && child.parent == s.jobs[c].parent
    requires !child.answer.Awaiting? && !child.stage.AwaitingChild?
    requires child.stage.Queued? <==> s.jobs[c].stage.Queued?
    ensures Inv(Update(Update(s, c, child), i, s.jobs[i].(stage := Returning)))
  {
    InvFor(s, i);
    ChildAnswered(s.jobs, i, c, child);
    hide JobsOk, ChannelOk, FamilyOk;
  }

  lemma WithdrawKeeps(s: State, i: nat)
    requires Inv(s) && i < |s.jobs| && s.jobs[i].stage.Submitting?
    ensures Inv(Resumed(Update(s, i, s.jobs[i].(stage := Withdrawn, answer := GaveUp)), i))
  {
    InvFor(s, i);
    var j := s.jobs[i].(stage := Withdrawn, answer := GaveUp);
    match s.jobs[i].parent
    case None =>
      JobChanges(s.jobs, i, j);
      UpdateKeeps(s, i, j);
    case Some(p) =>
      assert s.jobs[p].stage == AwaitingChild(i);
      ChildAnsweredKeeps(s, p, i, j);
  }

  lemma SpawnKeeps(s: State, i: nat)
    requires Inv(s) && i < |s.jobs| && s.jobs[i].stage.Running? && s.jobs[i].nested
    ensures var child := Job(Cpu, false, Some(i), Submitting, false, Awaiting, [], 0);
            Inv(Update(s.(jobs := s.jobs + [child]), i, s.jobs[i].(stage := AwaitingChild(|s.jobs|))))
  {
    ChildAdded(s.jobs, i);
    var child := Job(Cpu, false, Some(i), Submitting, false, Awaiting, [], 0);
    var j := s.jobs[i].(stage := AwaitingChild(|s.jobs|));
    hide JobsOk, QueueOk;
    QueuesGrow(s.jobs, s.ioQueue, Io, child);
    QueuesGrow(s.jobs, s.cpuQueue, Cpu, child);
    QueuesStay(s.jobs + [child], s.ioQueue, Io, i, j);
    QueuesStay(s.jobs + [child], s.cpuQueue, Cpu, i, j);
  }

  lemma SubmitKeeps(s: State, nested: bool)
    requires Inv(s)
    ensures Inv(s.(jobs := s.jobs + [Job(Io, nested, None, Submitting, false, Awaiting, [], 0)]))
  {
    hide JobsOk, QueueOk;
    var j := Job(Io, nested, None, Submitting, false, Awaiting, [], 0);
    JobAdded(s.jobs, j);
    QueuesGrow(s.jobs, s.ioQueue, Io, j);
    QueuesGrow(s.jobs, s.cpuQueue, Cpu, j);
  }

  lemma ReceiveKeeps(s: State, i: nat, answer: Answer, channel: seq<Outcome>)
    requires Inv(s) && i < |s.jobs| && s.jobs[i].parent.None? && s.jobs[i].answer.Awaiting?
    requires !s.jobs[i].stage.Submitting?
    requires (answer.GaveUp? && channel == s.jobs[i].channel)
             || (s.jobs[i].channel != [] && answer == Got(s.jobs[i].channel[0]) && channel == s.jobs[i].channel[1..])
    ensures Inv(Update(s, i, s.jobs[i].(answer := answer, channel := channel)))
  {
    InvFor(s, i);
    SubmitterLeaves(s.jobs, i, s.jobs[i].(answer := answer, channel := channel));
  }

  lemma SendKeeps(s: State, i: nat)
    requires Inv(s) && i < |s.jobs| && s.jobs[i].stage.Returning?
    ensures Inv(Update(s, i, s.jobs[i].(stage := Done, channel := s.jobs[i].channel + [Outcome(i, s.jobs[i].ran)],
                                        sent := s.jobs[i].sent + 1)))
  {
    InvFor(s, i);
    var j := s.jobs[i].(stage := Done, channel := s.jobs[i].channel + [Outcome(i, s.jobs[i].ran)],
                        sent := s.jobs[i].sent + 1);
    JobChanges(s.jobs, i, j);
    UpdateKeeps(s, i, j);
  }

  lemma StepKeeps(cfg: Config, s: State, a: Action)
    requires Inv(s)
    ensures Inv(Apply(cfg, s, a))
  {
    hide Inv, ChannelOk, FamilyOk, BusyCount, Resumed;
    if Enabled(cfg, s, a) {
      match a
      case Submit(nested) => SubmitKeeps(s, nested);
      case Cancel(_) => CancelKeeps(s, a.job);
      case Enqueue(i) => EnqueueKeeps(s, i);
      case Withdraw(i) => WithdrawKeeps(s, i);
      case Take(p) =>
        var i := QueueOf(s, p)[0];
        if IsCancelled(s, i) {
          TakeKeeps(s, p, Returning, s.jobs[i].ran);
        } else {
          TakeKeeps(s, p, Running, true);
        }
      case Spawn(i) => SpawnKeeps(s, i);
      case Compute(i) => ComputeKeeps(s, i);
      case Send(i) => SendKeeps(s, i);
      case Receive(i) => ReceiveStepKeeps(s, i);
      case ReceiveChild(i) => ReceiveChildKeeps(s, i);
      case GiveUp(i) => ReceiveKeeps(s, i, GaveUp, s.jobs[i].channel);
      case GiveUpChild(i) => GiveUpChildKeeps(s, i);
    }
  }

  lemma CancelKeeps(s: State, i: nat)
    requires Inv(s)
    ensures Inv(s.(cancelled := s.cancelled + {i}))
  {
  }

  lemma ComputeKeeps(s: State, i: nat)
    requires Inv(s) && i < |s.jobs| && s.jobs[i].stage.Running?
    ensures Inv(Update(s, i, s.jobs[i].(stage := Returning)))
  {
    InvFor(s, i);
    JobChanges(s.jobs, i, s.jobs[i].(stage := Returning));
    UpdateKeeps(s, i, s.jobs[i].(stage := Returning));
  }

  lemma ReceiveStepKeeps(s: State, i: nat)
    requires Inv(s) && i < |s.jobs| && s.jobs[i].parent.None? && s.jobs[i].answer.Awaiting? && s.jobs[i].channel != []
    ensures Inv(Update(s, i, s.jobs[i].(answer := Got(s.jobs[i].channel[0]), channel := s.jobs[i].channel[1..])))
  {
    InvFor(s, i);
    ReceiveKeeps(s, i, Got(s.jobs[i].channel[0]), s.jobs[i].channel[1..]);
  }

  lemma ReceiveChildKeeps(s: State, i: nat)
    requires Inv(s) && i < |s.jobs| && s.jobs[i].stage.AwaitingChild?
    requires s.jobs[i].stage.child < |s.jobs| && s.jobs[s.jobs[i].stage.child].channel != []
    ensures var c := s.jobs[i].stage.child;
            Inv(Update(Update(s, c, s.jobs[c].(answer := Got(s.jobs[c].channel[0]), channel := s.jobs[c].channel[1..])),
                       i, s.jobs[i].(stage := Returning)))
  {
    var c := s.jobs[i].stage.child;
    InvFor(s, i);
    InvFor(s, c);
    ChildAnsweredKeeps(s, i, c, s.jobs[c].(answer := Got(s.jobs[c].channel[0]), channel := s.jobs[c].channel[1..]));
  }

  lemma GiveUpChildKeeps(s: State, i: nat)
    requires Inv(s) && i < |s.jobs| && s.jobs[i].stage.AwaitingChild?
    requires s.jobs[i].stage.child < |s.jobs| && !s.jobs[s.jobs[i].stage.child].stage.Submitting?
    ensures var c := s.jobs[i].stage.child;
            Inv(Update(Update(s, c, s.jobs[c].(answer := GaveUp)), i, s.jobs[i].(stage := Returning)))
  {
    var c := s.jobs[i].stage.child;
    InvFor(s, i);
    InvFor(s, c);
    ChildAnsweredKeeps(s, i, c, s.jobs[c].(answer := GaveUp));
  }

  lemma {:induction false} RunKeeps(cfg: Config, actions: seq<Action>)
    ensures Inv(Run(cfg, IDLE, actions))
  {
    if actions != [] {
      hide Inv, Apply;
      RunKeeps(cfg, actions[..|actions| - 1]);
      StepKeeps(cfg, Run(cfg, IDLE, actions[..|actions| - 1]), actions[|actions| - 1]);
    }
  }

  // ---------------------------------------------------------------------------
  // Some step is always possible
  // ---------------------------------------------------------------------------

  /** The job still owes its result. */
  predicate Working(j: Job)
  {
    !j.stage.Done? && !j.stage.Withdrawn?
  }

  predicate Unfinished(j: Job)
  {
    Working(j) || j.answer.Awaiting?
  }

  lemma {:induction false} NoneBusy(jobs: seq<Job>, p: Pool)
    requires forall i :: 0 <= i < |jobs| ==> !Busy(jobs[i], p)
    ensures BusyCount(jobs, p) == 0
  {
    if jobs != [] {
      NoneBusy(jobs[..|jobs| - 1], p);
    }
  }

  /** With no job of a pool at work, a worker can take a queued job, or a submitter can
      queue one. */
  lemma IdlePoolMoves(cfg: Config, s: State, p: Pool, i: nat) returns (a: Action)
    requires Valid(cfg) && Inv(s) && i < |s.jobs| && s.jobs[i].pool == p && Working(s.jobs[i])
    requires forall k :: 0 <= k < |s.jobs| ==> !Busy(s.jobs[k], p)
    ensures Internal(a) && Enabled(cfg, s, a)
  {
    hide ChannelOk, FamilyOk;
    NoneBusy(s.jobs, p);
    hide BusyCount;
    if QueueOf(s, p) != [] {
      a := Take(p);
    } else {
      assert !Busy(s.jobs[i], p) && s.jobs[i].stage.Submitting?;
      a := Enqueue(i);
    }
  }

  /** A job at work can move, unless it waits for a CPU job. */
  lemma BusyJobMoves(cfg: Config, s: State, i: nat) returns (a: Action)
    requires Inv(s) && i < |s.jobs| && (s.jobs[i].stage.Running? || s.jobs[i].stage.Returning?)
    ensures Internal(a) && Enabled(cfg, s, a)
  {
    InvFor(s, i);
    a := if s.jobs[i].stage.Returning? then Send(i) else if s.jobs[i].nested then Spawn(i) else Compute(i);
  }

  lemma CpuPoolMoves(cfg: Config, s: State, i: nat) returns (a: Action)
    requires Valid(cfg) && Inv(s) && i < |s.jobs| && s.jobs[i].pool.Cpu? && Working(s.jobs[i])
    ensures Internal(a) && Enabled(cfg, s, a)
  {
    hide Enabled, BusyCount;
    if k :| 0 <= k < |s.jobs| && Busy(s.jobs[k], Cpu) {
      InvFor(s, k);
      a := BusyJobMoves(cfg, s, k);
    } else {
      a := IdlePoolMoves(cfg, s, Cpu, i);
    }
  }

  /** With every CPU job settled, a waiting I/O job has its answer. */
  lemma IoPoolMoves(cfg: Config, s: State, i: nat) returns (a: Action)
    requires Valid(cfg) && Inv(s) && i < |s.jobs| && s.jobs[i].pool.Io? && Working(s.jobs[i])
    requires forall k :: 0 <= k < |s.jobs| && s.jobs[k].pool.Cpu? ==> !Working(s.jobs[k])
    ensures Internal(a) && Enabled(cfg, s, a)
  {
    hide BusyCount;
    if k :| 0 <= k < |s.jobs| && Busy(s.jobs[k], Io) {
      InvFor(s, k);
      if s.jobs[k].stage.AwaitingChild? {
        InvFor(s, s.jobs[k].stage.child);
        a := ReceiveChild(k);
      } else {
        hide Enabled;
        a := BusyJobMoves(cfg, s, k);
      }
    } else {
      hide Enabled;
      a := IdlePoolMoves(cfg, s, Io, i);
    }
  }

  /** A job that is done has an answer its submitter can fetch. */
  lemma AnswerIsThere(cfg: Config, s: State, i: nat) returns (a: Action)
    requires Inv(s) && i < |s.jobs| && !Working(s.jobs[i]) && s.jobs[i].answer.Awaiting?
    ensures Internal(a) && Enabled(cfg, s, a)
  {
    InvFor(s, i);
    if s.jobs[i].parent.Some? {
      InvFor(s, s.jobs[i].parent.value);
      a := ReceiveChild(s.jobs[i].parent.value);
    } else {
      a := Receive(i);
    }
  }

  lemma UnfinishedMoves(cfg: Config, s: State, i: nat) returns (a: Action)
    requires Valid(cfg) && Inv(s) && i < |s.jobs| && Unfinished(s.jobs[i])
    ensures Internal(a) && Enabled(cfg, s, a)
  {
    hide Enabled, Inv;
    if k :| 0 <= k < |s.jobs| && s.jobs[k].pool.Cpu? && Working(s.jobs[k]) {
      a := CpuPoolMoves(cfg, s, k);
    } else if k :| 0 <= k < |s.jobs| && s.jobs[k].pool.Io? && Working(s.jobs[k]) {
      a := IoPoolMoves(cfg, s, k);
    } else {
      a := AnswerIsThere(cfg, s, i);
    }
  }

  /** In every reachable state with an unfinished job some step of the pools is enabled,
      although I/O workers block on CPU jobs and both queues are bounded. */
  lemma SomeStepIsEnabled(cfg: Config, s: State, i: nat) returns (a: Action)
    requires Valid(cfg) && Reachable(cfg, s) && i < |s.jobs| && Unfinished(s.jobs[i])
    ensures Internal(a) && Enabled(cfg, s, a)
  {
    var actions :| s == Run(cfg, IDLE, actions);
    RunKeeps(cfg, actions);
    hide Run, Enabled, Inv;
    a := UnfinishedMoves(cfg, s, i);
  }

  // ---------------------------------------------------------------------------
  // Steps run out
  // ---------------------------------------------------------------------------

  /** How many steps a job can still cause. */
  function JobRank(j: Job): nat
  {
    (if j.answer.Awaiting? then 1 else 0) +
    match j.stage
    case Submitting => if j.pool.Io? then 10 else 4
    case Queued => if j.pool.Io? then 9 else 3
    case Running => if j.pool.Io? then 8 else 2
    case AwaitingChild(_) => 2
    case Returning => 1
    case Done => 0
    case Withdrawn => 0
  }

  function Rank(jobs: seq<Job>): nat
  {
    if jobs == [] then 0 else Rank(jobs[..|jobs| - 1]) + JobRank(jobs[|jobs| - 1])
  }

  lemma {:induction false} RankUpdate(jobs: seq<Job>, i: nat, j: Job)
    requires i < |jobs|
    ensures Rank(jobs[i := j]) == Rank(jobs) - JobRank(jobs[i]) + JobRank(j)
    ensures Rank(jobs) >= JobRank(jobs[i])
  {
    hide JobRank;
    var n := |jobs| - 1;
    if i < n {
      RankUpdate(jobs[..n], i, j);
      assert jobs[i := j][..n] == jobs[..n][i := j];
    } else {
      assert jobs[i := j][..n] == jobs[..n];
    }
  }

  lemma RankAppend(jobs: seq<Job>, j: Job)
    ensures Rank(jobs + [j]) == Rank(jobs) + JobRank(j)
  {
    assert (jobs + [j])[..|jobs|] == jobs;
  }

  lemma RankOfTwo(jobs: seq<Job>, c: nat, child: Job, i: nat, j: Job)
    requires i < |jobs| && c < |jobs| && i != c
    ensures Rank(jobs[c := child][i := j])
            == Rank(jobs) - JobRank(jobs[c]) + JobRank(child) - JobRank(jobs[i]) + JobRank(j)
  {
    hide Rank, JobRank;
    RankUpdate(jobs, c, child);
    RankUpdate(jobs[c := child], i, j);
  }

  lemma WithdrawDecreases(s: State, i: nat)
    requires Inv(s) && i < |s.jobs| && s.jobs[i].stage.Submitting?
    ensures Rank(Resumed(Update(s, i, s.jobs[i].(stage := Withdrawn, answer := GaveUp)), i).jobs) < Rank(s.jobs)
  {
    InvFor(s, i);
    hide Rank, Inv;
    var j := s.jobs[i].(stage := Withdrawn, answer := GaveUp);
    match s.jobs[i].parent
    case None => RankUpdate(s.jobs, i, j);
    case Some(p) => RankOfTwo(s.jobs, i, j, p, s.jobs[p].(stage := Returning));
  }

  /** Every step of the pools uses up some of the rank. */
  lemma StepDecreases(cfg: Config, s: State, a: Action)
    requires Inv(s) && Internal(a) && Enabled(cfg, s, a)
    ensures Rank(Apply(cfg, s, a).jobs) < Rank(s.jobs)
  {
    hide Rank, Inv, ChannelOk, FamilyOk, BusyCount, Resumed;
    match a
    case Enqueue(i) => RankUpdate(s.jobs, i, s.jobs[i].(stage := Queued));
    case Withdraw(i) => WithdrawDecreases(s, i);
    case Take(p) => TakeDecreases(s, p);
    case Spawn(i) =>
      InvForFamily(s, i);
      RankAppend(s.jobs, Job(Cpu, false, Some(i), Submitting, false, Awaiting, [], 0));
      RankUpdate(s.jobs + [Job(Cpu, false, Some(i), Submitting, false, Awaiting, [], 0)], i,
                 s.jobs[i].(stage := AwaitingChild(|s.jobs|)));
    case Compute(i) => RankUpdate(s.jobs, i, s.jobs[i].(stage := Returning));
    case Send(i) =>
      RankUpdate(s.jobs, i, s.jobs[i].(stage := Done, channel := s.jobs[i].channel + [Outcome(i, s.jobs[i].ran)],
                                       sent := s.jobs[i].sent + 1));
    case Receive(i) =>
      RankUpdate(s.jobs, i, s.jobs[i].(answer := Got(s.jobs[i].channel[0]), channel := s.jobs[i].channel[1..]));
    case ReceiveChild(i) =>
      var c := s.jobs[i].stage.child;
      RankOfTwo(s.jobs, c, s.jobs[c].(answer := Got(s.jobs[c].channel[0]), channel := s.jobs[c].channel[1..]), i,
                s.jobs[i].(stage := Returning));
    case GiveUp(i) => RankUpdate(s.jobs, i, s.jobs[i].(answer := GaveUp));
    case GiveUpChild(i) =>
      var c := s.jobs[i].stage.child;
      RankOfTwo(s.jobs, c, s.jobs[c].(answer := GaveUp), i, s.jobs[i].(stage := Returning));
  }

  lemma InvForFamily(s: State, i: nat)
    requires Inv(s) && i < |s.jobs| && s.jobs[i].nested
    ensures s.jobs[i].pool.Io?
  {
    InvFor(s, i);
  }

  lemma TakeDecreases(s: State, p: Pool)
    requires Inv(s) && QueueOf(s, p) != [] && QueueOf(s, p)[0] < |s.jobs|
    ensures var i := QueueOf(s, p)[0];
            && Rank(s.jobs[i := s.jobs[i].(stage := Running, ran := true)]) < Rank(s.jobs)
            && Rank(s.jobs[i := s.jobs[i].(stage := Returning)]) < Rank(s.jobs)
  {
    var i := QueueOf(s, p)[0];
    assert s.jobs[i].stage.Queued?;
    hide Rank, Inv;
    RankUpdate(s.jobs, i, s.jobs[i].(stage := Running, ran := true));
    RankUpdate(s.jobs, i, s.jobs[i].(stage := Returning));
  }

  /** Every action of the run is a step of the pools that could be taken. */
  ghost predicate PoolRun(cfg: Config, s: State, actions: seq<Action>)
  {
    forall k :: 0 <= k < |actions| ==> Internal(actions[k]) && Enabled(cfg, Run(cfg, s, actions[..k]), actions[k])
  }

  /** Without new submissions the pools can take no more steps than the rank allows. */
  lemma {:induction false} StepsRunOut(cfg: Config, s: State, actions: seq<Action>)
    requires Inv(s) && PoolRun(cfg, s, actions)
    ensures Inv(Run(cfg, s, actions))
    ensures |actions| + Rank(Run(cfg, s, actions).jobs) <= Rank(s.jobs)
  {
    hide Inv, Apply, Enabled, Internal, Rank;
    if actions != [] {
      var n := |actions| - 1;
      assert forall k :: 0 <= k < n ==> actions[..n][..k] == actions[..k];
      StepsRunOut(cfg, s, actions[..n]);
      var t := Run(cfg, s, actions[..n]);
      StepKeeps(cfg, t, actions[n]);
      StepDecreases(cfg, t, actions[n]);
    }
  }

  // ---------------------------------------------------------------------------
  // Everyone is answered
  // ---------------------------------------------------------------------------

  /** The job has the answer of a CPU job it submitted. */
  predicate Served(jobs: seq<Job>, i: nat)
  {
    exists c :: 0 <= c < |jobs| && jobs[c].parent == Some(i) && jobs[c].answer.Got?
  }

  /** Only a job whose context was cancelled loses its submitter, is skipped by its
      worker, or goes on without its CPU job. */
  predicate Accounted(s: State, i: nat)
    requires i < |s.jobs|
  {
    var j := s.jobs[i];
    && (j.answer.GaveUp? ==> IsCancelled(s, i))
    && (j.stage.Running? || j.stage.AwaitingChild? ==> j.ran)
    && (j.stage.Returning? || j.stage.Done? ==> IsCancelled(s, i) || (j.ran && (j.nested ==> Served(s.jobs, i))))
  }

  predicate AllAccounted(s: State)
  {
    forall i :: 0 <= i < |s.jobs| ==> Accounted(s, i)
  }

  /** Jobs keep their place, their kind and an answer they have; cancellations stay. */
  predicate Later(s: State, u: State)
  {
    && |s.jobs| <= |u.jobs| && s.cancelled <= u.cancelled
    && (forall i :: 0 <= i < |s.jobs| ==>
          && u.jobs[i].parent == s.jobs[i].parent && u.jobs[i].nested == s.jobs[i].nested
          && (s.jobs[i].answer.Got? ==> u.jobs[i].answer.Got?))
  }

  lemma AnswerIsLater(cfg: Config, s: State, a: Action)
    requires Inv(s) && Enabled(cfg, s, a) && (a.Withdraw? || a.ReceiveChild? || a.GiveUpChild?)
    ensures Later(s, Apply(cfg, s, a))
  {
    InvFor(s, a.job);
    hide Inv, ChannelOk;
  }

  lemma StepIsLater(cfg: Config, s: State, a: Action)
    requires Inv(s) && Enabled(cfg, s, a)
    ensures Later(s, Apply(cfg, s, a))
  {
    hide Inv, BusyCount, Resumed;
    if a.Withdraw? || a.ReceiveChild? || a.GiveUpChild? {
      AnswerIsLater(cfg, s, a);
    }
  }

  lemma ServedStays(s: State, u: State, i: nat)
    requires Later(s, u) && Served(s.jobs, i)
    ensures Served(u.jobs, i)
  {
  }

  /** A job that stays in its stage, and is left only if cancelled. */
  lemma Unmoved(s: State, u: State, i: nat)
    requires Later(s, u) && i < |s.jobs| && Accounted(s, i)
    requires u.jobs[i].stage == s.jobs[i].stage && u.jobs[i].ran == s.jobs[i].ran
    requires u.jobs[i].answer.GaveUp? ==> s.jobs[i].answer.GaveUp? || IsCancelled(s, i)
    ensures Accounted(u, i)
  {
    hide Served;
    if Served(s.jobs, i) {
      ServedStays(s, u, i);
    }
  }

  /** The stage of job `i` changes in the step. */
  predicate Moves(s: State, u: State, i: nat)
  {
    i < |s.jobs| && i < |u.jobs| && !(u.jobs[i].stage == s.jobs[i].stage && u.jobs[i].ran == s.jobs[i].ran)
  }

  lemma MovedAlone(cfg: Config, s: State, a: Action, i: nat)
    requires Inv(s) && AllAccounted(s) && Enabled(cfg, s, a) && Moves(s, Apply(cfg, s, a), i)
    requires a.Enqueue? || a.Take? || a.Spawn? || a.Compute? || a.Send?
    ensures Accounted(Apply(cfg, s, a), i)
  {
    StepIsLater(cfg, s, a);
    assert Accounted(s, i);
    if Served(s.jobs, i) {
      ServedStays(s, Apply(cfg, s, a), i);
    }
    hide Inv, ChannelOk, FamilyOk, BusyCount, Served, AllAccounted, Resumed, Later;
  }

  lemma MovedByAnswer(cfg: Config, s: State, a: Action, i: nat)
    requires Inv(s) && AllAccounted(s) && Enabled(cfg, s, a) && Moves(s, Apply(cfg, s, a), i)
    requires a.Withdraw? || a.ReceiveChild? || a.GiveUpChild?
    ensures Accounted(Apply(cfg, s, a), i)
  {
    InvFor(s, a.job);
    StepIsLater(cfg, s, a);
    assert Accounted(s, i) && Accounted(s, a.job);
    var u := Apply(cfg, s, a);
    if a.ReceiveChild? {
      assert u.jobs[s.jobs[a.job].stage.child].answer.Got?;
    } else if a.Withdraw? && s.jobs[a.job].parent.Some? {
      InvFor(s, s.jobs[a.job].parent.value);
    }
    hide Inv, ChannelOk, BusyCount, AllAccounted;
  }

  lemma LeavesCancelled(cfg: Config, s: State, a: Action, i: nat)
    requires Inv(s) && Enabled(cfg, s, a) && i < |s.jobs| && i < |Apply(cfg, s, a).jobs|
    ensures Apply(cfg, s, a).jobs[i].answer.GaveUp? ==> s.jobs[i].answer.GaveUp? || IsCancelled(s, i)
  {
    if a.GiveUpChild? {
      InvFor(s, a.job);
    }
    hide Inv, ChannelOk, BusyCount, Later;
  }

  lemma NewJobAccounted(cfg: Config, s: State, a: Action, i: nat)
    requires Enabled(cfg, s, a) && |s.jobs| <= i < |Apply(cfg, s, a).jobs|
    ensures Accounted(Apply(cfg, s, a), i)
  {
    hide BusyCount, Served;
  }

  lemma StepAccounts(cfg: Config, s: State, a: Action)
    requires Inv(s) && AllAccounted(s)
    ensures AllAccounted(Apply(cfg, s, a))
  {
    hide Inv, Enabled, Accounted, Later;
    if Enabled(cfg, s, a) {
      var u := Apply(cfg, s, a);
      forall i | 0 <= i < |u.jobs|
        ensures Accounted(u, i)
      {
        JobAccounted(cfg, s, a, i);
      }
    }
  }

  lemma JobAccounted(cfg: Config, s: State, a: Action, i: nat)
    requires Inv(s) && AllAccounted(s) && Enabled(cfg, s, a) && i < |Apply(cfg, s, a).jobs|
    ensures Accounted(Apply(cfg, s, a), i)
  {
    hide Inv, BusyCount, Accounted, Later, Resumed;
    StepIsLater(cfg, s, a);
    var u := Apply(cfg, s, a);
    if i >= |s.jobs| {
      NewJobAccounted(cfg, s, a, i);
    } else if !Moves(s, u, i) {
      LeavesCancelled(cfg, s, a, i);
      Unmoved(s, u, i);
    } else if a.Withdraw? || a.ReceiveChild? || a.GiveUpChild? {
      MovedByAnswer(cfg, s, a, i);
    } else {
      MovedAlone(cfg, s, a, i);
    }
  }

  lemma {:induction false} RunAccounts(cfg: Config, s: State, actions: seq<Action>)
    requires Inv(s) && AllAccounted(s)
    ensures Inv(Run(cfg, s, actions)) && AllAccounted(Run(cfg, s, actions))
  {
    if actions != [] {
      hide Inv, AllAccounted, Apply;
      RunAccounts(cfg, s, actions[..|actions| - 1]);
      StepKeeps(cfg, Run(cfg, s, actions[..|actions| - 1]), actions[|actions| - 1]);
      StepAccounts(cfg, Run(cfg, s, actions[..|actions| - 1]), actions[|actions| - 1]);
    }
  }

  /** No step of the pools is possible. */
  ghost predicate AtRest(cfg: Config, s: State)
  {
    forall a :: Internal(a) ==> !Enabled(cfg, s, a)
  }

  /** The submitter has the result of its job, which a worker ran. */
  predicate Answered(j: Job, i: nat)
  {
    j.answer == Got(Outcome(i, true))
  }

  predicate Settled(s: State, i: nat)
    requires i < |s.jobs|
  {
    && !Unfinished(s.jobs[i])
    && (!IsCancelled(s, i) ==>
          && Answered(s.jobs[i], i)
          && (s.jobs[i].nested ==>
                exists c :: 0 <= c < |s.jobs| && s.jobs[c].parent == Some(i) && Answered(s.jobs[c], c)))
  }

  /** However the pools go on from a reachable state, once no step is left every job has
      finished, and every submitter whose context was not cancelled has the result of its
      own job, which was run; so has the job itself for the CPU job it submitted. */
  lemma EveryJobIsAnswered(cfg: Config, s: State, actions: seq<Action>, i: nat)
    requires Valid(cfg) && Reachable(cfg, s) && AtRest(cfg, Run(cfg, s, actions)) && i < |Run(cfg, s, actions).jobs|
    ensures Settled(Run(cfg, s, actions), i)
  {
    var before :| s == Run(cfg, IDLE, before);
    RunAccounts(cfg, IDLE, before);
    RunAccounts(cfg, s, actions);
    var t := Run(cfg, s, actions);
    hide Run, Inv, Enabled;
    if Unfinished(t.jobs[i]) {
      var a := UnfinishedMoves(cfg, t, i);
    } else if !IsCancelled(t, i) {
      UncancelledIsAnswered(t, i);
    }
  }

  lemma UncancelledIsAnswered(s: State, i: nat)
    requires Inv(s) && AllAccounted(s) && i < |s.jobs| && !Unfinished(s.jobs[i]) && !IsCancelled(s, i)
    ensures Settled(s, i)
  {
    InvFor(s, i);
    assert Accounted(s, i);
    if s.jobs[i].nested {
      var c :| 0 <= c < |s.jobs| && s.jobs[c].parent == Some(i) && s.jobs[c].answer.Got?;
      InvFor(s, c);
      assert Accounted(s, c) && Answered(s.jobs[c], c);
    }
    hide Inv, AllAccounted;
  }

  /** And the pools do come to rest: from every reachable state some run of steps gets
      there, within the rank. */
  lemma PoolsComeToRest(cfg: Config, s: State) returns (actions: seq<Action>)
    requires Valid(cfg) && Inv(s)
    ensures PoolRun(cfg, s, actions) && AtRest(cfg, Run(cfg, s, actions)) && |actions| <= Rank(s.jobs)
    decreases Rank(s.jobs)
  {
    hide Inv, Rank, Enabled, Apply;
    if AtRest(cfg, s) {
      actions := [];
    } else {
      var a :| Internal(a) && Enabled(cfg, s, a);
      StepKeeps(cfg, s, a);
      StepDecreases(cfg, s, a);
      var rest := PoolsComeToRest(cfg, Apply(cfg, s, a));
      actions := [a] + rest;
      RunAfter(cfg, s, a, rest);
      forall k | 0 <= k < |actions|
        ensures Internal(actions[k]) && Enabled(cfg, Run(cfg, s, actions[..k]), actions[k])
      {
        if k > 0 {
          assert actions[..k] == [a] + rest[..k - 1] && actions[k] == rest[k - 1];
          RunAfter(cfg, s, a, rest[..k - 1]);
        }
      }
    }
  }

  lemma {:induction false} RunAfter(cfg: Config, s: State, a: Action, rest: seq<Action>)
    ensures Run(cfg, s, [a] + rest) == Run(cfg, Apply(cfg, s, a), rest)
  {
    hide Apply;
    if rest == [] {
      assert [a] + rest == [a] && [a][..0] == [];
    } else {
      var n := |rest| - 1;
      RunAfter(cfg, s, a, rest[..n]);
      assert ([a] + rest)[..n + 1] == [a] + rest[..n];
    }
  }

  // ---------------------------------------------------------------------------
  // Results
  // ---------------------------------------------------------------------------

  /** In every reachable state a job has sent exactly one result if it is done and none
      before, only its own result is in its channel or with its submitter, and a job
      about to send finds room, even if its submitter left long ago. */
  lemma OneResultToOwnChannel(cfg: Config, s: State, i: nat)
    requires Reachable(cfg, s) && i < |s.jobs|
    ensures s.jobs[i].sent == if s.jobs[i].stage.Done? then 1 else 0
    ensures forall k :: 0 <= k < |s.jobs[i].channel| ==> s.jobs[i].channel[k] == Outcome(i, s.jobs[i].ran)
    ensures s.jobs[i].answer.Got? ==> s.jobs[i].answer.outcome == Outcome(i, s.jobs[i].ran)
    ensures s.jobs[i].stage.Returning? ==> Enabled(cfg, s, Send(i))
  {
    var actions :| s == Run(cfg, IDLE, actions);
    RunKeeps(cfg, actions);
    InvFor(s, i);
  }

  /** A worker calls the function of the job it takes exactly if the job's context is not
      cancelled at that moment; otherwise it answers at once. */
  lemma TakenRunsExactly(cfg: Config, s: State, p: Pool)
    requires Reachable(cfg, s) && Enabled(cfg, s, Take(p))
    ensures var i, u := QueueOf(s, p)[0], Apply(cfg, s, Take(p));
            && (u.jobs[i].ran <==> !IsCancelled(s, i))
            && u.jobs[i].stage == if IsCancelled(s, i) then Returning else Running
  {
    var actions :| s == Run(cfg, IDLE, actions);
    RunKeeps(cfg, actions);
    InvFor(s, QueueOf(s, p)[0]);
    hide Run, BusyCount;
  }

  // ---------------------------------------------------------------------------
  // Order
  // ---------------------------------------------------------------------------

  /** Job `i` stands before job `j` in the queue, or has left it. */
  predicate Ahead(queue: seq<nat>, i: nat, j: nat)
  {
    j in queue ==> i !in queue || exists k, l :: 0 <= k < l < |queue| && queue[k] == i && queue[l] == j
  }

  predicate NoRepeats(queue: seq<nat>)
  {
    forall k, l :: 0 <= k < l < |queue| ==> queue[k] != queue[l]
  }

  lemma AheadOfNew(queue: seq<nat>, i: nat, j: nat, late: nat)
    requires Ahead(queue, i, j) && NoRepeats(queue) && late != i && late !in queue
    ensures Ahead(queue + [late], i, j)
  {
    var after := queue + [late];
    if j in after && i in after {
      var k :| 0 <= k < |queue| && queue[k] == i;
      if j in queue {
        var k', l :| 0 <= k' < l < |queue| && queue[k'] == i && queue[l] == j;
        assert after[k'] == i && after[l] == j;
      } else {
        assert after[k] == i && after[|queue|] == j;
      }
    }
  }

  lemma AheadOfRest(queue: seq<nat>, i: nat, j: nat)
    requires Ahead(queue, i, j) && NoRepeats(queue) && queue != []
    ensures Ahead(queue[1..], i, j)
    ensures queue[0] == j ==> i == j || i !in queue
  {
    var rest := queue[1..];
    if j in rest && i in rest {
      var k, l :| 0 <= k < l < |queue| && queue[k] == i && queue[l] == j;
      assert k > 0 by {
        var m :| 0 <= m < |rest| && rest[m] == i;
        assert queue[m + 1] == i;
      }
      assert rest[k - 1] == i && rest[l - 1] == j;
    }
  }

  /** The job has been put in its queue. */
  predicate Arrived(s: State, i: nat)
  {
    i < |s.jobs| && !s.jobs[i].stage.Submitting?
  }

  lemma ArrivedStays(cfg: Config, s: State, a: Action, i: nat)
    requires Inv(s) && Arrived(s, i)
    ensures Arrived(Apply(cfg, s, a), i)
  {
    hide Inv, BusyCount;
  }

  lemma OrderStep(cfg: Config, s: State, a: Action, p: Pool, i: nat, j: nat)
    requires Inv(s) && Arrived(s, i) && Ahead(QueueOf(s, p), i, j)
    ensures Ahead(QueueOf(Apply(cfg, s, a), p), i, j)
  {
    var queue := QueueOf(s, p);
    assert NoRepeats(queue);
    if Enabled(cfg, s, a) && a.Enqueue? && s.jobs[a.job].pool == p {
      assert a.job !in queue;
      hide Inv, Ahead;
      AheadOfNew(queue, i, j, a.job);
    } else if Enabled(cfg, s, a) && a == Take(p) {
      hide Inv, Ahead;
      AheadOfRest(queue, i, j);
    } else {
      OtherQueues(cfg, s, a, p);
    }
  }

  lemma OtherQueues(cfg: Config, s: State, a: Action, p: Pool)
    requires !(Enabled(cfg, s, a) && a.Enqueue? && s.jobs[a.job].pool == p) && !(Enabled(cfg, s, a) && a == Take(p))
    ensures QueueOf(Apply(cfg, s, a), p) == QueueOf(s, p)
  {
    hide BusyCount;
  }

  lemma {:induction false} OrderStays(cfg: Config, s: State, actions: seq<Action>, p: Pool, i: nat, j: nat)
    requires Inv(s) && Arrived(s, i) && Ahead(QueueOf(s, p), i, j)
    ensures var t := Run(cfg, s, actions); Inv(t) && Arrived(t, i) && Ahead(QueueOf(t, p), i, j)
  {
    if actions != [] {
      hide Inv, Ahead, Apply, QueueOf;
      var n := |actions| - 1;
      OrderStays(cfg, s, actions[..n], p, i, j);
      var t := Run(cfg, s, actions[..n]);
      StepKeeps(cfg, t, actions[n]);
      ArrivedStays(cfg, t, actions[n], i);
      OrderStep(cfg, t, actions[n], p, i, j);
    }
  }

  /** First come, first served: a job that was queued while another still waited for room
      has been taken by the time a worker turns to that other one. */
  lemma FirstComeFirstServed(cfg: Config, s: State, actions: seq<Action>, p: Pool, i: nat, j: nat)
    requires Reachable(cfg, s) && Arrived(s, i) && s.jobs[i].pool == p
    requires j < |s.jobs| && s.jobs[j].stage.Submitting?
    requires Enabled(cfg, Run(cfg, s, actions), Take(p)) && QueueOf(Run(cfg, s, actions), p)[0] == j
    ensures var t := Run(cfg, s, actions); i < |t.jobs| && !t.jobs[i].stage.Submitting? && i !in QueueOf(t, p)
  {
    var before :| s == Run(cfg, IDLE, before);
    RunKeeps(cfg, before);
    assert j !in QueueOf(s, p);
    hide Run, Enabled, Inv;
    OrderStays(cfg, s, actions, p, i, j);
    var t := Run(cfg, s, actions);
    assert NoRepeats(QueueOf(t, p)) by {
      QueueHasNoRepeats(t, p);
    }
    AheadOfRest(QueueOf(t, p), i, j);
  }

  lemma QueueHasNoRepeats(s: State, p: Pool)
    requires Inv(s)
    ensures NoRepeats(QueueOf(s, p))
  {
  }
}
