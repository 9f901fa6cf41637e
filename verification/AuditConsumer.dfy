/** The consumer's message loop, the dead-letter replay tool and the producer, as
    the programs that drive the audit stream. */
module AuditConsumer {
  import opened Clock
  import opened Wrappers
  import Text
  import opened AuditCodec
  import opened AuditStream

  lemma RunExtend(cfg: Config, s: State, log: seq<Action>, a: Action)
    ensures Run(cfg, s, log + [a]) == Apply(cfg, Run(cfg, s, log), a)
  {
    assert (log + [a])[..|log|] == log;
  }

  lemma {:induction false} RunConserves(cfg: Config, s: State, log: seq<Action>)
    requires Conserved(cfg, s)
    ensures Conserved(cfg, Run(cfg, s, log))
  {
    hide Conserved;
    if log != [] {
      RunConserves(cfg, s, log[..|log| - 1]);
      StepConserves(cfg, Run(cfg, s, log[..|log| - 1]), log[|log| - 1]);
    }
  }

  function Solo(w: nat, wk: Worker): map<nat, Worker>
  {
    map[w := wk]
  }

  lemma SoloStep(cfg: Config, w: nat, store: Store, wk: Worker, a: Action)
    requires a.Work? && a.w == w && !wk.stage.Idle? && wk.batch != [] && wk.batch[0] < |store.stream|
    ensures var (store', wk') := Perform(cfg, store, wk, a);
            Apply(cfg, State(store, Solo(w, wk)), a) == State(store', Solo(w, wk'))
  {
    hide Perform;
    var (_, wk') := Perform(cfg, store, wk, a);
    assert Solo(w, wk)[w := wk'] == Solo(w, wk');
  }

  /** One consumer goroutine with the stores to itself. The ghost fields record
      the commands it issued, as a run of the protocol. */
  class Consumer {
    const cfg: Config
    const me: nat
    var store: Store
    ghost var start: State
    ghost var log: seq<Action>
    ghost var worker: Worker

    ghost predicate Valid()
      reads this
    {
      Run(cfg, start, log) == State(store, Solo(me, worker))
    }

    constructor (cfg: Config, me: nat, store: Store, ghost batch: seq<nat>)
      ensures Valid() && this.cfg == cfg && this.me == me && this.store == store
      ensures worker == Begin(cfg, store, batch) && log == [] && start == State(store, Solo(me, worker))
    {
      this.cfg, this.me, this.store := cfg, me, store;
      worker := Begin(cfg, store, batch);
      start := State(store, Solo(me, Begin(cfg, store, batch)));
      log := [];
    }

    /** Records the command just carried out on `store`. */
    ghost method Record(before: Store, reply: Reply, failedAt: string, error: string)
      requires Run(cfg, start, log) == State(before, Solo(me, worker))
      requires !worker.stage.Idle? && worker.batch != [] && worker.batch[0] < |before.stream|
      requires store == Perform(cfg, before, worker, Work(me, reply, failedAt, error)).0
      modifies this`log, this`worker
      ensures Valid()
      ensures worker == Perform(cfg, before, old(worker), Work(me, reply, failedAt, error)).1
      ensures log == old(log) + [Work(me, reply, failedAt, error)]
    {
      hide Perform, Apply, Run, Solo;
      var a := Work(me, reply, failedAt, error);
      RunExtend(cfg, start, log, a);
      SoloStep(cfg, me, before, worker, a);
      worker := Perform(cfg, before, worker, a).1;
      log := log + [a];
    }

    method Create(event: Event, reply: Reply)
      requires Valid() && worker.batch != [] && worker.batch[0] < |store.stream| && worker.stage == Write(event)
      modifies this`store, this`log, this`worker
      ensures Valid() && store.stream == old(store.stream) && old(log) <= log
      ensures worker == old(worker).(stage := if reply.Done? then ClearRetry(event) else Increment(event))
    {
      hide Begin;
      ghost var before := store;
      if Effective(reply) {
        store := Created(cfg, store, event);
      }
      SameStream(cfg, before, store, worker.batch[1..]);
      Record(before, reply, "", "");
    }

    /** Acknowledges the message at hand. */
    method XAck(id: nat, reply: Reply)
      requires Valid() && worker.batch != [] && worker.batch[0] == id < |store.stream|
      requires worker.stage.Ack? || worker.stage.AckBuried?
      modifies this`store, this`log, this`worker
      ensures Valid() && store.stream == old(store.stream) && old(log) <= log
      ensures worker == if old(worker).stage.AckBuried? && old(worker).stage.letter.Some? && reply.Done?
                        then old(worker).(stage := ClearBuried(old(worker).stage.letter.value))
                        else Begin(cfg, store, old(worker).batch[1..])
    {
      hide Begin;
      ghost var before := store;
      if Effective(reply) {
        store := Acked(store, id);
      }
      SameStream(cfg, before, store, worker.batch[1..]);
      Record(before, reply, "", "");
    }

    method ClearRetryCounter(eventId: string, reply: Reply)
      requires Valid() && worker.batch != [] && worker.batch[0] < |store.stream|
      requires (worker.stage.ClearRetry? || worker.stage.ClearBuried?) && worker.stage.event.eventId == eventId
      modifies this`store, this`log, this`worker
      ensures Valid() && store.stream == old(store.stream) && old(log) <= log
      ensures worker == if old(worker).stage.ClearRetry? then old(worker).(stage := Ack(old(worker).stage.event))
                        else Begin(cfg, store, old(worker).batch[1..])
    {
      hide Begin;
      ghost var before := store;
      if Effective(reply) {
        store := Cleared(store, eventId);
      }
      SameStream(cfg, before, store, worker.batch[1..]);
      Record(before, reply, "", "");
    }

    /** Counts a failed attempt; a counter that cannot be read counts as the last. */
    method IncrementRetry(eventId: string, reply: Reply) returns (count: int)
      requires Valid() && worker.batch != [] && worker.batch[0] < |store.stream|
      requires worker.stage.Increment? && worker.stage.event.eventId == eventId
      modifies this`store, this`log, this`worker
      ensures Valid() && store.stream == old(store.stream) && old(log) <= log
      ensures count == if reply.Done? then Retries(old(store), eventId) + 1 else cfg.maxRetries
      ensures worker == if count < cfg.maxRetries then Begin(cfg, store, old(worker).batch[1..])
                        else old(worker).(stage := Bury(Some(old(worker).stage.event)))
    {
      hide Begin;
      ghost var before := store;
      count := cfg.maxRetries;
      if Effective(reply) {
        store := Incremented(store, eventId);
      }
      if reply.Done? {
        count := Retries(store, eventId);
      }
      SameStream(cfg, before, store, worker.batch[1..]);
      Record(before, reply, "", "");
    }

    method MoveToDLQ(id: nat, letter: Option<Event>, failedAt: string, error: string,
                     addReply: Reply, ackReply: Reply, clearReply: Reply)
      requires Valid() && worker.batch != [] && worker.batch[0] == id < |store.stream|
      requires worker.stage == Bury(letter)
      modifies this`store, this`log, this`worker
      ensures Valid() && store.stream == old(store.stream) && old(log) <= log
      ensures worker == Begin(cfg, store, old(worker).batch[1..])
    {
      hide Begin, DeadLetter;
      ghost var rest := worker.batch[1..];
      ghost var before := store;
      if Effective(addReply) {
        store := Buried(store, id, letter, failedAt, error);
      }
      SameStream(cfg, before, store, rest);
      Record(before, addReply, failedAt, error);
      if !addReply.Done? {
        return;
      }
      SameStream(cfg, before, store, rest);
      before := store;
      XAck(id, ackReply);
      SameStream(cfg, before, store, rest);
      if ackReply.Done? && letter.Some? {
        before := store;
        ClearRetryCounter(letter.value.eventId, clearReply);
        SameStream(cfg, before, store, rest);
      }
    }

    /** The loop over one batch issues exactly the commands of a protocol run and
        leaves the worker idle, so everything proved of runs holds of it. */
    method ProcessMessages(messages: seq<nat>, replies: (nat, nat) -> Reply, failedAt: string, error: string)
      requires Valid() && worker == Begin(cfg, store, messages)
      requires forall i :: 0 <= i < |messages| ==> messages[i] < |store.stream|
      modifies this`store, this`log, this`worker
      ensures Valid() && worker == Worker([], Idle)
      ensures old(log) <= log
      ensures Conserved(cfg, start) ==> StoreOk(cfg, store)
    {
      hide Run, Carried, Perform;
      var i: nat := 0;
      while i < |messages|
        invariant 0 <= i <= |messages| && Valid() && old(log) <= log
        invariant store.stream == old(store.stream)
        invariant worker == Begin(cfg, store, messages[i..])
      {
        var id := messages[i];
        assert messages[i..][0] == id && messages[i..][1..] == messages[i + 1..];
        ProcessMessage(id, (k: nat) => replies(i, k), failedAt, error);
        i := i + 1;
      }
      if Conserved(cfg, start) {
        RunConserves(cfg, start, log);
      }
    }

    method ProcessMessage(id: nat, replies: nat -> Reply, failedAt: string, error: string)
      requires Valid() && id < |store.stream|
      requires |worker.batch| > 0 && worker.batch[0] == id && worker == Begin(cfg, store, worker.batch)
      modifies this`store, this`log, this`worker
      ensures Valid() && store.stream == old(store.stream) && old(log) <= log
      ensures worker == Begin(cfg, store, old(worker).batch[1..])
    {
      ghost var first, rest := store, worker.batch[1..];
      var decoded := Decode(cfg.times, store.stream[id]);
      hide Decode, Run, Perform;
      if decoded.Err? {
        MoveToDLQ(id, None, failedAt, error, replies(0), replies(1), replies(2));
        SameStream(cfg, first, store, rest);
        return;
      }
      var event := decoded.value;
      Create(event, replies(0));
      if !replies(0).Done? {
        var count := IncrementRetry(event.eventId, replies(1));
        if count >= cfg.maxRetries {
          MoveToDLQ(id, Some(event), failedAt, error, replies(2), replies(3), replies(4));
        }
        SameStream(cfg, first, store, rest);
        return;
      }
      ClearRetryCounter(event.eventId, replies(1));
      XAck(id, replies(2));
      SameStream(cfg, first, store, rest);
    }
  }

  /** Which message comes next depends on the stream alone. */
  lemma SameStream(cfg: Config, a: Store, b: Store, batch: seq<nat>)
    requires a.stream == b.stream
    ensures Begin(cfg, a, batch) == Begin(cfg, b, batch)
  {
  }

  // ---------------------------------------------------------------------------
  // Replay of dead letters
  // ---------------------------------------------------------------------------

  /** What the replay tool appends for a batch of dead letters. */
  function ReplayedAll(letters: seq<Fields>, accepted: seq<bool>): seq<Fields>
    requires |letters| == |accepted|
  {
    if letters == [] then []
    else
      var n := |letters| - 1;
      var front := ReplayedAll(letters[..n], accepted[..n]);
      var last := Replayed(letters[n]);
      if last.Some? && accepted[n] then front + [last.value] else front
  }

  lemma ReplayedNone()
    ensures ReplayedAll([], []) == []
  {
  }

  lemma ReplayedMore(letters: seq<Fields>, accepted: seq<bool>, i: nat)
    requires |letters| == |accepted| && i < |letters|
    ensures ReplayedAll(letters[..i + 1], accepted[..i + 1])
            == var front := ReplayedAll(letters[..i], accepted[..i]);
               if Replayed(letters[i]).Some? && accepted[i] then front + [Replayed(letters[i]).value] else front
  {
    hide Replayed;
    assert letters[..i + 1][..i] == letters[..i] && accepted[..i + 1][..i] == accepted[..i];
  }

  /** The replay loop: every readable letter the stream accepts is appended once,
      in order, and counted. `accepted` says which appends succeed. */
  method ReplayDeadLetters(stream: seq<Fields>, letters: seq<Fields>, accepted: seq<bool>)
    returns (after: seq<Fields>, replayed: nat)
    requires |letters| == |accepted|
    ensures after == stream + ReplayedAll(letters, accepted)
    ensures replayed == |ReplayedAll(letters, accepted)|
  {
    hide Replayed, ReplayedAll;
    after, replayed := stream, 0;
    ReplayedNone();
    for i := 0 to |letters|
      invariant after == stream + ReplayedAll(letters[..i], accepted[..i])
      invariant replayed == |ReplayedAll(letters[..i], accepted[..i])|
    {
      ReplayedMore(letters, accepted, i);
      var values := Replayed(letters[i]);
      if values.None? {
        continue;
      }
      if !accepted[i] {
        continue;
      }
      after := after + [values.value];
      replayed := replayed + 1;
    }
    assert letters[..|letters|] == letters && accepted[..|letters|] == accepted;
  }

  // ---------------------------------------------------------------------------
  // Producer
  // ---------------------------------------------------------------------------

  /** `ttlSeconds`: a day when unset. A positive time below one second becomes 0,
      which Redis refuses as an expiry. */
  function DedupSeconds(ttl: Duration): int
  {
    if ttl <= 0 then 86_400 else ttl / 1_000_000_000
  }

  datatype Entry = Entry(eventId: string, at: Instant, fields: Fields)

  /** The stream and, for each event id, when its dedup key expires. */
  datatype Log = Log(entries: seq<Entry>, dedup: map<string, Instant>)

  datatype Publication = Publication(event: Event, at: Instant)

  /** The enqueue script: SET NX EX, then XADD. */
  function Publish(tt: TimeText, log: Log, p: Publication, ttl: Duration): Result<Log, string>
  {
    var id, seconds := p.event.eventId, DedupSeconds(ttl);
    if seconds == 0 then Err("invalid expire time in 'set' command")
    else if id in log.dedup && p.at < log.dedup[id] then Ok(log)
    else Ok(Log(log.entries + [Entry(id, p.at, Enqueued(tt, p.event, p.at))], log.dedup[id := p.at + Seconds(seconds)]))
  }

  function PublishAll(tt: TimeText, ps: seq<Publication>, ttl: Duration): Log
  {
    if ps == [] then Log([], map[])
    else
      var before := PublishAll(tt, ps[..|ps| - 1], ttl);
      match Publish(tt, before, ps[|ps| - 1], ttl)
      case Ok(after) => after
      case Err(_) => before
  }

  predicate InOrder(ps: seq<Publication>)
  {
    forall i, j :: 0 <= i <= j < |ps| ==> ps[i].at <= ps[j].at
  }

  /** Entries of one event are a dedup window apart, and the key of every entry
      lives until its window is over. */
  predicate Deduplicated(log: Log, window: Duration)
  {
    && (forall i :: 0 <= i < |log.entries| ==>
          log.entries[i].eventId in log.dedup && log.entries[i].at + window <= log.dedup[log.entries[i].eventId])
    && (forall i, j :: 0 <= i < j < |log.entries| && log.entries[i].eventId == log.entries[j].eventId
                       ==> log.entries[i].at + window <= log.entries[j].at)
  }

  /** An event published any number of times is appended at most once per window;
      a window below one second appends nothing at all. */
  lemma {:induction false} OneEntryPerWindow(tt: TimeText, ps: seq<Publication>, ttl: Duration)
    requires InOrder(ps)
    ensures Deduplicated(PublishAll(tt, ps, ttl), Seconds(DedupSeconds(ttl)))
    ensures 0 < ttl < SECOND ==> PublishAll(tt, ps, ttl).entries == []
    ensures forall i :: 0 <= i < |PublishAll(tt, ps, ttl).entries| ==>
              ps != [] && PublishAll(tt, ps, ttl).entries[i].at <= ps[|ps| - 1].at
  {
    hide Enqueued;
    if ps != [] {
      OneEntryPerWindow(tt, ps[..|ps| - 1], ttl);
    }
  }

  /** Some entry of the event is at most a window old. */
  predicate Covered(entries: seq<Entry>, id: string, at: Instant, window: Duration)
  {
    exists i :: 0 <= i < |entries| && entries[i].eventId == id && entries[i].at <= at < entries[i].at + window
  }

  /** Every dedup key stems from an entry. */
  predicate KeysStem(log: Log, window: Duration)
  {
    forall id :: id in log.dedup ==>
      exists i :: 0 <= i < |log.entries| && log.entries[i].eventId == id && log.entries[i].at + window == log.dedup[id]
  }

  lemma StemsGrow(log: Log, e: Entry, window: Duration)
    requires KeysStem(log, window)
    ensures KeysStem(Log(log.entries + [e], log.dedup[e.eventId := e.at + window]), window)
  {
    var after := Log(log.entries + [e], log.dedup[e.eventId := e.at + window]);
    forall id | id in after.dedup
      ensures exists i :: 0 <= i < |after.entries| && after.entries[i].eventId == id
                          && after.entries[i].at + window == after.dedup[id]
    {
      if id == e.eventId {
        assert after.entries[|log.entries|] == e;
      } else {
        var i :| 0 <= i < |log.entries| && log.entries[i].eventId == id && log.entries[i].at + window == log.dedup[id];
        assert after.entries[i] == log.entries[i];
      }
    }
  }

  lemma {:induction false} AllStem(tt: TimeText, ps: seq<Publication>, ttl: Duration)
    ensures KeysStem(PublishAll(tt, ps, ttl), Seconds(DedupSeconds(ttl)))
  {
    hide Enqueued, KeysStem;
    if ps == [] {
      NothingStems(Seconds(DedupSeconds(ttl)));
    } else {
      var n := |ps| - 1;
      AllStem(tt, ps[..n], ttl);
      var p := ps[n];
      StemsGrow(PublishAll(tt, ps[..n], ttl), Entry(p.event.eventId, p.at, Enqueued(tt, p.event, p.at)),
                Seconds(DedupSeconds(ttl)));
    }
  }

  lemma NothingStems(window: Duration)
    ensures KeysStem(Log([], map[]), window)
  {
  }

  /** Publishing fails exactly for a window below a second; otherwise the event is
      appended exactly when no entry of it is at most a window old. */
  lemma AppendedExactly(tt: TimeText, ps: seq<Publication>, p: Publication, ttl: Duration)
    requires InOrder(ps + [p])
    ensures var log, window := PublishAll(tt, ps, ttl), Seconds(DedupSeconds(ttl));
            var r := Publish(tt, log, p, ttl);
            && (r.Ok? <==> !(0 < ttl < SECOND))
            && (if ttl <= 0 then window == 24 * 3600 * SECOND else window <= ttl < window + SECOND)
            && (r.Ok? ==>
                  r.value.entries == if Covered(log.entries, p.event.eventId, p.at, window) then log.entries
                                     else log.entries + [Entry(p.event.eventId, p.at, Enqueued(tt, p.event, p.at))])
  {
    hide Enqueued, InOrder, PublishAll;
    assert InOrder(ps) && forall i :: 0 <= i < |ps| ==> ps[i].at <= p.at by {
      OrderedPrefix(ps, p);
    }
    OneEntryPerWindow(tt, ps, ttl);
    AllStem(tt, ps, ttl);
  }

  lemma OrderedPrefix(ps: seq<Publication>, p: Publication)
    requires InOrder(ps + [p])
    ensures InOrder(ps) && forall i :: 0 <= i < |ps| ==> ps[i].at <= p.at
  {
    var all := ps + [p];
    assert all[|ps|] == p && forall i :: 0 <= i < |ps| ==> all[i] == ps[i];
  }

  /** Entries are never removed. */
  lemma {:induction false} EntriesStay(tt: TimeText, ps: seq<Publication>, ttl: Duration, k: nat)
    requires k <= |ps|
    ensures PublishAll(tt, ps[..k], ttl).entries <= PublishAll(tt, ps, ttl).entries
  {
    hide Enqueued;
    if k == |ps| {
      assert ps[..k] == ps;
    } else {
      var n := |ps| - 1;
      assert ps[..k] == ps[..n][..k];
      EntriesStay(tt, ps[..n], ttl, k);
    }
  }

  /** Every published event is in the stream, in an entry of that event at most one
      window older than the publication, unless the window is below a second. */
  lemma EveryPublicationHasEntry(tt: TimeText, ps: seq<Publication>, ttl: Duration, k: nat)
    requires InOrder(ps) && !(0 < ttl < SECOND) && k < |ps|
    ensures Covered(PublishAll(tt, ps, ttl).entries, ps[k].event.eventId, ps[k].at, Seconds(DedupSeconds(ttl)))
  {
    hide Enqueued, Covered, PublishAll;
    var p, window := ps[k], Seconds(DedupSeconds(ttl));
    var log := PublishAll(tt, ps[..k], ttl);
    assert ps[..k] + [p] == ps[..k + 1];
    assert InOrder(ps[..k + 1]);
    AppendedExactly(tt, ps[..k], p, ttl);
    var after := PublishAll(tt, ps[..k + 1], ttl);
    assert after == Publish(tt, log, p, ttl).value by {
      PublishLast(tt, ps[..k], p, ttl);
    }
    if !Covered(log.entries, p.event.eventId, p.at, window) {
      CoversItself(log.entries, Entry(p.event.eventId, p.at, Enqueued(tt, p.event, p.at)), window);
    }
    EntriesStay(tt, ps, ttl, k + 1);
    CoveredStays(after.entries, PublishAll(tt, ps, ttl).entries, p.event.eventId, p.at, window);
  }

  lemma PublishLast(tt: TimeText, ps: seq<Publication>, p: Publication, ttl: Duration)
    requires Publish(tt, PublishAll(tt, ps, ttl), p, ttl).Ok?
    ensures PublishAll(tt, ps + [p], ttl) == Publish(tt, PublishAll(tt, ps, ttl), p, ttl).value
  {
    hide Publish;
    assert (ps + [p])[..|ps|] == ps;
  }

  lemma CoversItself(entries: seq<Entry>, e: Entry, window: Duration)
    requires window > 0
    ensures Covered(entries + [e], e.eventId, e.at, window)
  {
    assert (entries + [e])[|entries|] == e;
  }

  lemma CoveredStays(entries: seq<Entry>, longer: seq<Entry>, id: string, at: Instant, window: Duration)
    requires Covered(entries, id, at, window) && entries <= longer
    ensures Covered(longer, id, at, window)
  {
    var i :| 0 <= i < |entries| && entries[i].eventId == id && entries[i].at <= at < entries[i].at + window;
    assert longer[i] == entries[i];
  }

  // ---------------------------------------------------------------------------
  // Padded ids
  // ---------------------------------------------------------------------------

  /** The dedup key holds the id as it came, the stream its trimmed form. */
  lemma {:induction false} StreamIdIsTrimmed(tt: TimeText, ps: seq<Publication>, ttl: Duration, i: nat)
    requires i < |PublishAll(tt, ps, ttl).entries|
    ensures var e := PublishAll(tt, ps, ttl).entries[i]; Get(e.fields, EventId) == Text.Trim(e.eventId)
    ensures exists k :: 0 <= k < |ps| && ps[k].event.eventId == PublishAll(tt, ps, ttl).entries[i].eventId
  {
    hide Text.Trim;
    if ps != [] {
      var n := |ps| - 1;
      var before := PublishAll(tt, ps[..n], ttl);
      if i < |before.entries| {
        StreamIdIsTrimmed(tt, ps[..n], ttl, i);
        var k :| 0 <= k < n && ps[..n][k].event.eventId == before.entries[i].eventId;
        assert ps[k].event.eventId == before.entries[i].eventId;
      } else {
        assert ps[n].event.eventId == PublishAll(tt, ps, ttl).entries[i].eventId;
      }
    }
  }

  /** No two publications have ids that differ only in the spaces around them. */
  predicate Unpadded(ps: seq<Publication>)
  {
    forall i, j :: 0 <= i < |ps| && 0 <= j < |ps|
                   && Text.Trim(ps[i].event.eventId) == Text.Trim(ps[j].event.eventId)
                   ==> ps[i].event.eventId == ps[j].event.eventId
  }

  /** Then entries with one event id in the stream lie a dedup window apart. */
  lemma OneStreamEntryPerWindow(tt: TimeText, ps: seq<Publication>, ttl: Duration, i: nat, j: nat)
    requires InOrder(ps) && Unpadded(ps) && i < j < |PublishAll(tt, ps, ttl).entries|
    requires var entries := PublishAll(tt, ps, ttl).entries;
             Get(entries[i].fields, EventId) == Get(entries[j].fields, EventId)
    ensures PublishAll(tt, ps, ttl).entries[i].at + Seconds(DedupSeconds(ttl)) <= PublishAll(tt, ps, ttl).entries[j].at
  {
    hide Text.Trim, PublishAll;
    OneEntryPerWindow(tt, ps, ttl);
    StreamIdIsTrimmed(tt, ps, ttl, i);
    StreamIdIsTrimmed(tt, ps, ttl, j);
  }

  /** And any two ids that differ only in that way are both appended, at whatever times. */
  lemma PaddedIdsAreBothAppended(tt: TimeText, p: Publication, q: Publication, ttl: Duration)
    requires Text.Trim(p.event.eventId) == Text.Trim(q.event.eventId) && p.event.eventId != q.event.eventId
    requires !(0 < ttl < SECOND)
    ensures var entries := PublishAll(tt, [p, q], ttl).entries;
            && |entries| == 2 && entries[0].at == p.at && entries[1].at == q.at
            && Get(entries[0].fields, EventId) == Get(entries[1].fields, EventId)
  {
    hide Text.Trim;
    assert [p, q][..1] == [p] && [p][..0] == [];
    assert PublishAll(tt, [], ttl) == Log([], map[]);
    assert PublishAll(tt, [p], ttl) == Publish(tt, Log([], map[]), p, ttl).value;
    assert PublishAll(tt, [p, q], ttl) == Publish(tt, PublishAll(tt, [p], ttl), q, ttl).value;
  }
}
