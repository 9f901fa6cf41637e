/** The audit stream: producers append, a consumer group reads, persists,
    retries, dead-letters and acknowledges. Every Redis or database command is one
    step; workers interleave, die and are replaced between any two of them, and a
    command can fail before or after it took effect. */
module AuditStream {
  import opened Wrappers
  import opened Text
  import opened Decimal
  import opened AuditCodec

  /** How a command ended: carried out, refused, or carried out with the reply
      lost, which the consumer sees as a failure. */
  datatype Reply = Done | Failed | Lost

  predicate Effective(r: Reply)
  {
    !r.Failed?
  }

  /** A row of the audit table: what the statement writes of an event. The column for the
      event's time is not among them; the database fills it with its own clock. */
  datatype Row = Row(eventId: string, eventType: string, clientId: Option<int>, userId: Option<int>, subject: string,
                     sessionId: Option<int>, ipAddress: string, userAgent: string, metadataJson: Option<string>)

  function Written(e: Event): Row
  {
    Row(Trim(e.eventId), Trim(e.eventType), PositiveOnly(e.clientId), PositiveOnly(e.userId), Trim(e.subject),
        PositiveOnly(e.sessionId), Trim(e.ipAddress), Trim(e.userAgent),
        if Trim(e.metadataJson) == "" then None else Some(e.metadataJson))
  }

  datatype Letter = Letter(source: nat, fields: Fields)

  /** The stores. A message is known by its position in the stream; the group has
      delivered those before `cursor`, and `pending` are delivered but not
      acknowledged. The table is indexed by event id as its column compares them. */
  datatype Store = Store(stream: seq<Fields>, cursor: nat, pending: set<nat>, dlq: seq<Letter>,
                         table: map<string, Row>, retries: map<string, int>)

  /** What a worker does next with the first message of its batch. */
  datatype Stage =
    | Idle
    | Write(event: Event)
    | ClearRetry(event: Event)
    | Ack(event: Event)
    | Increment(event: Event)
    | Bury(letter: Option<Event>)
    | AckBuried(letter: Option<Event>)
    | ClearBuried(event: Event)

  datatype Worker = Worker(batch: seq<nat>, stage: Stage)

  datatype State = State(store: Store, workers: map<nat, Worker>)

  /** `collate` maps texts to one another that the database takes for equal. */
  datatype Config = Config(times: TimeText, maxRetries: int, collate: string -> string)

  datatype Action =
    | Append(fields: Fields)
    | Deliver(w: nat, count: nat)
    | Claim(w: nat, ids: seq<nat>)
    | Work(w: nat, reply: Reply, failedAt: string, error: string)
    | Crash(w: nat)
    | ForgetRetries(eventId: string)

  const EMPTY := State(Store([], 0, {}, [], map[], map[]), map[])

  function Retries(store: Store, eventId: string): int
  {
    if eventId in store.retries then store.retries[eventId] else 0
  }

  // Commands on the stores.

  /** Inserts the row, or updates every column but the id of the row that is there. */
  function Created(cfg: Config, store: Store, event: Event): (after: Store)
    ensures after == store.(table := after.table) && store.table.Keys <= after.table.Keys
    ensures cfg.collate(Trim(event.eventId)) in after.table
  {
    var key, row := cfg.collate(Trim(event.eventId)), Written(event);
    store.(table := store.table[key := if key in store.table then row.(eventId := store.table[key].eventId) else row])
  }

  function Cleared(store: Store, eventId: string): Store
  {
    store.(retries := store.retries - {eventId})
  }

  function Incremented(store: Store, eventId: string): Store
  {
    store.(retries := store.retries[eventId := Retries(store, eventId) + 1])
  }

  function Acked(store: Store, id: nat): Store
  {
    store.(pending := store.pending - {id})
  }

  function Buried(store: Store, id: nat, letter: Option<Event>, failedAt: string, error: string): Store
    requires id < |store.stream|
  {
    var retries := if letter.Some? then Retries(store, letter.value.eventId) else 0;
    var fields := DeadLetter(FormatNat(id), failedAt, error, store.stream[id], letter, retries);
    store.(dlq := store.dlq + [Letter(id, fields)])
  }

  /** Turning to the first message of a batch: decode it. */
  function Begin(cfg: Config, store: Store, batch: seq<nat>): Worker
  {
    if batch == [] || batch[0] >= |store.stream| then Worker([], Idle)
    else match Carried(cfg.times, store.stream[batch[0]])
      case Some(event) => Worker(batch, Write(event))
      case None => Worker(batch, Bury(None))
  }

  /** One command of a worker that is not idle. */
  function Perform(cfg: Config, store: Store, wk: Worker, a: Action): (Store, Worker)
    requires a.Work? && !wk.stage.Idle? && wk.batch != [] && wk.batch[0] < |store.stream|
  {
    var id, rest, done := wk.batch[0], wk.batch[1..], Effective(a.reply);
    match wk.stage
    case Write(event) =>
      (if done then Created(cfg, store, event) else store,
       wk.(stage := if a.reply.Done? then ClearRetry(event) else Increment(event)))
    case ClearRetry(event) =>
      (if done then Cleared(store, event.eventId) else store, wk.(stage := Ack(event)))
    case Ack(event) =>
      (if done then Acked(store, id) else store, Begin(cfg, store, rest))
    case Increment(event) =>
      var after := if done then Incremented(store, event.eventId) else store;
      (after, if a.reply.Done? && Retries(after, event.eventId) < cfg.maxRetries
              then Begin(cfg, store, rest) else wk.(stage := Bury(Some(event))))
    case Bury(letter) =>
      (if done then Buried(store, id, letter, a.failedAt, a.error) else store,
       if a.reply.Done? then wk.(stage := AckBuried(letter)) else Begin(cfg, store, rest))
    case AckBuried(letter) =>
      (if done then Acked(store, id) else store,
       if a.reply.Done? && letter.Some? then wk.(stage := ClearBuried(letter.value)) else Begin(cfg, store, rest))
    case ClearBuried(event) =>
      (if done then Cleared(store, event.eventId) else store, Begin(cfg, store, rest))
  }

  predicate Available(s: State, w: nat)
  {
    w in s.workers ==> s.workers[w].stage.Idle?
  }

  predicate Working(s: State, w: nat)
  {
    && w in s.workers && !s.workers[w].stage.Idle?
    && s.workers[w].batch != [] && s.workers[w].batch[0] < |s.store.stream|
  }

  function Apply(cfg: Config, s: State, a: Action): State
  {
    match a
    case Append(fields) => s.(store := s.store.(stream := s.store.stream + [fields]))
    case Deliver(w, count) =>
      if !Available(s, w) || s.store.cursor + count > |s.store.stream| then s
      else
        var ids := seq(count, i => s.store.cursor + i);
        State(s.store.(cursor := s.store.cursor + count, pending := s.store.pending + set i | i in ids),
              s.workers[w := Begin(cfg, s.store, ids)])
    case Claim(w, ids) =>
      if !Available(s, w) || !(forall i :: i in ids ==> i in s.store.pending) then s
      else s.(workers := s.workers[w := Begin(cfg, s.store, ids)])
    case Work(w, _, _, _) =>
      if !Working(s, w) then s
      else
        var (store, wk) := Perform(cfg, s.store, s.workers[w], a);
        State(store, s.workers[w := wk])
    case Crash(w) => s.(workers := s.workers - {w})
    case ForgetRetries(eventId) => s.(store := Cleared(s.store, eventId))
  }

  function Run(cfg: Config, s: State, actions: seq<Action>): State
  {
    if actions == [] then s else Apply(cfg, Run(cfg, s, actions[..|actions| - 1]), actions[|actions| - 1])
  }

  // ---------------------------------------------------------------------------
  // Conservation
  // ---------------------------------------------------------------------------

  /** The event of a message has a row. */
  predicate Persisted(cfg: Config, store: Store, id: nat)
  {
    && id < |store.stream|
    && Carried(cfg.times, store.stream[id]).Some?
    && cfg.collate(Trim(Carried(cfg.times, store.stream[id]).value.eventId)) in store.table
  }

  /** The message lies in the dead-letter stream. */
  predicate DeadLettered(store: Store, id: nat)
  {
    exists i :: 0 <= i < |store.dlq| && store.dlq[i].source == id
  }

  predicate Safe(cfg: Config, store: Store, id: nat)
  {
    id in store.pending || Persisted(cfg, store, id) || DeadLettered(store, id)
  }

  /** A dead letter decodes to what its message decodes to. */
  predicate Faithful(store: Store, letter: Letter)
  {
    letter.source < |store.stream| && ReadAll(letter.fields) == ReadAll(store.stream[letter.source])
  }

  predicate StoreOk(cfg: Config, store: Store)
  {
    && store.cursor <= |store.stream|
    && (forall id :: id in store.pending ==> id < store.cursor)
    && (forall id :: 0 <= id < store.cursor ==> Safe(cfg, store, id))
    && (forall i :: 0 <= i < |store.dlq| ==> Faithful(store, store.dlq[i]))
  }

  /** A worker about to acknowledge has its message in a safe place already. */
  predicate WorkerOk(cfg: Config, store: Store, wk: Worker)
  {
    && (forall i :: 0 <= i < |wk.batch| ==> wk.batch[i] < store.cursor)
    && (!wk.stage.Idle? ==> wk.batch != [])
    && (wk.stage.Write? || wk.stage.ClearRetry? || wk.stage.Ack? || wk.stage.Increment? || wk.stage.ClearBuried? ==>
          wk.batch[0] < |store.stream| && Carried(cfg.times, store.stream[wk.batch[0]]) == Some(wk.stage.event))
    && (wk.stage.Bury? || wk.stage.AckBuried? ==>
          wk.batch[0] < |store.stream| && Carried(cfg.times, store.stream[wk.batch[0]]) == wk.stage.letter)
    && (wk.stage.ClearRetry? || wk.stage.Ack? ==> Persisted(cfg, store, wk.batch[0]))
    && (wk.stage.AckBuried? ==> DeadLettered(store, wk.batch[0]))
    && (wk.stage.ClearBuried? ==> wk.batch[0] !in store.pending)
  }

  predicate Conserved(cfg: Config, s: State)
  {
    && StoreOk(cfg, s.store)
    && forall w :: w in s.workers ==> WorkerOk(cfg, s.store, s.workers[w])
  }

  /** Nothing is ever taken out of the stream, the table or the dead letters, and
      a message once acknowledged does not become pending again. */
  predicate Grows(a: Store, b: Store)
  {
    && a.stream <= b.stream && a.cursor <= b.cursor && a.dlq <= b.dlq
    && a.table.Keys <= b.table.Keys
    && (forall id :: id in b.pending && id < a.cursor ==> id in a.pending)
  }

  lemma GrowthKeepsWorker(cfg: Config, a: Store, b: Store, wk: Worker)
    requires Grows(a, b) && WorkerOk(cfg, a, wk)
    ensures WorkerOk(cfg, b, wk)
  {
    hide Carried;
  }

  lemma BeginOk(cfg: Config, store: Store, batch: seq<nat>)
    requires forall i :: 0 <= i < |batch| ==> batch[i] < store.cursor
    ensures WorkerOk(cfg, store, Begin(cfg, store, batch))
  {
    hide Carried;
  }

  /** The dead letter of a message reads like the message. */
  lemma BuriedIsFaithful(cfg: Config, store: Store, id: nat, failedAt: string, error: string)
    requires id < |store.stream|
    ensures var after := Buried(store, id, Carried(cfg.times, store.stream[id]), failedAt, error);
            Faithful(after, after.dlq[|after.dlq| - 1])
  {
    hide Carried, DeadLetter, ReadAll, Read;
    var letter := Carried(cfg.times, store.stream[id]);
    var retries := if letter.Some? then Retries(store, letter.value.eventId) else 0;
    var fields := DeadLetter(FormatNat(id), failedAt, error, store.stream[id], letter, retries);
    forall k | IsEventKey(k)
      ensures Read(fields, k) == Read(store.stream[id], k)
    {
      DeadLetterKeepsEventKeys(cfg.times, FormatNat(id), failedAt, error, store.stream[id], retries, k);
    }
    SameReads(fields, store.stream[id]);
  }

  /** A store that only grows and acknowledges nothing stays in order. */
  lemma GrowthKeepsStore(cfg: Config, a: Store, b: Store)
    requires Grows(a, b) && StoreOk(cfg, a) && b.cursor == a.cursor && b.pending == a.pending
    requires forall i :: |a.dlq| <= i < |b.dlq| ==> Faithful(b, b.dlq[i])
    ensures StoreOk(cfg, b)
  {
    hide Carried, ReadAll;
    forall id | 0 <= id < a.cursor
      ensures Safe(cfg, b, id)
    {
      assert Safe(cfg, a, id);
      if DeadLettered(a, id) {
        var i :| 0 <= i < |a.dlq| && a.dlq[i].source == id;
        assert b.dlq[i] == a.dlq[i];
      }
    }
    assert forall i :: 0 <= i < |a.dlq| ==> Faithful(a, a.dlq[i]) && b.dlq[i] == a.dlq[i];
  }

  lemma AckKeepsStore(cfg: Config, store: Store, id: nat)
    requires StoreOk(cfg, store) && (Persisted(cfg, store, id) || DeadLettered(store, id))
    ensures StoreOk(cfg, Acked(store, id))
  {
    hide Carried, ReadAll;
    forall other | 0 <= other < store.cursor
      ensures Safe(cfg, Acked(store, id), other)
    {
      assert Safe(cfg, store, other);
    }
    assert forall i :: 0 <= i < |store.dlq| ==> Faithful(store, store.dlq[i]);
  }

  /** Every command of a worker keeps the stores and that worker in order. */
  lemma PerformKeeps(cfg: Config, store: Store, wk: Worker, a: Action)
    requires a.Work? && !wk.stage.Idle? && wk.batch != [] && wk.batch[0] < |store.stream|
    requires StoreOk(cfg, store) && WorkerOk(cfg, store, wk)
    ensures var (store', wk') := Perform(cfg, store, wk, a);
            StoreOk(cfg, store') && WorkerOk(cfg, store', wk') && Grows(store, store')
  {
    hide Carried, ReadAll, DeadLetter, FormatNat, Begin, Faithful, Safe, Created, Trim;
    var (store', wk') := Perform(cfg, store, wk, a);
    var id := wk.batch[0];
    BeginOk(cfg, store, wk.batch[1..]);
    if wk.stage.Bury? {
      BuriedIsFaithful(cfg, store, id, a.failedAt, a.error);
    }
    assert Grows(store, store');
    GrowthKeepsWorker(cfg, store, store', Begin(cfg, store, wk.batch[1..]));
    if wk.stage.Ack? || wk.stage.AckBuried? {
      AckKeepsStore(cfg, store, id);
    } else {
      GrowthKeepsStore(cfg, store, store');
    }
    if wk.stage.Bury? && a.reply.Done? {
      assert store'.dlq[|store.dlq|].source == id;
    }
  }

  lemma DeliverKeeps(cfg: Config, s: State, w: nat, count: nat)
    requires Conserved(cfg, s)
    ensures Conserved(cfg, Apply(cfg, s, Deliver(w, count)))
  {
    hide Carried, ReadAll;
    var t := Apply(cfg, s, Deliver(w, count));
    if Available(s, w) && s.store.cursor + count <= |s.store.stream| {
      var ids := seq(count, i => s.store.cursor + i);
      forall id | 0 <= id < t.store.cursor
        ensures Safe(cfg, t.store, id)
      {
        if id >= s.store.cursor {
          assert ids[id - s.store.cursor] == id;
        } else {
          assert Safe(cfg, s.store, id);
        }
      }
      assert forall i :: 0 <= i < |s.store.dlq| ==> Faithful(s.store, s.store.dlq[i]);
      BeginOk(cfg, t.store, ids);
      forall v | v in s.workers
        ensures WorkerOk(cfg, t.store, s.workers[v])
      {
        GrowthKeepsWorker(cfg, s.store, t.store, s.workers[v]);
      }
    }
  }

  lemma StepConserves(cfg: Config, s: State, a: Action)
    requires Conserved(cfg, s)
    ensures Conserved(cfg, Apply(cfg, s, a))
  {
    hide Carried, ReadAll, Perform, Begin;
    var t := Apply(cfg, s, a);
    match a
    case Deliver(w, count) => DeliverKeeps(cfg, s, w, count);
    case Claim(w, ids) =>
      if forall i :: i in ids ==> i in s.store.pending {
        assert forall i :: 0 <= i < |ids| ==> ids[i] in ids;
        BeginOk(cfg, s.store, ids);
      }
    case Work(w, _, _, _) =>
      if Working(s, w) {
        PerformKeeps(cfg, s.store, s.workers[w], a);
        forall v | v in s.workers
          ensures WorkerOk(cfg, t.store, s.workers[v])
        {
          GrowthKeepsWorker(cfg, s.store, t.store, s.workers[v]);
        }
      }
    case _ =>
      GrowthKeepsStore(cfg, s.store, t.store);
      forall v | v in s.workers
        ensures WorkerOk(cfg, t.store, s.workers[v])
      {
        GrowthKeepsWorker(cfg, s.store, t.store, s.workers[v]);
      }
  }

  /** In every run, whatever fails or dies, a delivered message that is no longer
      pending has its event in the table or lies in the dead letters, from where
      it decodes to the same event. */
  lemma {:induction false} NothingIsLost(cfg: Config, actions: seq<Action>)
    ensures Conserved(cfg, Run(cfg, EMPTY, actions))
    ensures var store := Run(cfg, EMPTY, actions).store;
            forall id: nat :: id < store.cursor && id !in store.pending ==>
              Persisted(cfg, store, id) || DeadLettered(store, id)
  {
    if actions != [] {
      var init := actions[..|actions| - 1];
      NothingIsLost(cfg, init);
      StepConserves(cfg, Run(cfg, EMPTY, init), actions[|actions| - 1]);
    }
    var store := Run(cfg, EMPTY, actions).store;
    forall id: nat | id < store.cursor && id !in store.pending
      ensures Persisted(cfg, store, id) || DeadLettered(store, id)
    {
      assert Safe(cfg, store, id);
    }
  }

  // ---------------------------------------------------------------------------
  // What the rows hold
  // ---------------------------------------------------------------------------

  /** What is written of a message, if it carries an event the table files under `key`. */
  function RowUnder(cfg: Config, fields: Fields, key: string): Option<Row>
  {
    match Carried(cfg.times, fields)
    case None => None
    case Some(event) => if cfg.collate(Trim(event.eventId)) == key then Some(Written(event)) else None
  }

  predicate GivesId(cfg: Config, fields: Fields, key: string, row: Row)
  {
    RowUnder(cfg, fields, key).Some? && RowUnder(cfg, fields, key).value.eventId == row.eventId
  }

  predicate GivesRest(cfg: Config, fields: Fields, key: string, row: Row)
  {
    RowUnder(cfg, fields, key).Some? && RowUnder(cfg, fields, key).value.(eventId := row.eventId) == row
  }

  /** The row has the id of one message under its key, and all else of another or the
      same. */
  predicate RowOk(cfg: Config, stream: seq<Fields>, key: string, row: Row)
  {
    && (exists i :: 0 <= i < |stream| && GivesId(cfg, stream[i], key, row))
    && (exists i :: 0 <= i < |stream| && GivesRest(cfg, stream[i], key, row))
  }

  predicate RowsOk(cfg: Config, store: Store)
  {
    forall key :: key in store.table ==> RowOk(cfg, store.stream, key, store.table[key])
  }

  lemma RowStays(cfg: Config, stream: seq<Fields>, longer: seq<Fields>, key: string, row: Row)
    requires RowOk(cfg, stream, key, row) && stream <= longer
    ensures RowOk(cfg, longer, key, row)
  {
    hide GivesId, GivesRest;
    var i :| 0 <= i < |stream| && GivesId(cfg, stream[i], key, row);
    var j :| 0 <= j < |stream| && GivesRest(cfg, stream[j], key, row);
    assert longer[i] == stream[i] && longer[j] == stream[j];
  }

  lemma RowUpdated(cfg: Config, stream: seq<Fields>, id: nat, key: string, row: Row, written: Row)
    requires RowOk(cfg, stream, key, row) && id < |stream| && RowUnder(cfg, stream[id], key) == Some(written)
    ensures RowOk(cfg, stream, key, written.(eventId := row.eventId))
  {
    hide RowUnder;
    var i :| 0 <= i < |stream| && GivesId(cfg, stream[i], key, row);
    assert GivesId(cfg, stream[i], key, written.(eventId := row.eventId));
    assert GivesRest(cfg, stream[id], key, written.(eventId := row.eventId));
  }

  lemma RowInserted(cfg: Config, stream: seq<Fields>, id: nat, key: string, written: Row)
    requires id < |stream| && RowUnder(cfg, stream[id], key) == Some(written)
    ensures RowOk(cfg, stream, key, written)
  {
    hide RowUnder;
    assert GivesId(cfg, stream[id], key, written) && GivesRest(cfg, stream[id], key, written);
  }

  lemma CreateKeepsRows(cfg: Config, store: Store, id: nat, event: Event)
    requires RowsOk(cfg, store) && id < |store.stream| && Carried(cfg.times, store.stream[id]) == Some(event)
    ensures RowsOk(cfg, Created(cfg, store, event))
  {
    hide Carried, Trim, Written, RowOk;
    var key := cfg.collate(Trim(event.eventId));
    assert RowUnder(cfg, store.stream[id], key) == Some(Written(event));
    if key in store.table {
      RowUpdated(cfg, store.stream, id, key, store.table[key], Written(event));
    } else {
      RowInserted(cfg, store.stream, id, key, Written(event));
    }
  }

  lemma StepKeepsRows(cfg: Config, s: State, a: Action)
    requires Conserved(cfg, s) && RowsOk(cfg, s.store)
    ensures RowsOk(cfg, Apply(cfg, s, a).store)
  {
    hide Carried, RowOk, Buried, Begin, StoreOk, Created;
    var t := Apply(cfg, s, a);
    if a.Work? && Working(s, a.w) && s.workers[a.w].stage.Write? && Effective(a.reply) {
      var wk := s.workers[a.w];
      assert WorkerOk(cfg, s.store, wk);
      CreateKeepsRows(cfg, s.store, wk.batch[0], wk.stage.event);
    } else {
      TableUntouched(cfg, s, a);
      forall key | key in t.store.table
        ensures RowOk(cfg, t.store.stream, key, t.store.table[key])
      {
        RowStays(cfg, s.store.stream, t.store.stream, key, s.store.table[key]);
      }
    }
  }

  lemma TableUntouched(cfg: Config, s: State, a: Action)
    requires !(a.Work? && Working(s, a.w) && s.workers[a.w].stage.Write? && Effective(a.reply))
    ensures var t := Apply(cfg, s, a); t.store.table == s.store.table && s.store.stream <= t.store.stream
  {
    hide Carried, Begin, DeadLetter, FormatNat, Created;
  }

  lemma {:induction false} RunKeepsRows(cfg: Config, actions: seq<Action>)
    ensures RowsOk(cfg, Run(cfg, EMPTY, actions).store)
  {
    if actions != [] {
      var init := actions[..|actions| - 1];
      NothingIsLost(cfg, init);
      RunKeepsRows(cfg, init);
      hide Apply, RowsOk, Conserved;
      StepKeepsRows(cfg, Run(cfg, EMPTY, init), actions[|actions| - 1]);
    }
  }

  /** In every run the row of a persisted message holds what the statement writes of some
      message under an equal id, with the id of the first of them; and it holds exactly
      what is written of the message itself when all messages under equal ids agree. */
  lemma RowIsWritten(cfg: Config, actions: seq<Action>, id: nat)
    requires Persisted(cfg, Run(cfg, EMPTY, actions).store, id)
    ensures var store := Run(cfg, EMPTY, actions).store;
            var event := Carried(cfg.times, store.stream[id]).value;
            var key := cfg.collate(Trim(event.eventId));
            && RowOk(cfg, store.stream, key, store.table[key])
            && ((forall i :: 0 <= i < |store.stream| && RowUnder(cfg, store.stream[i], key).Some? ==>
                   RowUnder(cfg, store.stream[i], key) == Some(Written(event)))
                ==> store.table[key] == Written(event))
  {
    RunKeepsRows(cfg, actions);
    hide Run, Carried, Written, Trim, RowUnder;
  }

  predicate TrimmedTexts(e: Event)
  {
    && Trimmed(e.eventId) && Trimmed(e.eventType) && Trimmed(e.subject) && Trimmed(e.ipAddress)
    && Trimmed(e.userAgent) && Trimmed(e.metadataJson)
  }

  /** What a row tells of an event read from the stream: all but its time, and ids that
      are not positive. */
  lemma RowTells(e: Event, f: Event)
    requires TrimmedTexts(e) && TrimmedTexts(f)
    ensures Written(e) == Written(f)
            <==> e.(clientId := PositiveOnly(e.clientId), userId := PositiveOnly(e.userId),
                    sessionId := PositiveOnly(e.sessionId), createdAt := f.createdAt)
                 == f.(clientId := PositiveOnly(f.clientId), userId := PositiveOnly(f.userId),
                       sessionId := PositiveOnly(f.sessionId))
  {
    hide Trim;
  }

  lemma DecodedIsTrimmed(tt: TimeText, fields: Fields)
    requires Decode(tt, fields).Ok?
    ensures TrimmedTexts(Decode(tt, fields).value)
  {
    hide Trim;
  }
}
