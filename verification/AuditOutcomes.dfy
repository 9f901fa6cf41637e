/** What the stores hold after any run: where each row of the audit table comes from, which
    messages are pending, what each dead letter says. And what becomes of a message when
    nothing fails. */
module AuditOutcomes {
  import opened Wrappers
  import opened Text
  import opened Decimal
  import opened AuditCodec
  import opened AuditStream

  /** The message whose event this step writes to the table, whether or not the worker
      learns of it. */
  function WriteOf(s: State, a: Action): Option<nat>
  {
    if a.Work? && Effective(a.reply) && Working(s, a.w) && s.workers[a.w].stage.Write?
    then Some(s.workers[a.w].batch[0]) else None
  }

  datatype Writes = Never | Wrote(first: nat, last: nat)

  /** The first and the last message written under a key, as positions in the stream. */
  function WritesUnder(cfg: Config, actions: seq<Action>, key: string): Writes
  {
    if actions == [] then Never
    else
      var front, a := actions[..|actions| - 1], actions[|actions| - 1];
      var s, before := Run(cfg, EMPTY, front), WritesUnder(cfg, front, key);
      match WriteOf(s, a)
      case None => before
      case Some(m) =>
        if cfg.collate(Read(s.store.stream[m], EventId)) != key then before
        else if before.Never? then Wrote(m, m)
        else before.(last := m)
  }

  /** The positive number a field holds, if any. */
  function PositiveId(text: string): Option<int>
  {
    PositiveOnly(ParseInt64(text))
  }

  /** The row has the id of one message and all else of another. */
  predicate RowReads(row: Row, first: Fields, last: Fields)
  {
    && row.eventId == Read(first, EventId) && row.eventType == Read(last, EventType)
    && row.clientId == PositiveId(Read(last, ClientId)) && row.userId == PositiveId(Read(last, UserId))
    && row.subject == Read(last, Subject) && row.sessionId == PositiveId(Read(last, SessionId))
    && row.ipAddress == Read(last, IpAddress) && row.userAgent == Read(last, UserAgent)
    && row.metadataJson
       == (if Read(last, MetadataJson) == "" then None else Some(Read(last, MetadataJson)))
  }

  lemma ReadIsTrimmed(fields: Fields, key: Key)
    ensures Trim(Read(fields, key)) == Read(fields, key)
  {
  }

  lemma NoNumberInBlank()
    ensures ParseInt64("").None?
  {
  }

  lemma ParsedPositive(text: string)
    requires ParseId(text).Ok?
    ensures PositiveOnly(ParseId(text).value) == PositiveId(text)
  {
    hide ParseInt64;
    NoNumberInBlank();
  }

  /** What the statement writes of a message, column by column. */
  lemma WrittenReads(cfg: Config, fields: Fields)
    requires Carried(cfg.times, fields).Some?
    ensures RowReads(Written(Carried(cfg.times, fields).value), fields, fields)
    ensures Trim(Carried(cfg.times, fields).value.eventId) == Read(fields, EventId)
  {
    hide Read, ParseId, PositiveId, Trim;
    forall k ensures Trim(Read(fields, k)) == Read(fields, k) {
      ReadIsTrimmed(fields, k);
    }
    ParsedPositive(Read(fields, ClientId));
    ParsedPositive(Read(fields, UserId));
    ParsedPositive(Read(fields, SessionId));
  }

  /** The table agrees with the writes under a key. */
  predicate RowIs(store: Store, key: string, w: Writes)
  {
    && (key in store.table <==> w.Wrote?)
    && (w.Wrote? ==>
          && w.first < |store.stream| && w.last < |store.stream|
          && RowReads(store.table[key], store.stream[w.first], store.stream[w.last]))
  }

  lemma RowSame(s: Store, u: Store, key: string, w: Writes)
    requires RowIs(s, key, w) && u.table == s.table && s.stream <= u.stream
    ensures RowIs(u, key, w)
  {
    hide RowReads;
  }

  lemma RowWritten(cfg: Config, store: Store, m: nat, key: string, before: Writes)
    requires RowIs(store, key, before) && m < |store.stream| && Carried(cfg.times, store.stream[m]).Some?
    ensures var matches := cfg.collate(Read(store.stream[m], EventId)) == key;
            RowIs(Created(cfg, store, Carried(cfg.times, store.stream[m]).value), key,
                  if !matches then before else if before.Never? then Wrote(m, m) else before.(last := m))
  {
    hide Carried, Read, PositiveId, Written;
    WrittenReads(cfg, store.stream[m]);
  }

  /** In every run, whatever fails or dies, a key has a row exactly if some event was
      written under it; the row's id is that of the first such message, and every other
      column is that of the last. */
  lemma {:induction false} RowsAreWrites(cfg: Config, actions: seq<Action>, key: string)
    ensures RowIs(Run(cfg, EMPTY, actions).store, key, WritesUnder(cfg, actions, key))
  {
    if actions != [] {
      var front, a := actions[..|actions| - 1], actions[|actions| - 1];
      var s := Run(cfg, EMPTY, front);
      RowsAreWrites(cfg, front, key);
      NothingIsLost(cfg, front);
      RowStep(cfg, s, a, key, WritesUnder(cfg, front, key));
      hide Apply, RowIs, Conserved, Read;
    }
  }

  lemma RowStep(cfg: Config, s: State, a: Action, key: string, before: Writes)
    requires Conserved(cfg, s) && RowIs(s.store, key, before)
    ensures RowIs(Apply(cfg, s, a).store, key,
                  match WriteOf(s, a)
                  case None => before
                  case Some(m) =>
                    if cfg.collate(Read(s.store.stream[m], EventId)) != key then before
                    else if before.Never? then Wrote(m, m)
                    else before.(last := m))
  {
    hide Carried, Read, RowIs, Begin, Created, StoreOk;
    if WriteOf(s, a).Some? {
      assert WorkerOk(cfg, s.store, s.workers[a.w]);
      RowWritten(cfg, s.store, s.workers[a.w].batch[0], key, before);
    } else {
      TableUntouched(cfg, s, a);
      RowSame(s.store, Apply(cfg, s, a).store, key, before);
    }
  }

  // ---------------------------------------------------------------------------
  // Acknowledgements
  // ---------------------------------------------------------------------------

  /** The message this step acknowledges. */
  function AckOf(s: State, a: Action): Option<nat>
  {
    if a.Work? && Effective(a.reply) && Working(s, a.w)
       && (s.workers[a.w].stage.Ack? || s.workers[a.w].stage.AckBuried?)
    then Some(s.workers[a.w].batch[0]) else None
  }

  function AckedIn(cfg: Config, actions: seq<Action>): set<nat>
  {
    if actions == [] then {}
    else
      var front, a := actions[..|actions| - 1], actions[|actions| - 1];
      match AckOf(Run(cfg, EMPTY, front), a)
      case None => AckedIn(cfg, front)
      case Some(m) => AckedIn(cfg, front) + {m}
  }

  /** In every run exactly the delivered messages that were not acknowledged are
      pending. */
  lemma {:induction false} PendingExactly(cfg: Config, actions: seq<Action>, id: nat)
    ensures var store := Run(cfg, EMPTY, actions).store;
            && (id in store.pending <==> id < store.cursor && id !in AckedIn(cfg, actions))
            && (id in AckedIn(cfg, actions) ==> id < store.cursor)
  {
    if actions != [] {
      var front, a := actions[..|actions| - 1], actions[|actions| - 1];
      PendingExactly(cfg, front, id);
      NothingIsLost(cfg, front);
      hide Apply, Run, Conserved;
      PendingStep(cfg, Run(cfg, EMPTY, front), a, id);
    }
  }

  lemma PendingStep(cfg: Config, s: State, a: Action, id: nat)
    requires Conserved(cfg, s)
    ensures var u := Apply(cfg, s, a).store;
            && s.store.cursor <= u.cursor
            && (AckOf(s, a) == Some(id) ==> id < s.store.cursor)
            && (id in u.pending <==>
                  (id in s.store.pending || s.store.cursor <= id < u.cursor) && AckOf(s, a) != Some(id))
  {
    hide Begin, Created, Buried, Perform, StoreOk, WorkerOk;
    if a.Work? && Working(s, a.w) {
      assert WorkerOk(cfg, s.store, s.workers[a.w]);
      WorkPending(cfg, s.store, s.workers[a.w], a);
    } else if a.Deliver? {
      PendingIsDelivered(cfg, s.store);
      DeliverPending(cfg, s, a.w, a.count, id);
    } else {
      PendingIsDelivered(cfg, s.store);
    }
  }

  lemma PendingIsDelivered(cfg: Config, store: Store)
    requires StoreOk(cfg, store)
    ensures forall id :: id in store.pending ==> id < store.cursor
  {
    hide Safe, Faithful;
  }

  lemma WorkPending(cfg: Config, store: Store, wk: Worker, a: Action)
    requires a.Work? && !wk.stage.Idle? && wk.batch != [] && wk.batch[0] < |store.stream|
    requires WorkerOk(cfg, store, wk)
    ensures var u := Perform(cfg, store, wk, a).0;
            && u.cursor == store.cursor && wk.batch[0] < store.cursor
            && u.pending == if Effective(a.reply) && (wk.stage.Ack? || wk.stage.AckBuried?)
                            then store.pending - {wk.batch[0]} else store.pending
  {
    hide Begin, Created, DeadLetter, FormatNat, Carried, Persisted, DeadLettered;
  }

  lemma DeliverPending(cfg: Config, s: State, w: nat, count: nat, id: nat)
    ensures var u := Apply(cfg, s, Deliver(w, count)).store;
            && s.store.cursor <= u.cursor
            && (id in u.pending <==> id in s.store.pending || s.store.cursor <= id < u.cursor)
  {
    hide Begin;
    var ids := seq(count, i => s.store.cursor + i);
    assert s.store.cursor <= id < s.store.cursor + count ==> ids[id - s.store.cursor] == id;
  }

  // ---------------------------------------------------------------------------
  // Dead letters
  // ---------------------------------------------------------------------------

  predicate BuriesNow(s: State, a: Action)
  {
    a.Work? && Effective(a.reply) && Working(s, a.w) && s.workers[a.w].stage.Bury?
  }

  /** The dead letter of a message: it reads like the message, and says when it failed,
      whether it could be read and how often it was tried, unless the message itself
      has such fields. */
  predicate IsLetterOf(cfg: Config, store: Store, m: nat, a: Action, letter: Letter)
    requires m < |store.stream| && a.Work?
  {
    var fields := store.stream[m];
    && letter.source == m && ReadAll(letter.fields) == ReadAll(fields)
    && Adds(letter.fields, fields, StreamMessageId, FormatNat(m)) && Adds(letter.fields, fields, FailedAt, a.failedAt)
    && Adds(letter.fields, fields, Cause, Trim(a.error))
    && Adds(letter.fields, fields, Malformed, if Carried(cfg.times, fields).None? then "true" else "false")
    && (Carried(cfg.times, fields).Some? ==>
          && RetryCount in letter.fields
          && letter.fields[RetryCount] == FormatInt(Retries(store, Carried(cfg.times, fields).value.eventId)))
  }

  /** In every reachable state a step adds one dead letter, that of the message at hand, if
      it is a burial that took effect, even if the worker does not learn of it; no other
      step touches the dead letters. */
  lemma LettersAreBurials(cfg: Config, actions: seq<Action>, a: Action)
    ensures var s := Run(cfg, EMPTY, actions);
            var u := Apply(cfg, s, a);
            if BuriesNow(s, a) then
              && |u.store.dlq| == |s.store.dlq| + 1 && u.store.dlq[..|s.store.dlq|] == s.store.dlq
              && IsLetterOf(cfg, s.store, s.workers[a.w].batch[0], a, u.store.dlq[|s.store.dlq|])
            else u.store.dlq == s.store.dlq
  {
    NothingIsLost(cfg, actions);
    hide Run, Conserved, Apply, IsLetterOf;
    var s := Run(cfg, EMPTY, actions);
    if BuriesNow(s, a) {
      BurialAdds(cfg, s, a);
    } else {
      LettersUntouched(cfg, s, a);
    }
  }

  lemma LettersUntouched(cfg: Config, s: State, a: Action)
    requires !BuriesNow(s, a)
    ensures Apply(cfg, s, a).store.dlq == s.store.dlq
  {
    hide Begin, Created, Buried;
  }

  lemma BurialAdds(cfg: Config, s: State, a: Action)
    requires Conserved(cfg, s) && BuriesNow(s, a)
    ensures var u := Apply(cfg, s, a);
            && |u.store.dlq| == |s.store.dlq| + 1 && u.store.dlq[..|s.store.dlq|] == s.store.dlq
            && IsLetterOf(cfg, s.store, s.workers[a.w].batch[0], a, u.store.dlq[|s.store.dlq|])
  {
    hide Begin, Created, StoreOk, Carried, DeadLetter, FormatNat, Read, ReadAll, Trim;
    var m := s.workers[a.w].batch[0];
    assert WorkerOk(cfg, s.store, s.workers[a.w]);
    var letter := Carried(cfg.times, s.store.stream[m]);
    var retries := if letter.Some? then Retries(s.store, letter.value.eventId) else 0;
    BuriedIsFaithful(cfg, s.store, m, a.failedAt, a.error);
    LetterFields(FormatNat(m), a.failedAt, a.error, s.store.stream[m], letter, retries);
  }

  // ---------------------------------------------------------------------------
  // When nothing fails
  // ---------------------------------------------------------------------------

  /** The worker's next commands, all carried out. */
  function Worked(cfg: Config, store: Store, wk: Worker, w: nat, failedAt: string, error: string, n: nat)
    : (Store, Worker)
  {
    if n == 0 then (store, wk)
    else
      var (st, k) := Worked(cfg, store, wk, w, failedAt, error, n - 1);
      if k.stage.Idle? || k.batch == [] || k.batch[0] >= |st.stream| then (st, k)
      else Perform(cfg, st, k, Work(w, Done, failedAt, error))
  }

  /** A readable message ends in the table with its counter cleared, an unreadable one in
      the dead letters; either is acknowledged, and the worker turns to the next. */
  lemma MessageIsSettled(cfg: Config, store: Store, batch: seq<nat>, w: nat, failedAt: string, error: string)
    requires batch != [] && batch[0] < |store.stream|
    ensures var m, fields := batch[0], store.stream[batch[0]];
            var n := if Carried(cfg.times, fields).Some? then 3 else 2;
            var (after, wk) := Worked(cfg, store, Begin(cfg, store, batch), w, failedAt, error, n);
            && after.stream == store.stream && after.cursor == store.cursor && after.pending == store.pending - {m}
            && wk == Begin(cfg, after, batch[1..])
            && match Carried(cfg.times, fields)
               case Some(event) =>
                 && after.dlq == store.dlq && after.retries == store.retries - {event.eventId}
                 && after.table.Keys == store.table.Keys + {cfg.collate(Read(fields, EventId))}
               case None =>
                 && |after.dlq| == |store.dlq| + 1 && after.dlq[|store.dlq|].source == m
                 && after.table == store.table && after.retries == store.retries
  {
    hide Carried, DeadLetter, FormatNat, Written, Read, Trim;
    var fields := store.stream[batch[0]];
    if Carried(cfg.times, fields).Some? {
      WrittenReads(cfg, fields);
      ThreeSteps(cfg, store, Begin(cfg, store, batch), w, failedAt, error);
    } else {
      TwoSteps(cfg, store, Begin(cfg, store, batch), w, failedAt, error);
    }
  }

  lemma ThreeSteps(cfg: Config, store: Store, wk: Worker, w: nat, failedAt: string, error: string)
    requires wk.stage.Write? && wk.batch != [] && wk.batch[0] < |store.stream|
    ensures var event := wk.stage.event;
            var (after, next) := Worked(cfg, store, wk, w, failedAt, error, 3);
            && after == Acked(Cleared(Created(cfg, store, event), event.eventId), wk.batch[0])
            && next == Begin(cfg, after, wk.batch[1..])
  {
    hide Created, Written;
    var event := wk.stage.event;
    assert Worked(cfg, store, wk, w, failedAt, error, 1)
        == (Created(cfg, store, event), wk.(stage := ClearRetry(event)));
    assert Worked(cfg, store, wk, w, failedAt, error, 2)
        == (Cleared(Created(cfg, store, event), event.eventId), wk.(stage := Ack(event)));
  }

  lemma TwoSteps(cfg: Config, store: Store, wk: Worker, w: nat, failedAt: string, error: string)
    requires wk.stage == Bury(None) && wk.batch != [] && wk.batch[0] < |store.stream|
    ensures var (after, next) := Worked(cfg, store, wk, w, failedAt, error, 2);
            && after == Acked(Buried(store, wk.batch[0], None, failedAt, error), wk.batch[0])
            && next == Begin(cfg, after, wk.batch[1..])
  {
    hide DeadLetter, FormatNat;
    assert Worked(cfg, store, wk, w, failedAt, error, 1)
        == (Buried(store, wk.batch[0], None, failedAt, error), wk.(stage := AckBuried(None)));
  }

  /** Commands of one worker that are all carried out. */
  function DoneSteps(w: nat, failedAt: string, error: string, n: nat): seq<Action>
  {
    seq(n, _ => Work(w, Done, failedAt, error))
  }

  lemma {:induction false} RunIsWorked(cfg: Config, s: State, w: nat, failedAt: string, error: string, n: nat)
    requires w in s.workers
    ensures var (store, wk) := Worked(cfg, s.store, s.workers[w], w, failedAt, error, n);
            Run(cfg, s, DoneSteps(w, failedAt, error, n)) == State(store, s.workers[w := wk])
  {
    hide Perform;
    if n == 0 {
      assert s.workers[w := s.workers[w]] == s.workers;
    } else {
      RunIsWorked(cfg, s, w, failedAt, error, n - 1);
      assert DoneSteps(w, failedAt, error, n)[..n - 1] == DoneSteps(w, failedAt, error, n - 1);
    }
  }

  /** A pending message that an idle worker claims, as after a crash, is settled within
      three commands when nothing fails: acknowledged, and persisted or dead-lettered. */
  lemma ClaimedIsSettled(cfg: Config, actions: seq<Action>, w: nat, id: nat, failedAt: string, error: string)
    requires var s := Run(cfg, EMPTY, actions); id in s.store.pending && Available(s, w)
    ensures var s := Run(cfg, EMPTY, actions);
            var t := Run(cfg, Apply(cfg, s, Claim(w, [id])), DoneSteps(w, failedAt, error, 3));
            && id !in t.store.pending && w in t.workers && t.workers[w].stage.Idle?
            && (Persisted(cfg, t.store, id) || DeadLettered(t.store, id))
  {
    NothingIsLost(cfg, actions);
    var s := Run(cfg, EMPTY, actions);
    assert id < |s.store.stream|;
    hide Run, Conserved, Perform, Carried, Written, Read, Trim, DeadLetter, FormatNat;
    var claimed := Apply(cfg, s, Claim(w, [id]));
    assert claimed == s.(workers := s.workers[w := Begin(cfg, s.store, [id])]);
    RunIsWorked(cfg, claimed, w, failedAt, error, 3);
    MessageIsSettled(cfg, s.store, [id], w, failedAt, error);
    SettledIsSafe(cfg, s.store, id, w, failedAt, error);
  }

  /** So is the next message of the stream that an idle worker reads. */
  lemma DeliveredIsSettled(cfg: Config, actions: seq<Action>, w: nat, failedAt: string, error: string)
    requires var s := Run(cfg, EMPTY, actions); s.store.cursor < |s.store.stream| && Available(s, w)
    ensures var s := Run(cfg, EMPTY, actions);
            var id, t := s.store.cursor, Run(cfg, Apply(cfg, s, Deliver(w, 1)), DoneSteps(w, failedAt, error, 3));
            && t.store.cursor == id + 1 && id !in t.store.pending && w in t.workers && t.workers[w].stage.Idle?
            && (Persisted(cfg, t.store, id) || DeadLettered(t.store, id))
  {
    hide Run, Perform, Carried, Written, Read, Trim, DeadLetter, FormatNat;
    var s := Run(cfg, EMPTY, actions);
    var id, delivered := s.store.cursor, Apply(cfg, s, Deliver(w, 1));
    assert seq(1, i => s.store.cursor + i) == [id];
    assert delivered.workers == s.workers[w := Begin(cfg, s.store, [id])];
    assert Begin(cfg, delivered.store, [id]) == Begin(cfg, s.store, [id]);
    RunIsWorked(cfg, delivered, w, failedAt, error, 3);
    SettledIsSafe(cfg, delivered.store, id, w, failedAt, error);
  }

  lemma SettledIsSafe(cfg: Config, store: Store, id: nat, w: nat, failedAt: string, error: string)
    requires id < |store.stream|
    ensures var (after, wk) := Worked(cfg, store, Begin(cfg, store, [id]), w, failedAt, error, 3);
            && id !in after.pending && wk.stage.Idle? && after.cursor == store.cursor
            && (Persisted(cfg, after, id) || DeadLettered(after, id))
  {
    hide Perform, Carried, Written, Read, Trim, DeadLetter, FormatNat;
    MessageIsSettled(cfg, store, [id], w, failedAt, error);
    var fields := store.stream[id];
    if Carried(cfg.times, fields).Some? {
      WrittenReads(cfg, fields);
    } else {
      var (after, wk) := Worked(cfg, store, Begin(cfg, store, [id]), w, failedAt, error, 2);
      assert after.dlq[|store.dlq|].source == id;
    }
  }
}
