/** An audit event as text fields: into the stream, into the dead-letter stream,
    and back out of both. */
module AuditCodec {
  import opened Clock
  import opened Wrappers
  import opened Text
  import opened Decimal

  datatype Event = Event(eventId: string, eventType: string, clientId: Option<int>, userId: Option<int>,
                         subject: string, sessionId: Option<int>, ipAddress: string, userAgent: string,
                         metadataJson: string, createdAt: Instant)

  /** The field names the service knows: the ten of an event, the five a dead
      letter adds, and any other. */
  datatype Key = EventId | EventType | ClientId | UserId | Subject | SessionId | IpAddress | UserAgent
               | MetadataJson | CreatedAt | StreamMessageId | FailedAt | Cause | Malformed | RetryCount
               | Other(name: string)

  predicate IsEventKey(k: Key)
  {
    !k.StreamMessageId? && !k.FailedAt? && !k.Cause? && !k.Malformed? && !k.RetryCount? && !k.Other?
  }

  const EVENT_KEYS := {EventId, EventType, ClientId, UserId, Subject, SessionId, IpAddress, UserAgent, MetadataJson,
                       CreatedAt}

  /** The fields of one stream message. */
  type Fields = map<Key, string>

  /** The RFC 3339 text of an instant with nanoseconds, in UTC. */
  datatype TimeText = TimeText(format: Instant -> string, parse: string -> Option<Instant>)

  /** What the codec needs of the time library: text never blank or padded, and
      parsed back to the same instant. */
  ghost predicate Lawful(tt: TimeText)
  {
    forall t: Instant :: tt.parse(tt.format(t)) == Some(t) && tt.format(t) != "" && Trimmed(tt.format(t))
  }

  function EnsureEventId(e: Event, uuid: string): (r: Event)
    ensures r == e.(eventId := r.eventId)
    ensures Trim(uuid) != "" ==> Trim(r.eventId) != ""
    ensures Trim(e.eventId) != "" ==> r == e
  {
    if Trim(e.eventId) == "" then e.(eventId := uuid) else e
  }

  function FormatNullable(id: Option<int>): string
  {
    if id.None? || id.value <= 0 then "" else FormatInt(id.value)
  }

  /** What the enqueue script writes for an event. */
  function Enqueued(tt: TimeText, e: Event, now: Instant): Fields
  {
    map[EventId := Trim(e.eventId),
        EventType := Trim(e.eventType),
        ClientId := FormatNullable(e.clientId),
        UserId := FormatNullable(e.userId),
        Subject := Trim(e.subject),
        SessionId := FormatNullable(e.sessionId),
        IpAddress := Trim(e.ipAddress),
        UserAgent := Trim(e.userAgent),
        MetadataJson := Trim(e.metadataJson),
        CreatedAt := tt.format(if e.createdAt == ZERO_TIME then now else e.createdAt)]
  }

  /** A field the message does not hold reads as the empty string. */
  function Get(fields: Fields, key: Key): string
  {
    if key in fields then fields[key] else ""
  }

  function Read(fields: Fields, key: Key): string
  {
    Trim(Get(fields, key))
  }

  /** The ten trimmed fields of an event. */
  datatype Raw = Raw(eventId: string, eventType: string, clientId: string, userId: string, subject: string,
                     sessionId: string, ipAddress: string, userAgent: string, metadataJson: string, createdAt: string)

  function ReadAll(fields: Fields): Raw
  {
    Raw(Read(fields, EventId), Read(fields, EventType), Read(fields, ClientId), Read(fields, UserId),
        Read(fields, Subject), Read(fields, SessionId), Read(fields, IpAddress), Read(fields, UserAgent),
        Read(fields, MetadataJson), Read(fields, CreatedAt))
  }

  datatype DecodeError = MissingField | BadNumber | BadTime

  function ParseId(raw: string): Result<Option<int>, DecodeError>
  {
    if raw == "" then Ok(None)
    else if ParseInt64(raw).None? then Err(BadNumber)
    else Ok(ParseInt64(raw))
  }

  function DecodeRaw(tt: TimeText, raw: Raw): Result<Event, DecodeError>
  {
    if raw.eventId == "" || raw.eventType == "" then Err(MissingField)
    else
      var clientId, userId, sessionId := ParseId(raw.clientId), ParseId(raw.userId), ParseId(raw.sessionId);
      if clientId.Err? || userId.Err? || sessionId.Err? then Err(BadNumber)
      else if raw.createdAt != "" && tt.parse(raw.createdAt).None? then Err(BadTime)
      else Ok(Event(raw.eventId, raw.eventType, clientId.value, userId.value, raw.subject, sessionId.value,
                    raw.ipAddress, raw.userAgent, raw.metadataJson,
                    if raw.createdAt == "" then ZERO_TIME else tt.parse(raw.createdAt).value))
  }

  /** `decodeMessage`. */
  function Decode(tt: TimeText, fields: Fields): Result<Event, DecodeError>
  {
    DecodeRaw(tt, ReadAll(fields))
  }

  /** The event a reader of the stream should see. */
  function Canonical(e: Event, now: Instant): Event
  {
    Event(Trim(e.eventId), Trim(e.eventType), PositiveOnly(e.clientId), PositiveOnly(e.userId), Trim(e.subject),
          PositiveOnly(e.sessionId), Trim(e.ipAddress), Trim(e.userAgent), Trim(e.metadataJson),
          if e.createdAt == ZERO_TIME then now else e.createdAt)
  }

  function PositiveOnly(id: Option<int>): Option<int>
  {
    if id.Some? && id.value > 0 then id else None
  }

  predicate Int64s(e: Event)
  {
    && (e.clientId.Some? ==> MIN_INT64 <= e.clientId.value <= MAX_INT64)
    && (e.userId.Some? ==> MIN_INT64 <= e.userId.value <= MAX_INT64)
    && (e.sessionId.Some? ==> MIN_INT64 <= e.sessionId.value <= MAX_INT64)
  }

  lemma IdRoundTrip(id: Option<int>)
    requires id.Some? ==> MIN_INT64 <= id.value <= MAX_INT64
    ensures ParseId(FormatNullable(id)) == Ok(PositiveOnly(id))
    ensures Trimmed(FormatNullable(id))
  {
    if PositiveOnly(id).Some? {
      ParseAfterFormat(id.value);
    }
  }

  /** Reading what was written; `v` is already trimmed. */
  lemma ReadWritten(fields: Fields, key: Key, v: string)
    requires key in fields && fields[key] == v && Trimmed(v)
    ensures Read(fields, key) == v
  {
  }

  lemma ReadEnqueued(tt: TimeText, e: Event, now: Instant)
    requires Lawful(tt) && Int64s(e)
    ensures ReadAll(Enqueued(tt, e, now)) ==
            Raw(Trim(e.eventId), Trim(e.eventType), FormatNullable(e.clientId), FormatNullable(e.userId),
                Trim(e.subject),
                FormatNullable(e.sessionId), Trim(e.ipAddress), Trim(e.userAgent), Trim(e.metadataJson),
                tt.format(if e.createdAt == ZERO_TIME then now else e.createdAt))
  {
    hide Trim, FormatInt, IsSpace, Trimmed;
    var fields := Enqueued(tt, e, now);
    ReadWritten(fields, EventId, Trim(e.eventId));
    ReadWritten(fields, EventType, Trim(e.eventType));
    ReadWritten(fields, Subject, Trim(e.subject));
    ReadWritten(fields, IpAddress, Trim(e.ipAddress));
    ReadWritten(fields, UserAgent, Trim(e.userAgent));
    ReadWritten(fields, MetadataJson, Trim(e.metadataJson));
    IdRoundTrip(e.clientId);
    ReadWritten(fields, ClientId, FormatNullable(e.clientId));
    IdRoundTrip(e.userId);
    ReadWritten(fields, UserId, FormatNullable(e.userId));
    IdRoundTrip(e.sessionId);
    ReadWritten(fields, SessionId, FormatNullable(e.sessionId));
    ReadWritten(fields, CreatedAt, tt.format(if e.createdAt == ZERO_TIME then now else e.createdAt));
  }

  /** Decoding what was enqueued gives back the event, trimmed, exactly when the
      event has a type. */
  lemma DecodeAfterEnqueue(tt: TimeText, e: Event, now: Instant)
    requires Lawful(tt) && Int64s(e) && Trim(e.eventId) != ""
    ensures Decode(tt, Enqueued(tt, e, now)) ==
            if Trim(e.eventType) == "" then Err(MissingField) else Ok(Canonical(e, now))
  {
    hide Trim, FormatNullable, ParseId, Read, Enqueued;
    ReadEnqueued(tt, e, now);
    IdRoundTrip(e.clientId);
    IdRoundTrip(e.userId);
    IdRoundTrip(e.sessionId);
  }

  predicate BlankOrNumber(text: string)
  {
    text == "" || ParseInt64(text).Some?
  }

  predicate Numeric(fields: Fields)
  {
    && BlankOrNumber(Read(fields, ClientId)) && BlankOrNumber(Read(fields, UserId))
    && BlankOrNumber(Read(fields, SessionId))
  }

  /** The number a field holds; a blank one holds none. */
  function IdIn(text: string): Option<int>
  {
    if text == "" then None else ParseInt64(text)
  }

  /** Which messages can be read, what is wrong with the others, and what an event read
      from a message holds. */
  lemma DecodesExactly(tt: TimeText, fields: Fields)
    ensures var r := Decode(tt, fields);
            var named := Read(fields, EventId) != "" && Read(fields, EventType) != "";
            var timed := Read(fields, CreatedAt) == "" || tt.parse(Read(fields, CreatedAt)).Some?;
            && (r == Err(MissingField) <==> !named)
            && (r == Err(BadNumber) <==> named && !Numeric(fields))
            && (r == Err(BadTime) <==> named && Numeric(fields) && !timed)
            && (r.Ok? ==>
                  && r.value.eventId == Read(fields, EventId) && r.value.eventType == Read(fields, EventType)
                  && r.value.clientId == IdIn(Read(fields, ClientId)) && r.value.userId == IdIn(Read(fields, UserId))
                  && r.value.sessionId == IdIn(Read(fields, SessionId)) && r.value.subject == Read(fields, Subject)
                  && r.value.ipAddress == Read(fields, IpAddress) && r.value.userAgent == Read(fields, UserAgent)
                  && r.value.metadataJson == Read(fields, MetadataJson)
                  && Some(r.value.createdAt)
                     == if Read(fields, CreatedAt) == "" then Some(ZERO_TIME) else tt.parse(Read(fields, CreatedAt)))
  {
    hide Read, ParseInt64;
  }

  /** The fields `moveToDLQ` appends for a message. The message's own fields win
      over the ones describing the failure; a decoded event has its id and retry
      count written last. */
  function DeadLetter(messageId: string, failedAt: string, error: string, fields: Fields,
                      event: Option<Event>, retries: int): (dlq: Fields)
  {
    var failure := map[StreamMessageId := messageId, FailedAt := failedAt, Cause := Trim(error),
                       Malformed := if event.None? then "true" else "false"];
    var all := failure + fields;
    if event.None? then all
    else all[EventId := event.value.eventId][RetryCount := FormatInt(retries)]
  }

  /** The value of a field the message does not have itself. */
  predicate Adds(dlq: Fields, fields: Fields, key: Key, text: string)
  {
    key !in fields ==> key in dlq && dlq[key] == text
  }

  /** A dead letter adds where the message came from, when and why it failed, and whether
      it could be read, to a message that does not say so itself. Of a message that could
      be read it records the event id and the retry count; all else stays. */
  lemma LetterFields(messageId: string, failedAt: string, error: string, fields: Fields, event: Option<Event>,
                     retries: int)
    ensures var dlq := DeadLetter(messageId, failedAt, error, fields, event, retries);
            && Adds(dlq, fields, StreamMessageId, messageId) && Adds(dlq, fields, FailedAt, failedAt)
            && Adds(dlq, fields, Cause, Trim(error))
            && Adds(dlq, fields, Malformed, if event.None? then "true" else "false")
            && (forall k :: k in fields && (event.None? || (!k.EventId? && !k.RetryCount?)) ==>
                  k in dlq && dlq[k] == fields[k])
            && (event.Some? ==>
                  && EventId in dlq && dlq[EventId] == event.value.eventId
                  && RetryCount in dlq && dlq[RetryCount] == FormatInt(retries))
  {
    hide Trim, FormatInt;
  }

  /** What the replay tool appends to the main stream for a dead letter; nothing
      when the event id or type is blank. */
  function Replayed(dlq: Fields): (r: Option<Fields>)
    ensures r.Some? <==> Read(dlq, EventId) != "" && Read(dlq, EventType) != ""
    ensures r.Some? ==> forall k :: IsEventKey(k) ==> k in r.value && r.value[k] == Get(dlq, k)
  {
    if Read(dlq, EventId) == "" || Read(dlq, EventType) == "" then None
    else Some(map k | k in EVENT_KEYS :: Get(dlq, k))
  }

  /** The event a message carries, if it can be read. */
  function Carried(tt: TimeText, fields: Fields): Option<Event>
  {
    match Decode(tt, fields) case Ok(e) => Some(e) case Err(_) => None
  }

  /** A dead letter keeps the ten fields of the message it came from. */
  lemma DeadLetterKeepsEventKeys(tt: TimeText, messageId: string, failedAt: string, error: string, fields: Fields,
                                 retries: int, k: Key)
    requires IsEventKey(k)
    ensures Read(DeadLetter(messageId, failedAt, error, fields, Carried(tt, fields), retries), k) == Read(fields, k)
  {
    hide Trim, FormatInt, ParseId, IsSpace, Trimmed;
    var dlq := DeadLetter(messageId, failedAt, error, fields, Carried(tt, fields), retries);
    if k == EventId && Carried(tt, fields).Some? {
      ReadWritten(dlq, EventId, Read(fields, EventId));
    } else {
      assert k in dlq <==> k in fields;
    }
  }

  lemma ReplayKeepsEventKeys(dlq: Fields, k: Key)
    requires IsEventKey(k) && Replayed(dlq).Some?
    ensures Read(Replayed(dlq).value, k) == Read(dlq, k)
  {
    hide Trim;
    hide Replayed;
    var replay := Replayed(dlq);
    assert Get(replay.value, k) == Get(dlq, k);
  }

  lemma SameReads(a: Fields, b: Fields)
    requires forall k :: IsEventKey(k) ==> Read(a, k) == Read(b, k)
    ensures ReadAll(a) == ReadAll(b)
  {
    hide Read;
  }

  /** Through the dead-letter stream and the replay tool, every message decodes to
      what it decoded to before, valid or not; the tool drops exactly those
      messages that lack an id or a type. */
  lemma DecodeAfterReplay(tt: TimeText, messageId: string, failedAt: string, error: string, fields: Fields,
                          retries: int)
    ensures var replay := Replayed(DeadLetter(messageId, failedAt, error, fields, Carried(tt, fields), retries));
            if Decode(tt, fields) == Err(MissingField) then replay.None?
            else replay.Some? && Decode(tt, replay.value) == Decode(tt, fields)
  {
    hide Read, Replayed, ParseId, DeadLetter, Carried;
    var dlq := DeadLetter(messageId, failedAt, error, fields, Carried(tt, fields), retries);
    forall k | IsEventKey(k)
      ensures Read(dlq, k) == Read(fields, k)
    {
      DeadLetterKeepsEventKeys(tt, messageId, failedAt, error, fields, retries, k);
    }
    SameReads(dlq, fields);
    var replay := Replayed(dlq);
    if replay.Some? {
      forall k | IsEventKey(k)
        ensures Read(replay.value, k) == Read(dlq, k)
      {
        ReplayKeepsEventKeys(dlq, k);
      }
      SameReads(replay.value, dlq);
    }
  }
}
