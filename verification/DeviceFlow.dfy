/** Concurrent token requests for one device code. A request reads the record,
    touches the poll time, and, when the record it read was approved, issues
    tokens and marks the code consumed. Any number of requests interleave between
    these commands; a request that fails or is abandoned takes no further step. */
module DeviceFlow {
  import opened Clock
  import opened Wrappers
  import opened DeviceCodes

  /** A token request; `stamp` is the poll time as the record stores it. */
  datatype Request =
    | Loaded(entry: Record, readAt: Instant)
    | Polled(entry: Record, readAt: Instant, polledAt: Instant, stamp: Instant)
    | Returned(entry: Record, readAt: Instant, polledAt: Instant, stamp: Instant, markedAt: Instant)
    | Rejected

  datatype State = State(now: Instant, code: Option<Record>, decided: bool, requests: map<nat, Request>)

  datatype Action =
    | Tick(elapsed: nat)
    | Load(id: nat, client: string)
    | Poll(id: nat, checkedAt: Instant, polledAt: Instant)
    | Finish(id: nat)
    | Decide(approve: bool, userId: string, subject: string)
    | Evict

  /** A code just saved by `Start`: pending, never polled. */
  predicate Fresh(s: State)
  {
    && s.now >= ZERO_TIME + SECOND
    && s.code.Some?
    && s.code.value.status == Pending
    && s.code.value.lastPolledAt == ZERO_TIME
    && s.code.value.expiresAt > ZERO_TIME
    && !s.decided
    && s.requests == map[]
  }

  /** One command. An action whose guard does not hold changes nothing. */
  function Apply(s: State, a: Action): State
  {
    match a
    case Tick(elapsed) => s.(now := s.now + elapsed)
    case Load(id, client) =>
      if id in s.requests then s
      else if s.code.None? || s.code.value.clientId != client then s.(requests := s.requests[id := Rejected])
      else s.(requests := s.requests[id := Loaded(s.code.value, s.now)])
    case Poll(id, checkedAt, polledAt) =>
      if id !in s.requests || !s.requests[id].Loaded? then s
      else if !(s.requests[id].readAt <= checkedAt <= polledAt <= s.now) then s
      else PollStep(s, id, s.requests[id].entry, checkedAt, polledAt)
    case Finish(id) =>
      if id !in s.requests || !s.requests[id].Polled? then s
      else
        var q := s.requests[id];
        s.(code := Some(ConsumedOf(s.code)),
           requests := s.requests[id := Returned(q.entry, q.readAt, q.polledAt, q.stamp, s.now)])
    case Decide(approve, userId, subject) =>
      s.(code := Some(if approve then ApprovedBy(s.code, userId, subject) else DeniedOf(s.code)), decided := true)
    case Evict => s.(code := None)
  }

  function PollStep(s: State, id: nat, entry: Record, checkedAt: Instant, polledAt: Instant): State
    requires id in s.requests && s.requests[id].Loaded?
  {
    if entry.expiresAt <= checkedAt then s.(requests := s.requests[id := Rejected])
    else
      var minInterval := Seconds(entry.interval);
      var allowed := PollAllowed(s.code, polledAt, minInterval);
      var next := if allowed && entry.status == Approved
                  then Polled(entry, s.requests[id].readAt, polledAt, WholeSecond(polledAt)) else Rejected;
      s.(code := Touched(s.code, polledAt, minInterval), requests := s.requests[id := next])
  }

  function Run(s: State, actions: seq<Action>): State
  {
    if actions == [] then s else Apply(Run(s, actions[..|actions| - 1]), actions[|actions| - 1])
  }

  /** What a run is assumed to respect: the user decides once, the key outlives
      the expiry written in it, and a request that returns tokens takes at most `d`. */
  predicate Prompt(s: State, a: Action, d: Duration)
  {
    match a
    case Decide(_, _, _) => !s.decided
    case Evict => s.code.Some? ==> s.code.value.expiresAt <= s.now
    case Finish(id) => id in s.requests && s.requests[id].Polled? ==> s.now - s.requests[id].readAt <= d
    case _ => true
  }

  /** A request that returns tokens marks the code before it expires. */
  predicate BeforeExpiry(s: State, a: Action)
  {
    a.Finish? && a.id in s.requests && s.requests[a.id].Polled? ==> s.now < s.requests[a.id].entry.expiresAt
  }

  /** `early` is whether codes are marked before they expire. */
  predicate Timely(s: State, a: Action, d: Duration, early: bool)
  {
    Prompt(s, a, d) && (early ==> BeforeExpiry(s, a))
  }

  predicate TimelyRun(s: State, actions: seq<Action>, d: Duration, early: bool)
  {
    forall k :: 0 <= k < |actions| ==> Timely(Run(s, actions[..k]), actions[k], d, early)
  }

  // ---------------------------------------------------------------------------
  // Invariant
  // ---------------------------------------------------------------------------

  predicate HasPolled(q: Request)
  {
    q.Polled? || q.Returned?
  }

  /** The times of one request are ordered, and what it read is the code. */
  predicate RequestOk(s: State, expiry: Instant, interval: int, q: Request)
  {
    && (!q.Rejected? ==> ZERO_TIME + SECOND <= q.readAt <= s.now)
    && (HasPolled(q) ==> q.readAt <= q.polledAt <= s.now && q.stamp <= q.polledAt < q.stamp + SECOND
                         && q.entry.status == Approved && s.decided
                         && q.entry.expiresAt == expiry && q.entry.interval == interval)
    && (q.Returned? ==> q.polledAt <= q.markedAt <= s.now
                        && 2 * (q.markedAt - q.readAt) <= Seconds(interval - 1))
    && (q.Loaded? && q.entry.status == Approved ==> s.decided)
    && (q.Loaded? ==> q.entry.expiresAt <= ZERO_TIME
                      || (q.entry.expiresAt == expiry && q.entry.interval == interval))
  }

  /** Two polls that were both allowed lie an interval apart, up to the fraction
      of a second the stored time loses. */
  predicate Spaced(interval: int, p: Request, q: Request)
    requires HasPolled(p) && HasPolled(q)
  {
    interval < 1 || p.stamp + Seconds(interval) <= q.polledAt || q.stamp + Seconds(interval) <= p.polledAt
  }

  predicate RequestsOk(s: State, expiry: Instant, interval: int)
  {
    forall i :: i in s.requests ==> RequestOk(s, expiry, interval, s.requests[i])
  }

  predicate PollsSpaced(s: State, interval: int)
  {
    forall i, j :: i in s.requests && j in s.requests && i != j && HasPolled(s.requests[i]) && HasPolled(s.requests[j])
                   ==> Spaced(interval, s.requests[i], s.requests[j])
  }

  /** A request that read an approved code did so before any code was consumed. */
  predicate ReadBeforeMark(s: State)
  {
    forall i, j :: i in s.requests && j in s.requests && i != j && s.requests[j].Returned?
                   && !s.requests[i].Rejected? && s.requests[i].entry.status == Approved
                   ==> s.requests[i].readAt <= s.requests[j].markedAt
  }

  /** The record while the key lives. */
  predicate RecordOk(s: State, expiry: Instant, interval: int)
  {
    && s.code.Some?
    && s.code.value.expiresAt == expiry && s.code.value.interval == interval
    && (!s.decided ==> s.code.value.status == Pending)
    && (forall i :: i in s.requests && s.requests[i].Returned? ==> s.code.value.status == Consumed)
    && (forall i :: i in s.requests && HasPolled(s.requests[i]) && interval >= 1 ==>
          s.code.value.lastPolledAt >= s.requests[i].stamp && s.code.value.lastPolledAt > ZERO_TIME)
    && WholeSecond(s.code.value.lastPolledAt) == s.code.value.lastPolledAt
  }

  predicate Live(s: State, expiry: Instant, interval: int)
  {
    RecordOk(s, expiry, interval) && PollsSpaced(s, interval) && ReadBeforeMark(s)
  }

  /** The key is gone for good: what is left of it can start no new request. */
  predicate Gone(s: State, expiry: Instant)
  {
    && expiry <= s.now
    && (s.code.Some? ==> s.code.value.expiresAt == ZERO_TIME
                         && (s.code.value.status == Approved ==> s.decided))
  }

  predicate Inv(s: State, expiry: Instant, interval: int)
  {
    && s.now >= ZERO_TIME + SECOND && expiry > ZERO_TIME
    && RequestsOk(s, expiry, interval)
    && (Live(s, expiry, interval) || Gone(s, expiry))
    && AtMostOneReturned(s)
  }

  predicate AtMostOneReturned(s: State)
  {
    forall i, j :: i in s.requests && j in s.requests && s.requests[i].Returned? && s.requests[j].Returned? ==> i == j
  }

  lemma TickPreserves(s: State, elapsed: nat, expiry: Instant, interval: int)
    requires Inv(s, expiry, interval)
    ensures Inv(Apply(s, Tick(elapsed)), expiry, interval)
  {
  }

  /** Only the request that took the step is new. */
  predicate Others(s: State, t: State, id: nat)
  {
    && t.requests.Keys == s.requests.Keys + {id}
    && forall i :: i in s.requests && i != id ==> t.requests[i] == s.requests[i]
  }

  lemma RequestsKeep(s: State, t: State, id: nat, expiry: Instant, interval: int)
    requires RequestsOk(s, expiry, interval) && Others(s, t, id)
    requires t.now == s.now && t.decided == s.decided
    requires RequestOk(t, expiry, interval, t.requests[id])
    ensures RequestsOk(t, expiry, interval)
  {
    assert forall i :: i in s.requests ==> RequestOk(s, expiry, interval, s.requests[i]);
  }

  /** A request that has only just read the code disturbs no other request. */
  lemma LoadRecord(s: State, id: nat, q: Request, expiry: Instant, interval: int)
    requires id !in s.requests && (q.Rejected? || (s.code.Some? && q == Loaded(s.code.value, s.now)))
    requires Live(s, expiry, interval)
    ensures Live(s.(requests := s.requests[id := q]), expiry, interval)
  {
  }

  lemma LoadPreserves(s: State, id: nat, client: string, expiry: Instant, interval: int)
    requires Inv(s, expiry, interval)
    ensures Inv(Apply(s, Load(id, client)), expiry, interval)
  {
    if id !in s.requests {
      var t := Apply(s, Load(id, client));
      RequestsKeep(s, t, id, expiry, interval);
      if Live(s, expiry, interval) {
        LoadRecord(s, id, t.requests[id], expiry, interval);
      }
    }
  }

  lemma PollReadsNothing(s: State, id: nat, entry: Record, checkedAt: Instant, polledAt: Instant)
    requires id in s.requests && s.requests[id].Loaded? && s.requests[id].entry == entry && ReadBeforeMark(s)
    ensures ReadBeforeMark(PollStep(s, id, entry, checkedAt, polledAt))
  {
    hide PollAllowed, WholeSecond, Touched;
  }

  /** An allowed poll comes an interval after every earlier one. */
  lemma PollSpacing(s: State, id: nat, entry: Record, checkedAt: Instant, polledAt: Instant, expiry: Instant,
                    interval: int)
    requires id in s.requests && s.requests[id].Loaded? && s.requests[id].entry == entry
    requires entry.expiresAt <= ZERO_TIME || entry.interval == interval
    requires ZERO_TIME + SECOND <= s.requests[id].readAt <= checkedAt <= polledAt <= s.now
    requires Live(s, expiry, interval)
    ensures Live(PollStep(s, id, entry, checkedAt, polledAt), expiry, interval)
  {
    PollReadsNothing(s, id, entry, checkedAt, polledAt);
    hide ReadBeforeMark;
    if entry.expiresAt > checkedAt {
      WholeSecondFloor(ZERO_TIME + SECOND, polledAt);
      var last := s.code.value.lastPolledAt;
      if PollAllowed(s.code, polledAt, Seconds(interval)) && last != ZERO_TIME {
        WholeSecondFloor(last + Seconds(interval), polledAt);
      }
    }
  }

  /** What the polling request itself becomes. */
  lemma PolledRequestOk(s: State, id: nat, checkedAt: Instant, polledAt: Instant, expiry: Instant, interval: int)
    requires id in s.requests && s.requests[id].Loaded? && s.requests[id].readAt <= checkedAt <= polledAt <= s.now
    requires RequestOk(s, expiry, interval, s.requests[id])
    ensures var t := PollStep(s, id, s.requests[id].entry, checkedAt, polledAt);
            Others(s, t, id) && RequestOk(t, expiry, interval, t.requests[id]) && !t.requests[id].Returned?
            && t.now == s.now && t.decided == s.decided
            && (Gone(s, expiry) ==> Gone(t, expiry))
  {
  }

  lemma PollPreserves(s: State, id: nat, checkedAt: Instant, polledAt: Instant, expiry: Instant, interval: int)
    requires Inv(s, expiry, interval)
    ensures Inv(Apply(s, Poll(id, checkedAt, polledAt)), expiry, interval)
  {
    if id in s.requests && s.requests[id].Loaded? && s.requests[id].readAt <= checkedAt <= polledAt <= s.now {
      var t := PollStep(s, id, s.requests[id].entry, checkedAt, polledAt);
      PolledRequestOk(s, id, checkedAt, polledAt, expiry, interval);
      RequestsKeep(s, t, id, expiry, interval);
      if Live(s, expiry, interval) {
        PollSpacing(s, id, s.requests[id].entry, checkedAt, polledAt, expiry, interval);
      }
    }
  }

  /** The heart of the argument. A request that read the code before another one
      marked it, and was allowed to poll although the other was, is already late. */
  lemma SecondRequestIsLate(interval: int, first: Request, second: Request, now: Instant)
    requires first.Returned? && second.Polled?
    requires first.readAt <= first.polledAt <= first.markedAt <= now
    requires second.readAt <= second.polledAt <= now
    requires 2 * (first.markedAt - first.readAt) <= Seconds(interval - 1)
    requires first.stamp <= first.polledAt < first.stamp + SECOND
    requires second.stamp <= second.polledAt < second.stamp + SECOND
    requires Spaced(interval, first, second)
    requires second.readAt <= first.markedAt
    ensures 2 * (now - second.readAt) > Seconds(interval - 1)
  {
  }

  lemma NoneReturnedBefore(s: State, id: nat, expiry: Instant, interval: int, d: Duration)
    requires Inv(s, expiry, interval) && Timely(s, Finish(id), d, true) && 2 * d <= Seconds(interval - 1)
    requires id in s.requests && s.requests[id].Polled?
    ensures RecordOk(s, expiry, interval)
    ensures forall other :: other in s.requests ==> !s.requests[other].Returned?
  {
    var q := s.requests[id];
    assert RequestOk(s, expiry, interval, q);
    forall other | other in s.requests
      ensures !s.requests[other].Returned?
    {
      if s.requests[other].Returned? {
        assert RequestOk(s, expiry, interval, s.requests[other]);
        SecondRequestIsLate(interval, s.requests[other], q, s.now);
      }
    }
  }

  lemma FinishPreserves(s: State, id: nat, expiry: Instant, interval: int, d: Duration)
    requires Inv(s, expiry, interval) && Timely(s, Finish(id), d, true) && 2 * d <= Seconds(interval - 1)
    ensures Inv(Apply(s, Finish(id)), expiry, interval)
  {
    if id in s.requests && s.requests[id].Polled? {
      NoneReturnedBefore(s, id, expiry, interval, d);
      assert RequestOk(s, expiry, interval, s.requests[id]);
    }
  }

  lemma DecidePreserves(s: State, a: Action, expiry: Instant, interval: int, d: Duration)
    requires a.Decide? || a.Evict?
    requires Inv(s, expiry, interval) && Timely(s, a, d, true) && 2 * d <= Seconds(interval - 1)
    ensures Inv(Apply(s, a), expiry, interval)
  {
  }

  lemma StepPreserves(s: State, a: Action, expiry: Instant, interval: int, d: Duration)
    requires Inv(s, expiry, interval) && Timely(s, a, d, true) && 2 * d <= Seconds(interval - 1)
    ensures Inv(Apply(s, a), expiry, interval)
  {
    match a
    case Tick(elapsed) => TickPreserves(s, elapsed, expiry, interval);
    case Load(id, client) => LoadPreserves(s, id, client, expiry, interval);
    case Poll(id, checkedAt, polledAt) => PollPreserves(s, id, checkedAt, polledAt, expiry, interval);
    case Finish(id) => FinishPreserves(s, id, expiry, interval, d);
    case _ => DecidePreserves(s, a, expiry, interval, d);
  }

  /** When requests take at most half of (interval - 1s) and mark the code before it
      expires, at most one request ever returns tokens, in every run. */
  lemma {:induction false} AtMostOneRequestReturnsTokens(s: State, actions: seq<Action>, d: Duration)
    requires Fresh(s) && TimelyRun(s, actions, d, true) && 2 * d <= Seconds(s.code.value.interval - 1)
    ensures AtMostOneReturned(Run(s, actions))
    ensures Inv(Run(s, actions), s.code.value.expiresAt, s.code.value.interval)
  {
    if actions != [] {
      var init := actions[..|actions| - 1];
      assert forall k :: 0 <= k < |init| ==> init[..k] == actions[..k];
      AtMostOneRequestReturnsTokens(s, init, d);
      StepPreserves(Run(s, init), actions[|actions| - 1], s.code.value.expiresAt, s.code.value.interval, d);
    }
  }

  /** `t` is reached from `s` by a timely run. */
  ghost predicate Reaches(s: State, t: State, d: Duration, early: bool)
  {
    exists actions :: TimelyRun(s, actions, d, early) && Run(s, actions) == t
  }

  lemma Stay(s: State, d: Duration, early: bool)
    ensures Reaches(s, s, d, early)
  {
    assert TimelyRun(s, [], d, early) && Run(s, []) == s;
  }

  lemma Extend(s: State, t: State, a: Action, d: Duration, early: bool)
    requires Reaches(s, t, d, early) && Timely(t, a, d, early)
    ensures Reaches(s, Apply(t, a), d, early)
  {
    hide Timely, Apply;
    var actions :| TimelyRun(s, actions, d, early) && Run(s, actions) == t;
    var longer := actions + [a];
    assert longer[..|actions|] == actions;
    assert forall k :: 0 <= k < |actions| ==> longer[..k] == actions[..k];
    assert TimelyRun(s, longer, d, early) && Run(s, longer) == Apply(t, a);
  }

  function ApprovedCode(s: State): Record
    requires s.code.Some?
  {
    ApprovedBy(s.code, "7", "alice")
  }

  /** The user approves a fresh code; some time passes; a request reads it. */
  lemma ApprovedAndRead(s: State, wait: nat, d: Duration, early: bool) returns (t: State)
    requires Fresh(s)
    ensures Reaches(s, t, d, early)
    ensures t == State(s.now + wait, Some(ApprovedCode(s)), true, map[0 := Loaded(ApprovedCode(s), s.now + wait)])
  {
    hide Reaches;
    Stay(s, d, early);
    Extend(s, s, Decide(true, "7", "alice"), d, early);
    t := Apply(s, Decide(true, "7", "alice"));
    Extend(s, t, Tick(wait), d, early);
    t := Apply(t, Tick(wait));
    Extend(s, t, Load(0, s.code.value.clientId), d, early);
    t := Apply(t, Load(0, s.code.value.clientId));
  }

  // ---------------------------------------------------------------------------
  // The bound is exact
  // ---------------------------------------------------------------------------

  /** The first request reads and polls in the last nanosecond of a second. */
  lemma FirstPolls(s: State, wait: nat, d: Duration) returns (t: State)
    requires Fresh(s) && (s.now + wait) - WholeSecond(s.now + wait) == 999_999_999
    requires s.now + wait < s.code.value.expiresAt
    ensures Reaches(s, t, d, true)
    ensures var now := s.now + wait;
            var touched := ApprovedCode(s).(lastPolledAt := now - 999_999_999);
            t == State(now, Some(touched), true, map[0 := Polled(ApprovedCode(s), now, now, now - 999_999_999)])
  {
    hide Reaches, WholeSecond;
    t := ApprovedAndRead(s, wait, d, true);
    var now := s.now + wait;
    Extend(s, t, Poll(0, now, now), d, true);
    t := Apply(t, Poll(0, now, now));
  }

  /** The second request reads just before the first one marks the code. */
  lemma SecondReads(s: State, p: State, m: nat, d: Duration) returns (t: State)
    requires Reaches(s, p, d, true) && p.code.Some? && m <= d
    requires p.requests.Keys == {0} && p.requests[0].Polled? && p.requests[0].readAt == p.now
    requires p.now + m < p.requests[0].entry.expiresAt
    ensures Reaches(s, t, d, true) && t.now == p.now + m && t.code == Some(ConsumedOf(p.code))
    ensures t.requests.Keys == {0, 1} && t.requests[0].Returned? && t.requests[1] == Loaded(p.code.value, p.now + m)
  {
    hide Reaches;
    Extend(s, p, Tick(m), d, true);
    t := Apply(p, Tick(m));
    Extend(s, t, Load(1, p.code.value.clientId), d, true);
    t := Apply(t, Load(1, p.code.value.clientId));
    Extend(s, t, Finish(0), d, true);
    t := Apply(t, Finish(0));
  }

  /** It polls once the interval has passed for the stored time of the first poll, and
      returns tokens too. */
  lemma SecondReturns(s: State, p: State, e: nat, d: Duration) returns (t: State)
    requires Reaches(s, p, d, true) && e <= d && p.requests.Keys == {0, 1} && p.requests[0].Returned?
    requires p.requests[1].Loaded? && p.requests[1].readAt == p.now && p.requests[1].entry.status == Approved
    requires p.now + e < p.requests[1].entry.expiresAt
    requires PollAllowed(p.code, p.now + e, Seconds(p.requests[1].entry.interval))
    ensures Reaches(s, t, d, true) && !AtMostOneReturned(t)
  {
    hide Reaches, PollAllowed, WholeSecond;
    var now := p.now + e;
    Extend(s, p, Tick(e), d, true);
    t := Apply(p, Tick(e));
    Extend(s, t, Poll(1, now, now), d, true);
    t := Apply(t, Poll(1, now, now));
    Extend(s, t, Finish(1), d, true);
    t := Apply(t, Finish(1));
    assert t.requests[0].Returned? && t.requests[1].Returned?;
  }

  /** Any longer bound lets two requests return tokens, for every fresh code with time
      left for them. */
  lemma BoundIsTight(s: State, d: nat) returns (t: State)
    requires Fresh(s) && 2 * d > Seconds(s.code.value.interval - 1)
    requires s.now + SECOND + 2 * d < s.code.value.expiresAt
    ensures Reaches(s, t, d, true) && !AtMostOneReturned(t)
  {
    hide Reaches;
    var wait := WholeSecond(s.now) + 999_999_999 - s.now;
    assert WholeSecond(s.now + wait) == WholeSecond(s.now);
    var gap := Seconds(s.code.value.interval - 1) + 1;
    var m := if gap > d then d else 0;
    var e := if gap - m > 0 then gap - m else 0;
    hide WholeSecond;
    t := FirstPolls(s, wait, d);
    t := SecondReads(s, t, m, d);
    t := SecondReturns(s, t, e, d);
  }

  ghost predicate AlwaysAtMostOne(interval: int, d: Duration)
  {
    forall s, actions :: Fresh(s) && s.code.value.interval == interval && TimelyRun(s, actions, d, true) ==>
                           AtMostOneReturned(Run(s, actions))
  }

  /** Half of (interval - 1s) is exactly how long a request may take. */
  lemma AtMostOneExactly(interval: int, d: nat)
    ensures AlwaysAtMostOne(interval, d) <==> 2 * d <= Seconds(interval - 1)
  {
    hide Inv, AtMostOneReturned;
    if 2 * d <= Seconds(interval - 1) {
      forall s, actions | Fresh(s) && s.code.value.interval == interval && TimelyRun(s, actions, d, true)
        ensures AtMostOneReturned(Run(s, actions))
      {
        AtMostOneRequestReturnsTokens(s, actions, d);
      }
    } else {
      var s := State(0, Some(Record("tv", Pending, "", "", SECOND + 2 * d + 1, ZERO_TIME, interval)), false, map[]);
      var t := BoundIsTight(s, d);
      var actions :| TimelyRun(s, actions, d, true) && Run(s, actions) == t;
    }
  }

  // ---------------------------------------------------------------------------
  // The expiry race
  // ---------------------------------------------------------------------------

  /** Two requests read an approved code in the last nanosecond of its life. */
  lemma BothRead(s: State, d: Duration) returns (t: State)
    requires Fresh(s) && s.now < s.code.value.expiresAt
    ensures Reaches(s, t, d, false)
    ensures var now := s.code.value.expiresAt - 1;
            t == State(now, Some(ApprovedCode(s)), true,
                       map[0 := Loaded(ApprovedCode(s), now), 1 := Loaded(ApprovedCode(s), now)])
  {
    hide Reaches;
    t := ApprovedAndRead(s, s.code.value.expiresAt - 1 - s.now, d, false);
    Extend(s, t, Load(1, s.code.value.clientId), d, false);
    t := Apply(t, Load(1, s.code.value.clientId));
  }

  /** The first request marks the code just after the key expired. */
  lemma FirstReturns(s: State, both: State, d: nat) returns (t: State)
    requires Reaches(s, both, d, false) && d >= 1 && both.requests.Keys == {0, 1} && both.code.Some?
    requires both.now + 1 == both.code.value.expiresAt && both.code.value.lastPolledAt == ZERO_TIME
    requires both.code.value.status == Approved
    requires forall id :: id in both.requests ==> both.requests[id] == Loaded(both.code.value, both.now)
    ensures Reaches(s, t, d, false) && t.now == both.now + 1 && t.code == Some(EMPTY_RECORD.(status := Consumed))
    ensures t.requests.Keys == {0, 1} && t.requests[0].Returned? && t.requests[1] == both.requests[1]
  {
    hide Reaches, WholeSecond;
    var poll := Poll(0, both.now, both.now);
    Extend(s, both, poll, d, false);
    t := Apply(both, poll);
    Extend(s, t, Tick(1), d, false);
    t := Apply(t, Tick(1));
    Extend(s, t, Evict, d, false);
    t := Apply(t, Evict);
    Extend(s, t, Finish(0), d, false);
    t := Apply(t, Finish(0));
  }

  /** Short requests alone are not enough. For every fresh code, whatever its interval
      and expiry, and every bound on the length of a request but zero, a key that expires
      while requests are in flight lets two of them return tokens: marking the code
      brings back a record that was never polled. */
  lemma ExpiryRaceReturnsTokensTwice(s: State, d: nat) returns (t: State)
    requires Fresh(s) && s.now < s.code.value.expiresAt && d >= 1
    ensures Reaches(s, t, d, false) && !AtMostOneReturned(t)
  {
    hide Reaches, WholeSecond;
    var both := BothRead(s, d);
    t := FirstReturns(s, both, d);
    var poll := Poll(1, both.now, t.now);
    Extend(s, t, poll, d, false);
    t := Apply(t, poll);
    Extend(s, t, Finish(1), d, false);
    t := Apply(t, Finish(1));
    assert t.requests[0].Returned? && t.requests[1].Returned?;
  }
}
