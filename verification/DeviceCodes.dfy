/** The device authorization grant: the Redis record of a device code, and the
    token requests that poll it concurrently. */
module DeviceCodes {
  import opened Clock
  import opened Wrappers

  /** The values the service writes to the status field; `Absent` is a hash
      without the field, which the token endpoint treats like pending. */
  datatype Status = Absent | Pending | Approved | Denied | Consumed

  /** The hash under one device key. A field the hash does not hold reads as the
      empty string, the zero time or 0. */
  datatype Record = Record(clientId: string, status: Status, userId: string, subject: string,
                           expiresAt: Instant, lastPolledAt: Instant, interval: int)

  const EMPTY_RECORD := Record("", Absent, "", "", ZERO_TIME, ZERO_TIME, 0)

  /** HSET writes into the hash, creating it when the key is gone. */
  function Target(code: Option<Record>): (r: Record)
  {
    code.GetOr(EMPTY_RECORD)
  }

  function ApprovedBy(code: Option<Record>, userId: string, subject: string): Record
  {
    Target(code).(status := Approved, userId := userId, subject := subject)
  }

  function DeniedOf(code: Option<Record>): Record
  {
    Target(code).(status := Denied)
  }

  function ConsumedOf(code: Option<Record>): Record
  {
    Target(code).(status := Consumed)
  }

  /** Nothing but the decision differs. */
  predicate SameCode(a: Record, b: Record)
  {
    && a.clientId == b.clientId && a.expiresAt == b.expiresAt
    && a.lastPolledAt == b.lastPolledAt && a.interval == b.interval
  }

  predicate PollAllowed(code: Option<Record>, polledAt: Instant, minInterval: Duration)
  {
    && code.Some?
    && (code.value.lastPolledAt == ZERO_TIME || code.value.lastPolledAt + minInterval <= polledAt)
  }

  function Touched(code: Option<Record>, polledAt: Instant, minInterval: Duration): Option<Record>
  {
    if PollAllowed(code, polledAt, minInterval)
    then Some(code.value.(lastPolledAt := WholeSecond(polledAt)))
    else code
  }

  function Lookup<V>(m: map<string, V>, key: string): (r: Option<V>)
    ensures r.Some? <==> key in m
    ensures key in m ==> r == Some(m[key])
  {
    if key in m then Some(m[key]) else None
  }

  /** The repository over Redis: records by device code, and the index from user
      code to device code. `Save` and `TouchPoll` are one transaction each and
      `MarkConsumed` one command; looking a record up by its user code takes two
      commands, and so the decisions take three, here without others in between. */
  class DeviceCodeRepository {
    var codes: map<string, Record>
    var userCodes: map<string, string>

    constructor ()
      ensures codes == map[] && userCodes == map[]
    {
      codes, userCodes := map[], map[];
    }

    method Save(deviceCode: string, userCode: string, entry: Record)
      modifies this
      ensures codes == old(codes)[deviceCode := entry.(expiresAt := WholeSecond(entry.expiresAt),
                                                       lastPolledAt := WholeSecond(entry.lastPolledAt))]
      ensures userCodes == old(userCodes)[userCode := deviceCode]
    {
      codes := codes[deviceCode := entry.(expiresAt := WholeSecond(entry.expiresAt),
                                          lastPolledAt := WholeSecond(entry.lastPolledAt))];
      userCodes := userCodes[userCode := deviceCode];
    }

    method GetByUserCode(userCode: string) returns (found: Option<(string, Record)>)
      ensures found.Some? <==> userCode in userCodes && userCodes[userCode] in codes
      ensures found.Some? ==> found.value == (userCodes[userCode], codes[userCodes[userCode]])
    {
      if userCode !in userCodes {
        return None;
      }
      var deviceCode := userCodes[userCode];
      if deviceCode !in codes {
        return None;
      }
      return Some((deviceCode, codes[deviceCode]));
    }

    /** A missing code is not an error: nothing is written and nothing reported. */
    method Approve(userCode: string, userId: string, subject: string)
      modifies this`codes
      ensures userCode in userCodes && userCodes[userCode] in old(codes) ==>
                var k := userCodes[userCode];
                && k in codes && codes == old(codes)[k := codes[k]]
                && codes[k].status == Approved && codes[k].userId == userId && codes[k].subject == subject
                && SameCode(old(codes)[k], codes[k])
      ensures !(userCode in userCodes && userCodes[userCode] in old(codes)) ==> codes == old(codes)
    {
      var found := GetByUserCode(userCode);
      if found.Some? {
        var (deviceCode, record) := found.value;
        codes := codes[deviceCode := ApprovedBy(Some(record), userId, subject)];
      }
    }

    method Deny(userCode: string)
      modifies this`codes
      ensures userCode in userCodes && userCodes[userCode] in old(codes) ==>
                var k := userCodes[userCode];
                && k in codes && codes == old(codes)[k := codes[k]]
                && codes[k].status == Denied
                && codes[k].userId == old(codes)[k].userId && codes[k].subject == old(codes)[k].subject
                && SameCode(old(codes)[k], codes[k])
      ensures !(userCode in userCodes && userCodes[userCode] in old(codes)) ==> codes == old(codes)
    {
      var found := GetByUserCode(userCode);
      if found.Some? {
        var (deviceCode, record) := found.value;
        codes := codes[deviceCode := DeniedOf(Some(record))];
      }
    }

    method MarkConsumed(deviceCode: string)
      modifies this`codes
      ensures deviceCode in codes && codes == old(codes)[deviceCode := codes[deviceCode]]
      ensures codes[deviceCode].status == Consumed
      ensures var was := if deviceCode in old(codes) then old(codes)[deviceCode] else EMPTY_RECORD;
              && codes[deviceCode].userId == was.userId && codes[deviceCode].subject == was.subject
              && SameCode(was, codes[deviceCode])
    {
      codes := codes[deviceCode := ConsumedOf(Lookup(codes, deviceCode))];
    }

    /** The WATCH block, when no other write interferes with it. */
    method TouchPoll(deviceCode: string, polledAt: Instant, minInterval: Duration) returns (allowed: bool)
      modifies this`codes
      ensures allowed == PollAllowed(Lookup(old(codes), deviceCode), polledAt, minInterval)
      ensures Lookup(codes, deviceCode) == Touched(Lookup(old(codes), deviceCode), polledAt, minInterval)
      ensures forall k :: k != deviceCode ==> Lookup(codes, k) == Lookup(old(codes), k)
    {
      if deviceCode !in codes {
        return false;
      }
      var last := codes[deviceCode].lastPolledAt;
      if last != ZERO_TIME && polledAt < last + minInterval {
        return false;
      }
      codes := codes[deviceCode := codes[deviceCode].(lastPolledAt := WholeSecond(polledAt))];
      return true;
    }
  }

  // ---------------------------------------------------------------------------
  // Poll budget
  // ---------------------------------------------------------------------------

  /** The record and the number of allowed polls after polls at the given times,
      in the order Redis serves them; the times need not be ordered. */
  function PollAll(r: Record, interval: Duration, times: seq<Instant>): (Record, nat)
  {
    if times == [] then (r, 0)
    else
      var (before, n) := PollAll(r, interval, times[..|times| - 1]);
      var t := times[|times| - 1];
      (Touched(Some(before), t, interval).value, if PollAllowed(Some(before), t, interval) then n + 1 else n)
  }

  /** Every allowed poll but the first raises the stored time by at least the interval;
      a refused poll leaves it alone. */
  lemma AllowedPollAdvances(before: Record, interval: Duration, t: Instant)
    requires WholeSecond(interval) == interval && WholeSecond(before.lastPolledAt) == before.lastPolledAt != ZERO_TIME
    ensures var after := Touched(Some(before), t, interval).value;
            if PollAllowed(Some(before), t, interval)
            then before.lastPolledAt + interval <= after.lastPolledAt <= t
            else after == before
  {
    if PollAllowed(Some(before), t, interval) {
      WholeSecondFloor(before.lastPolledAt + interval, t);
    }
  }

  lemma OnePollIsSpaced(before: Record, n: nat, interval: Duration, t: Instant, from: Instant)
    requires 0 <= WholeSecond(interval) == interval
    requires ZERO_TIME < WholeSecond(from) == from <= t
    requires PollAllowed(Some(before), t, interval)
    requires if n == 0 then before.lastPolledAt == ZERO_TIME
             else before.lastPolledAt >= from + (n - 1) * interval
                  && WholeSecond(before.lastPolledAt) == before.lastPolledAt > ZERO_TIME
    ensures WholeSecond(t) >= from + n * interval
  {
    WholeSecondFloor(from, t);
    if n > 0 {
      WholeSecondFloor(before.lastPolledAt + interval, t);
      assert n * interval == (n - 1) * interval + interval;
    }
  }

  /** After n allowed polls the stored time lies n - 1 intervals after the first poll,
      whatever the caller's clock does. */
  lemma {:induction false} PollsAreSpaced(r: Record, interval: Duration, times: seq<Instant>, from: Instant)
    requires r.lastPolledAt == ZERO_TIME
    requires 0 <= WholeSecond(interval) == interval
    requires ZERO_TIME < WholeSecond(from) == from
    requires forall i :: 0 <= i < |times| ==> from <= times[i]
    ensures var (after, n) := PollAll(r, interval, times);
            if n == 0 then after.lastPolledAt == ZERO_TIME
            else after.lastPolledAt >= from + (n - 1) * interval
                 && WholeSecond(after.lastPolledAt) == after.lastPolledAt > ZERO_TIME
  {
    if times != [] {
      var init := times[..|times| - 1];
      PollsAreSpaced(r, interval, init, from);
      var (before, n) := PollAll(r, interval, init);
      var t := times[|times| - 1];
      if PollAllowed(Some(before), t, interval) {
        OnePollIsSpaced(before, n, interval, t, from);
      }
    }
  }

  /** No allowed poll is stored after the latest poll time. */
  lemma {:induction false} StoredPollIsBounded(r: Record, interval: Duration, times: seq<Instant>, until: Instant)
    requires r.lastPolledAt == ZERO_TIME
    requires forall i :: 0 <= i < |times| ==> times[i] <= until
    ensures var (after, n) := PollAll(r, interval, times); n > 0 ==> after.lastPolledAt <= until
  {
    if times != [] {
      StoredPollIsBounded(r, interval, times[..|times| - 1], until);
    }
  }

  lemma SpacedCount(n: nat, interval: Duration, total: Duration)
    requires interval > 0 && total >= 0
    requires (n - 1) * interval <= total
    ensures n <= total / interval + 1
  {
    var q := total / interval;
    assert n - 1 >= q + 1 ==> (n - 1) * interval >= (q + 1) * interval;
  }

  /** A code whose polls all fall within a span of `total` admits at most
      total / interval + 1 of them. */
  lemma PollBudget(r: Record, interval: Duration, times: seq<Instant>, from: Instant, total: Duration)
    requires r.lastPolledAt == ZERO_TIME
    requires 0 < WholeSecond(interval) == interval && total >= 0
    requires ZERO_TIME < WholeSecond(from) == from
    requires forall i :: 0 <= i < |times| ==> from <= times[i] <= from + total
    ensures PollAll(r, interval, times).1 <= total / interval + 1
  {
    PollsAreSpaced(r, interval, times, from);
    StoredPollIsBounded(r, interval, times, from + total);
    var n := PollAll(r, interval, times).1;
    if n > 0 {
      SpacedCount(n, interval, total);
    }
  }
}
