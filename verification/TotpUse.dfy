/** One-time use of codes: a request captures the time, matches its code, and then
    reserves the matched step in Redis. Requests interleave between these steps. */
module TotpUse {
  import opened Clock
  import opened Wrappers
  import opened Totp

  const REPLAY_TTL: Duration := 120_000_000_000
  const WINDOW_SLACK: Duration := 30_000_000_000

  datatype Purpose = Login | Enrollment

  datatype Key = Key(userId: string, purpose: Purpose, step: int)

  datatype Stage = Seen | Accepted(at: Instant) | Reused

  /** `seenAt` is the time the request captured before it matched the code. */
  datatype Request = Request(key: Key, seenAt: Instant, stage: Stage)

  /** `used` maps each reserved step to the time its key expires. */
  datatype State = State(now: Instant, used: map<Key, Instant>, requests: map<nat, Request>)

  datatype Action =
    | Tick(elapsed: nat)
    | Verify(id: nat, userId: string, purpose: Purpose, secret: string, code: string)
    | Reserve(id: nat)

  /** SET NX with an expiry. */
  predicate Free(used: map<Key, Instant>, key: Key, now: Instant)
  {
    key in used ==> used[key] <= now
  }

  class TotpStepStore {
    var used: map<Key, Instant>

    constructor ()
      ensures used == map[]
    {
      used := map[];
    }

    method ReserveTOTPStepUse(key: Key, ttl: Duration, now: Instant) returns (won: bool)
      modifies this
      ensures won <==> Free(old(used), key, now)
      ensures used == if won then old(used)[key := now + ttl] else old(used)
    {
      if key in used && now < used[key] {
        return false;
      }
      used := used[key := now + ttl];
      return true;
    }
  }

  ghost function Apply(crypto: Crypto, s: State, a: Action): State
    requires Lawful(crypto)
  {
    match a
    case Tick(elapsed) => s.(now := s.now + elapsed)
    case Verify(id, userId, purpose, secret, code) =>
      var step := Matched(crypto, secret, code, s.now);
      if id in s.requests || step.None? then s
      else s.(requests := s.requests[id := Request(Key(userId, purpose, step.value), s.now, Seen)])
    case Reserve(id) =>
      if id !in s.requests || !s.requests[id].stage.Seen? then s
      else
        var r := s.requests[id];
        if Free(s.used, r.key, s.now)
        then s.(used := s.used[r.key := s.now + REPLAY_TTL], requests := s.requests[id := r.(stage := Accepted(s.now))])
        else s.(requests := s.requests[id := r.(stage := Reused)])
  }

  ghost function Run(crypto: Crypto, s: State, actions: seq<Action>): State
    requires Lawful(crypto)
  {
    if actions == [] then s
    else Apply(crypto, Run(crypto, s, actions[..|actions| - 1]), actions[|actions| - 1])
  }

  /** A request reserves its step within `delay` of the time it captured. */
  predicate Prompt(s: State, a: Action, delay: Duration)
  {
    a.Reserve? && a.id in s.requests ==> s.now - s.requests[a.id].seenAt <= delay
  }

  ghost predicate PromptRun(crypto: Crypto, s: State, actions: seq<Action>, delay: Duration)
    requires Lawful(crypto)
  {
    forall k :: 0 <= k < |actions| ==> Prompt(Run(crypto, s, actions[..k]), actions[k], delay)
  }

  function Init(now: Instant): State
  {
    State(now, map[], map[])
  }

  // ---------------------------------------------------------------------------
  // Each step is accepted once
  // ---------------------------------------------------------------------------

  predicate Near(step: int, t: Instant)
  {
    StepAt(t) - 1 <= step <= StepAt(t) + 1
  }

  predicate RequestOk(s: State, r: Request)
  {
    && 0 <= r.seenAt <= s.now && Near(r.key.step, r.seenAt)
    && (r.stage.Accepted? ==>
          r.seenAt <= r.stage.at <= s.now && r.key in s.used && s.used[r.key] == r.stage.at + REPLAY_TTL)
  }

  predicate AcceptedOnce(s: State)
  {
    forall a, b :: a in s.requests && b in s.requests && a != b
                   && s.requests[a].stage.Accepted? && s.requests[b].stage.Accepted? ==>
                     s.requests[a].key != s.requests[b].key
  }

  predicate Inv(s: State)
  {
    s.now >= 0 && (forall id :: id in s.requests ==> RequestOk(s, s.requests[id])) && AcceptedOnce(s)
  }

  /** Two sightings of one step are less than three periods apart. */
  lemma WindowWidth(step: int, t: Instant, u: Instant)
    requires 0 <= t && 0 <= u && Near(step, t) && Near(step, u)
    ensures u - t < 90_000_000_000
  {
  }

  lemma ReservedStepIsNotFree(s: State, id: nat, other: nat)
    requires Inv(s) && id in s.requests && other in s.requests && s.now - s.requests[id].seenAt <= WINDOW_SLACK
    requires s.requests[other].stage.Accepted? && s.requests[other].key == s.requests[id].key
    ensures !Free(s.used, s.requests[id].key, s.now)
  {
    hide Near;
    assert RequestOk(s, s.requests[other]) && RequestOk(s, s.requests[id]);
    WindowWidth(s.requests[id].key.step, s.requests[other].seenAt, s.requests[id].seenAt);
  }

  lemma StepKeeps(crypto: Crypto, s: State, a: Action)
    requires Lawful(crypto) && Inv(s) && Prompt(s, a, WINDOW_SLACK)
    ensures Inv(Apply(crypto, s, a))
  {
    hide Near, Matched;
    match a
    case Tick(_) =>
    case Verify(id, userId, purpose, secret, code) =>
      MatchIsNear(crypto, secret, code, s.now);
      assert forall step :: StepAt(s.now) - 1 <= step <= StepAt(s.now) + 1 ==> Near(step, s.now) by {
        NearDef(s.now);
      }
    case Reserve(id) =>
      if id in s.requests && s.requests[id].stage.Seen? && Free(s.used, s.requests[id].key, s.now) {
        forall other | other in s.requests && s.requests[other].stage.Accepted?
          ensures s.requests[other].key != s.requests[id].key
        {
          if s.requests[other].key == s.requests[id].key {
            ReservedStepIsNotFree(s, id, other);
          }
        }
      }
  }

  lemma NearDef(t: Instant)
    ensures forall step :: StepAt(t) - 1 <= step <= StepAt(t) + 1 ==> Near(step, t)
  {
  }

  lemma {:induction false} RunKeeps(crypto: Crypto, now: Instant, actions: seq<Action>)
    requires Lawful(crypto) && now >= 0 && PromptRun(crypto, Init(now), actions, WINDOW_SLACK)
    ensures Inv(Run(crypto, Init(now), actions))
  {
    if actions != [] {
      hide Apply;
      var n := |actions| - 1;
      assert forall k :: 0 <= k < n ==> actions[..n][..k] == actions[..k];
      RunKeeps(crypto, now, actions[..n]);
      StepKeeps(crypto, Run(crypto, Init(now), actions[..n]), actions[n]);
    }
  }

  /** When requests reserve within 30 seconds of capturing the time, no (user, purpose,
      step) is accepted twice in any run. */
  lemma StepAcceptedOnce(crypto: Crypto, now: Instant, actions: seq<Action>, a: nat, b: nat)
    requires Lawful(crypto) && now >= 0 && PromptRun(crypto, Init(now), actions, WINDOW_SLACK)
    requires var s := Run(crypto, Init(now), actions);
             && a in s.requests && s.requests[a].stage.Accepted?
             && b in s.requests && s.requests[b].stage.Accepted?
             && s.requests[a].key == s.requests[b].key
    ensures a == b
  {
    RunKeeps(crypto, now, actions);
  }

  // ---------------------------------------------------------------------------
  // Budget
  // ---------------------------------------------------------------------------

  /** The accepted requests of a user whose captured time lies in an interval. */
  function AcceptedWithin(s: State, userId: string, purpose: Purpose, from: Instant, to: Instant): set<nat>
  {
    set id | id in s.requests
             && var r := s.requests[id];
                r.stage.Accepted? && r.key.userId == userId && r.key.purpose == purpose && from <= r.seenAt <= to
  }

  /** A set that maps one-to-one into an interval of integers is no larger than it. */
  lemma {:induction false} Pigeonhole(ids: set<nat>, f: map<nat, int>, lo: int, hi: int)
    requires forall id :: id in ids ==> id in f && lo <= f[id] <= hi
    requires forall a, b :: a in ids && b in ids && f[a] == f[b] ==> a == b
    ensures |ids| <= if hi < lo then 0 else hi - lo + 1
    decreases hi - lo
  {
    if ids != {} {
      if top :| top in ids && f[top] == hi {
        Pigeonhole(ids - {top}, f, lo, hi - 1);
      } else {
        Pigeonhole(ids, f, lo, hi - 1);
      }
    }
  }

  lemma StepsGrow(t: Instant, u: Instant)
    requires t <= u
    ensures StepAt(t) <= StepAt(u)
  {
  }

  /** One user completes at most ⌊b/30⌋ − ⌊a/30⌋ + 3 logins whose time lies in [a, b]. */
  lemma LoginBudget(crypto: Crypto, now: Instant, actions: seq<Action>, userId: string, purpose: Purpose,
                    from: Instant, to: Instant)
    requires Lawful(crypto) && now >= 0 && PromptRun(crypto, Init(now), actions, WINDOW_SLACK) && from <= to
    ensures |AcceptedWithin(Run(crypto, Init(now), actions), userId, purpose, from, to)|
            <= StepAt(to) - StepAt(from) + 3
  {
    RunKeeps(crypto, now, actions);
    BudgetOf(Run(crypto, Init(now), actions), userId, purpose, from, to);
  }

  lemma BudgetOf(s: State, userId: string, purpose: Purpose, from: Instant, to: Instant)
    requires Inv(s) && from <= to
    ensures |AcceptedWithin(s, userId, purpose, from, to)| <= StepAt(to) - StepAt(from) + 3
  {
    hide StepAt;
    var ids := AcceptedWithin(s, userId, purpose, from, to);
    var f := map id | id in s.requests :: s.requests[id].key.step;
    StepsGrow(from, to);
    forall id | id in ids
      ensures StepAt(from) - 1 <= f[id] <= StepAt(to) + 1
    {
      assert RequestOk(s, s.requests[id]);
      StepsGrow(from, s.requests[id].seenAt);
      StepsGrow(s.requests[id].seenAt, to);
    }
    Pigeonhole(ids, f, StepAt(from) - 1, StepAt(to) + 1);
  }

  // ---------------------------------------------------------------------------
  // Slower requests can reuse a step
  // ---------------------------------------------------------------------------

  const ZEROS: seq<Byte> := seq(20, _ => 0)

  /** A generator that tells step 2 apart from all others. */
  const SAMPLE := Crypto(_ => Some([0]), (_, counter) => if counter == 2 then ZEROS[3 := 1] else ZEROS)

  lemma SampleMatches(code: string, t: Instant)
    requires code == CodeAt(SAMPLE, [0], 2) && (t == 30_000_000_000 || t == 119_999_999_999)
    ensures Lawful(SAMPLE) && Matched(SAMPLE, "", code, t) == Some(2)
  {
    SampleCodes(code);
    hide CodeAt, Text.Trim, Text.Upper;
    assert StepAt(t) == if t == 30_000_000_000 then 1 else 3;
    MatchingIsFirst(SAMPLE, [0], code, StepAt(t) - 1, 3);
  }

  lemma SampleCode(step: int)
    ensures Lawful(SAMPLE) && CodeAt(SAMPLE, [0], step) == ZeroFilled(if step == 2 then 1 else 0, 6)
  {
    hide ZeroFilled;
    assert Truncated(ZEROS) == 0 && Truncated(ZEROS[3 := 1]) == 1;
  }

  lemma SampleCodes(code: string)
    requires code == CodeAt(SAMPLE, [0], 2)
    ensures Lawful(SAMPLE) && Text.Trim(code) == code
    ensures forall step :: step != 2 ==> CodeAt(SAMPLE, [0], step) != code
  {
    hide Text.Trim, CodeAt, ZeroFilled, Truncated;
    assert Pow10(6) == 1_000_000 by {
      assert Pow10(3) == 1000;
    }
    ZeroFilledIsExact(0, 6);
    ZeroFilledIsExact(1, 6);
    SampleCode(2);
    forall step | step != 2
      ensures CodeAt(SAMPLE, [0], step) != code
    {
      SampleCode(step);
    }
    assert Text.Trimmed(code);
  }

  ghost predicate Reaches(crypto: Crypto, s: State, t: State, delay: Duration)
    requires Lawful(crypto)
  {
    exists actions :: PromptRun(crypto, s, actions, delay) && Run(crypto, s, actions) == t
  }

  lemma Extend(crypto: Crypto, s: State, t: State, a: Action, delay: Duration)
    requires Lawful(crypto) && Reaches(crypto, s, t, delay) && Prompt(t, a, delay)
    ensures Reaches(crypto, s, Apply(crypto, t, a), delay)
  {
    hide Apply;
    var actions :| PromptRun(crypto, s, actions, delay) && Run(crypto, s, actions) == t;
    var longer := actions + [a];
    assert longer[..|actions|] == actions;
    assert forall k :: 0 <= k < |actions| ==> longer[..k] == actions[..k];
    assert PromptRun(crypto, s, longer, delay) && Run(crypto, s, longer) == Apply(crypto, t, a);
  }

  const START := State(30_000_000_000, map[], map[])

  lemma FirstSees(code: string, delay: Duration) returns (t: State)
    requires code == CodeAt(SAMPLE, [0], 2)
    ensures Lawful(SAMPLE) && Reaches(SAMPLE, START, t, delay)
    ensures t == State(30_000_000_000, map[], map[0 := Request(Key("1", Login, 2), 30_000_000_000, Seen)])
  {
    SampleMatches(code, 30_000_000_000);
    hide Matched, CodeAt, Reaches;
    Stay(SAMPLE, START, delay);
    Extend(SAMPLE, START, START, Verify(0, "1", Login, "", code), delay);
    t := Apply(SAMPLE, START, Verify(0, "1", Login, "", code));
  }

  /** The first request sees step 2 at 30 s and reserves it at once. */
  lemma FirstAccepts(code: string, delay: Duration) returns (t: State)
    requires code == CodeAt(SAMPLE, [0], 2) && delay > WINDOW_SLACK
    ensures Lawful(SAMPLE) && Reaches(SAMPLE, START, t, delay)
    ensures t == State(30_000_000_000, map[Key("1", Login, 2) := 150_000_000_000],
                       map[0 := Request(Key("1", Login, 2), 30_000_000_000, Accepted(30_000_000_000))])
  {
    hide Matched, CodeAt, Reaches;
    t := FirstSees(code, delay);
    Extend(SAMPLE, START, t, Reserve(0), delay);
    t := Apply(SAMPLE, t, Reserve(0));
  }

  /** The second sees step 2 one nanosecond before 120 s and is slow to reserve. */
  lemma SecondSees(code: string, delay: Duration) returns (t: State)
    requires code == CodeAt(SAMPLE, [0], 2) && delay > WINDOW_SLACK
    ensures Lawful(SAMPLE) && Reaches(SAMPLE, START, t, delay)
    ensures t == State(150_000_000_000, map[Key("1", Login, 2) := 150_000_000_000],
                       map[0 := Request(Key("1", Login, 2), 30_000_000_000, Accepted(30_000_000_000)),
                           1 := Request(Key("1", Login, 2), 119_999_999_999, Seen)])
  {
    SampleMatches(code, 119_999_999_999);
    hide Matched, CodeAt, Reaches;
    t := FirstAccepts(code, delay);
    Extend(SAMPLE, START, t, Tick(89_999_999_999), delay);
    t := Apply(SAMPLE, t, Tick(89_999_999_999));
    Extend(SAMPLE, START, t, Verify(1, "1", Login, "", code), delay);
    t := Apply(SAMPLE, t, Verify(1, "1", Login, "", code));
    Extend(SAMPLE, START, t, Tick(30_000_000_001), delay);
    t := Apply(SAMPLE, t, Tick(30_000_000_001));
  }

  lemma Stay(crypto: Crypto, s: State, delay: Duration)
    requires Lawful(crypto)
    ensures Reaches(crypto, s, s, delay)
  {
    assert PromptRun(crypto, s, [], delay) && Run(crypto, s, []) == s;
  }

  /** Thirty seconds is the exact limit: for any longer delay some run accepts one
      step twice. The second request captures the time at the very end of the window
      and reserves when the first reservation has just expired. */
  lemma SlowRequestReusesStep(delay: Duration) returns (t: State)
    requires delay > WINDOW_SLACK
    ensures Lawful(SAMPLE) && Reaches(SAMPLE, START, t, delay)
    ensures 0 in t.requests && 1 in t.requests
    ensures t.requests[0].stage.Accepted? && t.requests[1].stage.Accepted? && t.requests[0].key == t.requests[1].key
  {
    hide Matched, CodeAt, Reaches;
    SampleCode(2);
    t := SecondSees(CodeAt(SAMPLE, [0], 2), delay);
    Extend(SAMPLE, START, t, Reserve(1), delay);
    t := Apply(SAMPLE, t, Reserve(1));
  }
}
