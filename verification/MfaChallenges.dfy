/** The second login step: a short-lived challenge in Redis that a one-time code, a
    passkey or an approved push turns into a session. A challenge has two keys, a hash
    and a packed state with a version. Requests read them one after the other, do their
    own check, and write back or delete both; they interleave between these commands, and
    Redis may drop either key at any moment. */
module MfaChallenges {
  import opened Clock
  import opened Wrappers
  import opened Text
  import opened ChallengeMask
  import Decimal
  import Sessions
  import Totp
  import TotpUse

  /** The hash. `push` is the push status text. */
  datatype Hash = Hash(userId: int, expiresAt: Instant, mode: Mode, push: Decision, pushCode: string, passkey: string)

  /** The packed state, of which the decision bits and the version matter. */
  datatype Packed = Packed(decided: Decision, version: nat)

  datatype Slot = Slot(hash: Option<Hash>, packed: Option<Packed>)

  const GONE := Slot(None, None)

  const MAX_VERSION: nat := 0xFFFF_FFFF

  function NextVersion(version: nat): nat
  {
    if version + 1 > MAX_VERSION then 1 else version + 1
  }

  /** The decision bits: only push mode has them. */
  function DecisionOf(hash: Hash): Decision
  {
    if hash.mode.Push? then hash.push else Pending
  }

  /** A missing state key reads as version 0. */
  function VersionOf(slot: Slot): nat
  {
    if slot.packed.Some? then slot.packed.value.version else 0
  }

  /** The decision the save script holds on to: the bits of the state or, without a state
      key, the text of the hash. */
  function Standing(slot: Slot): Decision
  {
    if slot.packed.Some? then slot.packed.value.decided
    else if slot.hash.Some? then slot.hash.value.push
    else Pending
  }

  datatype SaveError = VersionConflict | InvalidTransition

  /** The save script: the version must be the one that was read, and a decision once
      taken is never rewritten. */
  function SaveOver(slot: Slot, hash: Hash, version: nat): Result<Slot, SaveError>
  {
    if VersionOf(slot) != version then Err(VersionConflict)
    else if !Standing(slot).Pending? && Standing(slot) != DecisionOf(hash) then Err(InvalidTransition)
    else Ok(Slot(Some(hash), Some(Packed(DecisionOf(hash), NextVersion(version)))))
  }

  function SlotOf(slots: map<string, Slot>, challenge: string): Slot
  {
    if challenge in slots then slots[challenge] else GONE
  }

  /** The challenge keys of Redis. */
  class MfaRepository {
    var slots: map<string, Slot>

    constructor ()
      ensures slots == map[]
    {
      slots := map[];
    }

    method SaveMFAChallenge(challenge: string, hash: Hash, version: nat) returns (err: Option<SaveError>)
      modifies this
      ensures match SaveOver(SlotOf(old(slots), challenge), hash, version)
              case Ok(saved) => err.None? && slots == old(slots)[challenge := saved]
              case Err(e) => err == Some(e) && slots == old(slots)
    {
      var slot := SlotOf(slots, challenge);
      var current: nat, standing := 0, Pending;
      if slot.packed.Some? {
        current, standing := slot.packed.value.version, slot.packed.value.decided;
      } else if slot.hash.Some? {
        standing := slot.hash.value.push;
      }
      if current != version {
        return Some(VersionConflict);
      }
      if !standing.Pending? && standing != DecisionOf(hash) {
        return Some(InvalidTransition);
      }
      var next := current + 1;
      if next > MAX_VERSION {
        next := 1;
      }
      slots := slots[challenge := Slot(Some(hash), Some(Packed(DecisionOf(hash), next)))];
      err := None;
    }

    /** Reads the hash, then the state, here with nothing in between: the version read is
        then the one a save needs, if the state key is there at all. */
    method GetMFAChallenge(challenge: string) returns (found: Option<(Hash, nat)>)
      ensures found.Some? <==> SlotOf(slots, challenge).hash.Some?
      ensures found.Some? ==>
                && found.value.0 == SlotOf(slots, challenge).hash.value
                && SaveOver(SlotOf(slots, challenge), found.value.0, found.value.1) != Err(VersionConflict)
    {
      var slot := SlotOf(slots, challenge);
      if slot.hash.None? {
        return None;
      }
      var version := 0;
      if slot.packed.Some? {
        version := slot.packed.value.version;
      }
      return Some((slot.hash.value, version));
    }

    /** Afterwards the challenge cannot be read, and a copy can be written back exactly
        if it was read without a state key; other challenges are left alone. */
    method DeleteMFAChallenge(challenge: string)
      modifies this
      ensures SlotOf(slots, challenge).hash.None?
      ensures forall hash, version: nat :: SaveOver(SlotOf(slots, challenge), hash, version).Ok? <==> version == 0
      ensures forall other :: other != challenge ==> SlotOf(slots, other) == SlotOf(old(slots), other)
    {
      slots := slots[challenge := GONE];
    }
  }

  // ---------------------------------------------------------------------------
  // The machine
  // ---------------------------------------------------------------------------

  datatype Op = OneTimeCode | PasskeyBegin | PasskeyFinish | PushDecide | PushFinish | ModeUpdate

  datatype Evidence = ReservedStep(step: int, at: Instant) | Assertion(session: string) | Approval

  /** `Reading` has read the hash but not the state; `Approving` has found the user of the
      session a push decision came with. `mark` is the number of the step in which the
      request deleted its challenge. */
  datatype Stage =
    | Reading
    | Loaded
    | Approving(approver: int)
    | Proved(evidence: Evidence)
    | Deleted(evidence: Evidence, mark: nat)
    | Issued(evidence: Evidence, mark: nat)
    | Finished
    | Failed

  /** A request with the time it captured, the hash it read and the number of the step in
      which it read it, the version it read, and, if it found no state key, the step that
      last removed one. `Issued` means a session for the user of the challenge,
      authenticated at the captured time. */
  datatype Request = Request(op: Op, challenge: string, seenAt: Instant, readAt: nat, hash: Hash, version: nat,
                             gap: Option<nat>, stage: Stage)

  /** How a challenge was created. */
  datatype Origin = Origin(userId: int, expiresAt: Instant, pushCode: string)

  /** Who approved a push, with which code, and in which mode the challenge was. */
  datatype Approver = Approver(userId: int, matchCode: string, mode: Mode)

  /** Bookkeeping: the number of steps so far, the first step that deleted each challenge,
      the last that removed its state key, the challenges that lost their state key and
      kept their hash, and those written back after they were deleted. */
  datatype Log = Log(steps: nat, deleted: map<string, nat>, removed: map<string, nat>, halved: set<string>,
                     revived: set<string>)

  /** `used` are the one-time steps reserved in Redis and when each reservation expires,
      `browsers` the sessions of the service. `origins` and `approvals` record how each
      challenge began and who approved it. */
  datatype State = State(now: Instant, slots: map<string, Slot>, requests: map<nat, Request>,
                         used: map<TotpUse.Key, Instant>, browsers: Sessions.State, origins: map<string, Origin>,
                         approvals: map<string, Approver>, log: Log)

  datatype Action =
    | Tick(elapsed: nat)
    | Browse(step: Sessions.Action)
    | Create(challenge: string, userId: int, mode: Mode, pushCode: string, ttl: Duration)
    | ReadHash(id: nat, challenge: string, op: Op, seenAt: Instant)
    | ReadState(id: nat)
    | Reserve(id: nat, secret: string, code: string)
    | FinishAssertion(id: nat)
    | BindPasskey(id: nat, session: string)
    | ChangeMode(id: nat, mode: Mode)
    | Resolve(id: nat, sessionId: string)
    | Decide(id: nat, approve: bool, matchCode: string)
    | Delete(id: nat)
    | IssueSession(id: nat)
    | Abandon(id: nat)
    | Lose(challenge: string, hash: bool, packed: bool)

  predicate At(s: State, id: nat, op: Op)
  {
    id in s.requests && s.requests[id].stage.Loaded? && s.requests[id].op == op
  }

  predicate AtDecision(s: State, id: nat)
  {
    id in s.requests && s.requests[id].stage.Approving?
  }

  function Moved(s: State, id: nat, stage: Stage): State
    requires id in s.requests
  {
    s.(requests := s.requests[id := s.requests[id].(stage := stage)])
  }

  /** Of the requests only `id` changed, and only its stage, short of deleting. */
  predicate OnlyStage(s: State, u: State, id: nat)
  {
    && id in s.requests && id in u.requests && !u.requests[id].stage.Reading?
    && !u.requests[id].stage.Deleted? && !u.requests[id].stage.Issued?
    && u.requests == s.requests[id := s.requests[id].(stage := u.requests[id].stage)]
  }

  /** The checks each operation makes; all they look at is in the hash. */
  predicate Admits(op: Op, hash: Hash)
  {
    && (op.PasskeyBegin? || op.PasskeyFinish? ==> hash.mode.Passkey?)
    && (op.PasskeyFinish? ==> Trim(hash.passkey) != "")
    && (op.PushDecide? ==> hash.mode.Push?)
    && (op.PushFinish? ==> hash.push.Approved?)
    && (!op.ModeUpdate? ==> hash.userId > 0)
  }

  function AfterReadHash(s: State, id: nat, challenge: string, op: Op, seenAt: Instant): (after: State)
    ensures after.origins == s.origins && after.slots == s.slots && after.log == s.log
    ensures after.approvals == s.approvals && after.browsers == s.browsers && after.now == s.now
  {
    var hash := SlotOf(s.slots, challenge).hash;
    if hash.None? || !(hash.value.expiresAt > seenAt) || !Admits(op, hash.value) then s
    else s.(requests := s.requests[id := Request(op, challenge, seenAt, s.log.steps, hash.value, 0, None, Reading)])
  }

  /** An approved push needs no further proof. */
  function AfterReadState(s: State, id: nat): (after: State)
    requires id in s.requests
    ensures after.origins == s.origins && after.slots == s.slots && after.log == s.log
    ensures after.approvals == s.approvals && after.browsers == s.browsers && after.now == s.now
  {
    var r := s.requests[id];
    var slot := SlotOf(s.slots, r.challenge);
    var gap := if slot.packed.None? && r.challenge in s.log.removed then Some(s.log.removed[r.challenge]) else None;
    var stage := if r.op.PushFinish? then Proved(Approval) else Loaded;
    s.(requests := s.requests[id := r.(version := VersionOf(slot), gap := gap, stage := stage)])
  }

  function KeyOf(userId: int, step: int): TotpUse.Key
  {
    TotpUse.Key(Decimal.FormatInt(userId), TotpUse.Login, step)
  }

  /** Matches the code at the captured time and reserves the step it stands for. */
  ghost function AfterReserve(crypto: Totp.Crypto, s: State, id: nat, secret: string, code: string): (after: State)
    requires Totp.Lawful(crypto) && id in s.requests
    ensures after.origins == s.origins && after.slots == s.slots && after.log == s.log
    ensures OnlyStage(s, after, id)
    ensures after.approvals == s.approvals && after.browsers == s.browsers && after.now == s.now
    ensures !after.requests[id].stage.Approving?
  {
    match Totp.Matched(crypto, secret, code, s.requests[id].seenAt)
    case None => Moved(s, id, Failed)
    case Some(step) => Reserved(s, id, step)
  }

  function Reserved(s: State, id: nat, step: int): (after: State)
    requires id in s.requests
    ensures after.origins == s.origins && after.slots == s.slots && after.log == s.log
    ensures OnlyStage(s, after, id)
    ensures after.approvals == s.approvals && after.browsers == s.browsers && after.now == s.now
    ensures !after.requests[id].stage.Approving?
  {
    var key := KeyOf(s.requests[id].hash.userId, step);
    if TotpUse.Free(s.used, key, s.now)
    then Moved(s.(used := s.used[key := s.now + TotpUse.REPLAY_TTL]), id, Proved(ReservedStep(step, s.now)))
    else Moved(s, id, Failed)
  }

  /** Writes a changed copy of the challenge that was read. */
  function AfterSave(s: State, id: nat, changed: Hash): (after: State)
    requires id in s.requests
    ensures after.origins == s.origins
    ensures OnlyStage(s, after, id) && (after.requests[id].stage.Finished? || after.requests[id].stage.Failed?)
    ensures after.approvals == s.approvals && after.browsers == s.browsers && after.now == s.now
  {
    var c := s.requests[id].challenge;
    match SaveOver(SlotOf(s.slots, c), changed, s.requests[id].version)
    case Err(_) => Moved(s, id, Failed)
    case Ok(saved) =>
      var revived := if SlotOf(s.slots, c) == GONE && c in s.log.deleted then s.log.revived + {c} else s.log.revived;
      Moved(s.(slots := s.slots[c := saved], log := s.log.(revived := revived)), id, Finished)
  }

  /** The user of the session that brings a push decision. */
  function AfterResolve(s: State, id: nat, sessionId: string): (after: State)
    requires id in s.requests
    ensures after.origins == s.origins && after.slots == s.slots && after.log == s.log
    ensures OnlyStage(s, after, id) && !after.requests[id].stage.Proved?
    ensures after.approvals == s.approvals && after.browsers == s.browsers && after.now == s.now
  {
    var user := if Trim(sessionId) == "" then None
                else Sessions.CacheFirstLookup(s.browsers.store, Trim(sessionId), s.now);
    if user == Some(s.requests[id].hash.userId) then Moved(s, id, Approving(user.value)) else Moved(s, id, Failed)
  }

  predicate CodeMatches(matchCode: string, hash: Hash)
  {
    Trim(matchCode) != "" && Trim(matchCode) == Trim(hash.pushCode)
  }

  /** A push decision; approving needs the code. */
  function AfterDecide(s: State, id: nat, approve: bool, matchCode: string): (after: State)
    requires AtDecision(s, id)
    ensures after.origins == s.origins
    ensures OnlyStage(s, after, id) && (after.requests[id].stage.Finished? || after.requests[id].stage.Failed?)
    ensures after.browsers == s.browsers && after.now == s.now
  {
    var r := s.requests[id];
    if approve && !CodeMatches(matchCode, r.hash) then Moved(s, id, Failed)
    else
      var u := AfterSave(s, id, r.hash.(push := if approve then Approved else Denied));
      if approve && u.requests[id].stage.Finished?
      then u.(approvals := u.approvals[r.challenge := Approver(r.stage.approver, matchCode, r.hash.mode)])
      else u
  }

  function AfterDelete(s: State, id: nat): (after: State)
    requires id in s.requests && s.requests[id].stage.Proved?
    ensures after.origins == s.origins
    ensures after.requests ==
            s.requests[id := s.requests[id].(stage := Deleted(s.requests[id].stage.evidence, s.log.steps))]
    ensures after.approvals == s.approvals && after.browsers == s.browsers && after.now == s.now
  {
    var c := s.requests[id].challenge;
    var deleted := if c in s.log.deleted then s.log.deleted else s.log.deleted[c := s.log.steps];
    Moved(s.(slots := s.slots[c := GONE],
             log := s.log.(deleted := deleted, removed := s.log.removed[c := s.log.steps])),
          id, Deleted(s.requests[id].stage.evidence, s.log.steps))
  }

  /** Redis drops keys, by expiry or otherwise. */
  function AfterLose(s: State, c: string, hash: bool, packed: bool): (after: State)
    ensures after.origins == s.origins && after.requests == s.requests
    ensures after.approvals == s.approvals && after.browsers == s.browsers && after.now == s.now
  {
    var before := SlotOf(s.slots, c);
    var slot := Slot(if hash then None else before.hash, if packed then None else before.packed);
    var removed := if packed && before.packed.Some? then s.log.removed[c := s.log.steps] else s.log.removed;
    var halved := if slot.hash.Some? && slot.packed.None? then s.log.halved + {c} else s.log.halved;
    s.(slots := s.slots[c := slot], log := s.log.(removed := removed, halved := halved))
  }

  ghost function Act(crypto: Totp.Crypto, s: State, a: Action): State
    requires Totp.Lawful(crypto)
  {
    match a
    case Tick(elapsed) =>
      s.(now := s.now + elapsed, browsers := Sessions.Apply(s.browsers, Sessions.Tick(elapsed)))
    case Browse(step) => if step.Tick? then s else s.(browsers := Sessions.Apply(s.browsers, step))
    case Create(challenge, userId, mode, pushCode, ttl) =>
      if challenge in s.origins then s
      else
        var hash := Hash(userId, WholeSecond(s.now + ttl), mode, Pending, pushCode, "");
        s.(slots := s.slots[challenge := Slot(Some(hash), Some(Packed(Pending, 1)))],
           origins := s.origins[challenge := Origin(userId, s.now + ttl, pushCode)])
    case ReadHash(id, challenge, op, seenAt) =>
      if id in s.requests || !(0 <= seenAt <= s.now) then s else AfterReadHash(s, id, challenge, op, seenAt)
    case ReadState(id) =>
      if id in s.requests && s.requests[id].stage.Reading? then AfterReadState(s, id) else s
    case Reserve(id, secret, code) =>
      if At(s, id, OneTimeCode) then AfterReserve(crypto, s, id, secret, code) else s
    case FinishAssertion(id) =>
      if At(s, id, PasskeyFinish) then Moved(s, id, Proved(Assertion(s.requests[id].hash.passkey))) else s
    case BindPasskey(id, session) =>
      if At(s, id, PasskeyBegin) then AfterSave(s, id, s.requests[id].hash.(passkey := session)) else s
    case ChangeMode(id, mode) =>
      if At(s, id, ModeUpdate) then AfterSave(s, id, s.requests[id].hash.(mode := mode)) else s
    case Resolve(id, sessionId) =>
      if At(s, id, PushDecide) then AfterResolve(s, id, sessionId) else s
    case Decide(id, approve, matchCode) =>
      if AtDecision(s, id) then AfterDecide(s, id, approve, matchCode) else s
    case Delete(id) =>
      if id in s.requests && s.requests[id].stage.Proved? then AfterDelete(s, id) else s
    case IssueSession(id) =>
      if id in s.requests && s.requests[id].stage.Deleted?
      then Moved(s, id, Issued(s.requests[id].stage.evidence, s.requests[id].stage.mark))
      else s
    case Abandon(id) =>
      if id in s.requests && InFlight(s.requests[id]) then Moved(s, id, Failed) else s
    case Lose(challenge, hash, packed) => if challenge in s.slots then AfterLose(s, challenge, hash, packed) else s
  }

  predicate InFlight(r: Request)
  {
    !r.stage.Issued? && !r.stage.Finished? && !r.stage.Failed?
  }

  /** One numbered step. */
  ghost function Apply(crypto: Totp.Crypto, s: State, a: Action): State
    requires Totp.Lawful(crypto)
  {
    var t := Act(crypto, s, a);
    t.(log := t.log.(steps := s.log.steps + 1))
  }

  ghost function Run(crypto: Totp.Crypto, s: State, actions: seq<Action>): State
    requires Totp.Lawful(crypto)
  {
    if actions == [] then s else Apply(crypto, Run(crypto, s, actions[..|actions| - 1]), actions[|actions| - 1])
  }

  function Init(now: Instant): State
  {
    State(now, map[], map[], map[], Sessions.Init(now), map[], map[], Log(0, map[], map[], {}, {}))
  }

  ghost predicate Reachable(crypto: Totp.Crypto, s: State)
    requires Totp.Lawful(crypto)
  {
    exists now, actions :: s == Run(crypto, Init(now), actions)
  }

  // ---------------------------------------------------------------------------
  // Every session is earned
  // ---------------------------------------------------------------------------

  /** The hash belongs to the challenge it is stored under, and says approved only after
      an approval by the challenge's own user. */
  predicate HashOk(origins: map<string, Origin>, approvals: map<string, Approver>, challenge: string, hash: Hash)
  {
    && challenge in origins
    && hash.userId == origins[challenge].userId
    && hash.expiresAt == WholeSecond(origins[challenge].expiresAt)
    && hash.pushCode == origins[challenge].pushCode
    && (hash.push.Approved? ==> ApprovedByUser(origins, approvals, challenge))
  }

  /** The challenge's own user approved it, in push mode, with the matching code. */
  predicate ApprovedByUser(origins: map<string, Origin>, approvals: map<string, Approver>, challenge: string)
  {
    && challenge in origins && challenge in approvals
    && approvals[challenge].userId == origins[challenge].userId
    && approvals[challenge].mode.Push?
    && Trim(approvals[challenge].matchCode) == Trim(origins[challenge].pushCode) != ""
  }

  /** A reserved step is one of the three around the captured time, and its reservation
      lasts from the moment it was made. */
  predicate EvidenceOk(s: State, r: Request, evidence: Evidence)
  {
    match evidence
    case ReservedStep(step, at) =>
      && r.op.OneTimeCode? && r.seenAt <= at && TotpUse.Near(step, r.seenAt)
      && KeyOf(r.hash.userId, step) in s.used && at + TotpUse.REPLAY_TTL <= s.used[KeyOf(r.hash.userId, step)]
    case Assertion(session) =>
      r.op.PasskeyFinish? && r.hash.mode.Passkey? && session == r.hash.passkey && Trim(session) != ""
    case Approval => r.op.PushFinish? && ApprovedByUser(s.origins, s.approvals, r.challenge)
  }

  predicate RequestOk(s: State, r: Request)
  {
    && HashOk(s.origins, s.approvals, r.challenge, r.hash)
    && 0 <= r.seenAt < r.hash.expiresAt && r.seenAt <= s.now
    && Admits(r.op, r.hash)
    && (r.stage.Approving? ==> r.op.PushDecide? && r.stage.approver == r.hash.userId)
    && (r.stage.Proved? || r.stage.Deleted? || r.stage.Issued? ==> EvidenceOk(s, r, r.stage.evidence))
  }

  predicate SlotsOk(s: State)
  {
    forall c :: c in s.slots && s.slots[c].hash.Some? ==> HashOk(s.origins, s.approvals, c, s.slots[c].hash.value)
  }

  predicate RequestsOk(s: State)
  {
    forall id :: id in s.requests ==> RequestOk(s, s.requests[id])
  }

  predicate ApprovalsOk(s: State)
  {
    forall c :: c in s.approvals ==> ApprovedByUser(s.origins, s.approvals, c)
  }

  predicate Inv(s: State)
  {
    SlotsOk(s) && RequestsOk(s) && ApprovalsOk(s)
  }

  /** The record of what happened only grows. */
  predicate Grows(s: State, u: State)
  {
    && (forall c :: c in s.origins ==> c in u.origins && u.origins[c] == s.origins[c])
    && s.approvals.Keys <= u.approvals.Keys
    && (forall k :: k in s.used ==> k in u.used && s.used[k] <= u.used[k])
    && s.now <= u.now
  }

  lemma GrowthKeeps(s: State, u: State)
    requires Inv(s) && Grows(s, u) && u.slots == s.slots && u.requests == s.requests && ApprovalsOk(u)
    ensures Inv(u)
  {
    hide Admits, WholeSecond, Trim, KeyOf, TotpUse.Near;
  }

  /** The invariant looks neither at the bookkeeping nor at the sessions. */
  lemma LogKeeps(s: State, log: Log, browsers: Sessions.State)
    requires Inv(s)
    ensures Inv(s.(log := log, browsers := browsers))
  {
    hide HashOk;
    GrowthKeeps(s, s.(log := log, browsers := browsers));
  }

  lemma MovedKeeps(s: State, id: nat, stage: Stage)
    requires Inv(s) && id in s.requests && RequestOk(s, s.requests[id].(stage := stage))
    ensures Inv(Moved(s, id, stage))
  {
    hide HashOk, ApprovedByUser, Admits;
  }

  lemma IdleKeeps(s: State, id: nat, stage: Stage)
    requires Inv(s) && id in s.requests && (stage.Finished? || stage.Failed?)
    ensures Inv(Moved(s, id, stage))
  {
    hide HashOk, ApprovedByUser, Admits;
  }

  lemma SlotKeeps(s: State, challenge: string, slot: Slot)
    requires Inv(s) && (slot.hash.Some? ==> HashOk(s.origins, s.approvals, challenge, slot.hash.value))
    ensures Inv(s.(slots := s.slots[challenge := slot]))
  {
    hide HashOk, ApprovedByUser, Admits;
  }

  lemma RequestFor(s: State, id: nat)
    requires Inv(s) && id in s.requests
    ensures RequestOk(s, s.requests[id])
    ensures HashOk(s.origins, s.approvals, s.requests[id].challenge, s.requests[id].hash)
  {
    hide HashOk, EvidenceOk, Admits;
  }

  lemma SaveKeeps(s: State, id: nat, changed: Hash)
    requires Inv(s) && id in s.requests && HashOk(s.origins, s.approvals, s.requests[id].challenge, changed)
    ensures Inv(AfterSave(s, id, changed))
  {
    hide Inv, HashOk;
    var c := s.requests[id].challenge;
    match SaveOver(SlotOf(s.slots, c), changed, s.requests[id].version)
    case Err(_) => IdleKeeps(s, id, Failed);
    case Ok(saved) =>
      var t := s.(slots := s.slots[c := saved]);
      SlotKeeps(s, c, saved);
      LogKeeps(t, AfterSave(s, id, changed).log, t.browsers);
      IdleKeeps(t.(log := AfterSave(s, id, changed).log), id, Finished);
  }

  lemma DecideKeeps(s: State, id: nat, approve: bool, matchCode: string)
    requires Inv(s) && AtDecision(s, id)
    ensures Inv(AfterDecide(s, id, approve, matchCode))
  {
    hide Inv, WholeSecond, Trim, EvidenceOk, SaveOver, AfterSave;
    var r := s.requests[id];
    RequestFor(s, id);
    if approve && !CodeMatches(matchCode, r.hash) {
      IdleKeeps(s, id, Failed);
    } else if !approve {
      SaveKeeps(s, id, r.hash.(push := Denied));
    } else {
      ApproveKeeps(s, id, Approver(r.stage.approver, matchCode, r.hash.mode));
    }
  }

  /** An approval is recorded together with the hash that says so. */
  lemma ApproveKeeps(s: State, id: nat, who: Approver)
    requires Inv(s) && id in s.requests && who.userId == s.requests[id].hash.userId && who.mode.Push?
    requires Trim(who.matchCode) == Trim(s.requests[id].hash.pushCode) != ""
    ensures var u := AfterSave(s, id, s.requests[id].hash.(push := Approved));
            Inv(if u.requests[id].stage.Finished?
                then u.(approvals := u.approvals[s.requests[id].challenge := who]) else u)
  {
    hide Inv, WholeSecond, Trim, Admits, EvidenceOk;
    var r := s.requests[id];
    RequestFor(s, id);
    var t := s.(approvals := s.approvals[r.challenge := who]);
    ApprovalRecorded(s, r.challenge, who);
    SaveKeeps(t, id, r.hash.(push := Approved));
    IdleKeeps(s, id, Failed);
  }

  lemma ApprovalRecorded(s: State, challenge: string, who: Approver)
    requires Inv(s) && challenge in s.origins && s.origins[challenge].userId == who.userId && who.mode.Push?
    requires Trim(who.matchCode) == Trim(s.origins[challenge].pushCode) != ""
    ensures Inv(s.(approvals := s.approvals[challenge := who]))
  {
    hide Trim, RequestOk, HashOk;
    GrowthKeeps(s, s.(approvals := s.approvals[challenge := who]));
  }

  lemma CreateKeeps(s: State, challenge: string, slot: Slot, origin: Origin)
    requires Inv(s) && challenge !in s.origins && slot.hash.Some?
    requires HashOk(map[challenge := origin], map[], challenge, slot.hash.value)
    ensures Inv(s.(slots := s.slots[challenge := slot], origins := s.origins[challenge := origin]))
  {
    hide RequestOk, Trim, WholeSecond;
    var t := s.(origins := s.origins[challenge := origin]);
    assert ApprovalsOk(t);
    GrowthKeeps(s, t);
    hide Inv;
    SlotKeeps(t, challenge, slot);
  }

  lemma ReadHashKeeps(s: State, id: nat, challenge: string, op: Op, seenAt: Instant)
    requires Inv(s) && id !in s.requests && 0 <= seenAt <= s.now
    ensures Inv(AfterReadHash(s, id, challenge, op, seenAt))
  {
    hide Trim, WholeSecond, KeyOf, TotpUse.Near, Admits;
  }

  lemma ReadStateKeeps(s: State, id: nat)
    requires Inv(s) && id in s.requests
    ensures Inv(AfterReadState(s, id))
  {
    hide Trim, WholeSecond, KeyOf, TotpUse.Near;
  }

  lemma ResolveKeeps(s: State, id: nat, sessionId: string)
    requires Inv(s) && At(s, id, PushDecide)
    ensures Inv(AfterResolve(s, id, sessionId))
  {
    hide Inv, HashOk, Admits, Trim, Sessions.CacheFirstLookup;
    RequestFor(s, id);
    if AfterResolve(s, id, sessionId).requests[id].stage.Approving? {
      MovedKeeps(s, id, Approving(s.requests[id].hash.userId));
    } else {
      IdleKeeps(s, id, Failed);
    }
  }

  lemma ReservedKeeps(s: State, id: nat, step: int)
    requires Inv(s) && At(s, id, OneTimeCode) && TotpUse.Near(step, s.requests[id].seenAt)
    ensures Inv(Reserved(s, id, step))
  {
    hide Inv, HashOk, Admits, KeyOf, TotpUse.Near;
    var r := s.requests[id];
    var key := KeyOf(r.hash.userId, step);
    if TotpUse.Free(s.used, key, s.now) {
      var u := s.(used := s.used[key := s.now + TotpUse.REPLAY_TTL]);
      UsedGrows(s, key);
      RequestFor(u, id);
      MovedKeeps(u, id, Proved(ReservedStep(step, s.now)));
    } else {
      IdleKeeps(s, id, Failed);
    }
  }

  lemma UsedGrows(s: State, key: TotpUse.Key)
    requires Inv(s) && TotpUse.Free(s.used, key, s.now)
    ensures Inv(s.(used := s.used[key := s.now + TotpUse.REPLAY_TTL]))
  {
    hide SlotsOk, RequestsOk;
    GrowthKeeps(s, s.(used := s.used[key := s.now + TotpUse.REPLAY_TTL]));
  }

  lemma ReserveKeeps(crypto: Totp.Crypto, s: State, id: nat, secret: string, code: string)
    requires Totp.Lawful(crypto) && Inv(s) && At(s, id, OneTimeCode)
    ensures Inv(AfterReserve(crypto, s, id, secret, code))
  {
    hide Inv, Reserved, Totp.Matched;
    IdleKeeps(s, id, Failed);
    Totp.MatchIsNear(crypto, secret, code, s.requests[id].seenAt);
    var matched := Totp.Matched(crypto, secret, code, s.requests[id].seenAt);
    if matched.Some? {
      ReservedKeeps(s, id, matched.value);
    }
  }

  lemma ProvedKeeps(s: State, id: nat, stage: Stage)
    requires Inv(s) && id in s.requests && (stage.Proved? || stage.Deleted? || stage.Issued?)
    requires EvidenceOk(s, s.requests[id], stage.evidence)
    ensures Inv(Moved(s, id, stage))
  {
    hide Inv, HashOk, Admits;
    RequestFor(s, id);
    MovedKeeps(s, id, stage);
  }

  lemma DeleteKeeps(s: State, id: nat)
    requires Inv(s) && id in s.requests && s.requests[id].stage.Proved?
    ensures Inv(AfterDelete(s, id))
  {
    hide Inv, HashOk, Admits, EvidenceOk;
    var c := s.requests[id].challenge;
    SlotKeeps(s, c, GONE);
    var t := s.(slots := s.slots[c := GONE]);
    var u := t.(log := AfterDelete(s, id).log);
    LogKeeps(t, u.log, t.browsers);
    RequestFor(u, id);
    ProvedKeeps(u, id, Deleted(s.requests[id].stage.evidence, s.log.steps));
  }

  lemma LoseKeeps(s: State, c: string, hash: bool, packed: bool)
    requires Inv(s) && c in s.slots
    ensures Inv(AfterLose(s, c, hash, packed))
  {
    hide RequestsOk, ApprovalsOk, HashOk;
    var u := AfterLose(s, c, hash, packed);
    SlotKeeps(s, c, u.slots[c]);
    LogKeeps(s.(slots := u.slots), u.log, s.browsers);
  }

  lemma TickKeeps(s: State, elapsed: nat, browsers: Sessions.State)
    requires Inv(s)
    ensures Inv(s.(now := s.now + elapsed, browsers := browsers))
  {
    hide HashOk;
    GrowthKeeps(s, s.(now := s.now + elapsed, browsers := browsers));
  }

  lemma ActKeeps(crypto: Totp.Crypto, s: State, a: Action)
    requires Totp.Lawful(crypto) && Inv(s)
    ensures Inv(Act(crypto, s, a))
  {
    hide Inv, AfterSave, AfterDecide, AfterResolve, AfterReadHash, AfterReadState, AfterReserve, AfterDelete, AfterLose;
    hide Trim, WholeSecond, Sessions.Apply;
    match a
    case Tick(elapsed) => TickKeeps(s, elapsed, Sessions.Apply(s.browsers, Sessions.Tick(elapsed)));
    case Browse(step) => LogKeeps(s, s.log, Sessions.Apply(s.browsers, step));
    case Create(challenge, userId, mode, pushCode, ttl) =>
      if challenge !in s.origins {
        var hash := Hash(userId, WholeSecond(s.now + ttl), mode, Pending, pushCode, "");
        CreateKeeps(s, challenge, Slot(Some(hash), Some(Packed(Pending, 1))), Origin(userId, s.now + ttl, pushCode));
      }
    case ReadHash(id, challenge, op, seenAt) =>
      if id !in s.requests && 0 <= seenAt <= s.now {
        ReadHashKeeps(s, id, challenge, op, seenAt);
      }
    case ReadState(id) =>
      if id in s.requests {
        ReadStateKeeps(s, id);
      }
    case Reserve(id, secret, code) =>
      if At(s, id, OneTimeCode) {
        ReserveKeeps(crypto, s, id, secret, code);
      }
    case FinishAssertion(id) =>
      if At(s, id, PasskeyFinish) {
        RequestFor(s, id);
        ProvedKeeps(s, id, Proved(Assertion(s.requests[id].hash.passkey)));
      }
    case BindPasskey(id, session) =>
      if At(s, id, PasskeyBegin) {
        RequestFor(s, id);
        SaveKeeps(s, id, s.requests[id].hash.(passkey := session));
      }
    case ChangeMode(id, mode) =>
      if At(s, id, ModeUpdate) {
        RequestFor(s, id);
        SaveKeeps(s, id, s.requests[id].hash.(mode := mode));
      }
    case Resolve(id, sessionId) =>
      if At(s, id, PushDecide) {
        ResolveKeeps(s, id, sessionId);
      }
    case Decide(id, approve, matchCode) =>
      if AtDecision(s, id) {
        DecideKeeps(s, id, approve, matchCode);
      }
    case Delete(id) =>
      if id in s.requests && s.requests[id].stage.Proved? {
        DeleteKeeps(s, id);
      }
    case IssueSession(id) =>
      if id in s.requests && s.requests[id].stage.Deleted? {
        RequestFor(s, id);
        ProvedKeeps(s, id, Issued(s.requests[id].stage.evidence, s.requests[id].stage.mark));
      }
    case Abandon(id) =>
      if id in s.requests {
        IdleKeeps(s, id, Failed);
      }
    case Lose(challenge, hash, packed) =>
      if challenge in s.slots {
        LoseKeeps(s, challenge, hash, packed);
      }
  }

  lemma StepKeeps(crypto: Totp.Crypto, s: State, a: Action)
    requires Totp.Lawful(crypto) && Inv(s)
    ensures Inv(Apply(crypto, s, a))
  {
    hide Inv, Act;
    ActKeeps(crypto, s, a);
    var t := Act(crypto, s, a);
    LogKeeps(t, t.log.(steps := s.log.steps + 1), t.browsers);
  }

  lemma {:induction false} RunKeeps(crypto: Totp.Crypto, s: State, actions: seq<Action>)
    requires Totp.Lawful(crypto) && Inv(s)
    ensures Inv(Run(crypto, s, actions))
  {
    if actions != [] {
      hide Inv, Apply;
      RunKeeps(crypto, s, actions[..|actions| - 1]);
      StepKeeps(crypto, Run(crypto, s, actions[..|actions| - 1]), actions[|actions| - 1]);
    }
  }

  /** In every interleaving a session belongs to the user its challenge was created
      for, is authenticated before the challenge's original expiry, and rests on a
      reserved one-time step of that user near the captured time, on an assertion for a
      passkey session bound to the challenge, or on an approval in push mode by that very
      user with the matching code. */
  lemma SessionIsEarned(crypto: Totp.Crypto, s: State, id: nat)
    requires Totp.Lawful(crypto) && Reachable(crypto, s) && id in s.requests && s.requests[id].stage.Issued?
    ensures var r := s.requests[id];
            && r.challenge in s.origins
            && r.hash.userId == s.origins[r.challenge].userId
            && r.seenAt < s.origins[r.challenge].expiresAt
            && EvidenceOk(s, r, r.stage.evidence)
  {
    var now, actions :| s == Run(crypto, Init(now), actions);
    RunKeeps(crypto, Init(now), actions);
    RequestFor(s, id);
  }

  // ---------------------------------------------------------------------------
  // Runs
  // ---------------------------------------------------------------------------

  lemma Start(crypto: Totp.Crypto, now: Instant)
    requires Totp.Lawful(crypto)
    ensures Reachable(crypto, Init(now))
  {
    assert Run(crypto, Init(now), []) == Init(now);
  }

  lemma Extend(crypto: Totp.Crypto, s: State, a: Action)
    requires Totp.Lawful(crypto) && Reachable(crypto, s)
    ensures Reachable(crypto, Apply(crypto, s, a))
  {
    hide Apply;
    var now, actions :| s == Run(crypto, Init(now), actions);
    var longer := actions + [a];
    assert longer[..|actions|] == actions;
    assert Run(crypto, Init(now), longer) == Apply(crypto, s, a);
  }

  lemma OriginStays(crypto: Totp.Crypto, s: State, a: Action, challenge: string)
    requires Totp.Lawful(crypto) && challenge in s.origins
    ensures challenge in Apply(crypto, s, a).origins
  {
    hide AfterReadHash, AfterReadState, AfterReserve, AfterSave, AfterResolve, AfterDecide, AfterDelete, AfterLose;
    hide WholeSecond, OnlyStage, Sessions.Apply;
  }
}
