/** The key table and its rotation: each new active key retires the one before it, and
    tokens signed earlier keep verifying while their key is listed. */
module KeyRotation {
  import opened Clock
  import opened Wrappers
  import opened Jwk
  import opened SigningKeys

  /** `name` is the kid made from the second of a rotation. `sign` and `verify` are RSA
      signatures of a signing input. */
  datatype Config = Config(codec: Codec, name: int -> string, rotateBefore: Duration, retireAfter: Duration,
                           sign: (PrivateKey, string) -> string, verify: (PublicKey, string, string) -> bool)

  ghost predicate Lawful(cfg: Config)
  {
    && Jwk.Lawful(cfg.codec)
    && (forall second :: cfg.name(second) != "")
    && (forall key: PrivateKey, input :: cfg.verify(key.public, input, cfg.sign(key, input)))
  }

  // ---------------------------------------------------------------------------
  // The table
  // ---------------------------------------------------------------------------

  /** Records by kid; the kid is a unique column. */
  type Table = map<string, Record>

  predicate Current(r: Record, now: Instant)
  {
    r.deactivatedAt.None? || r.deactivatedAt.value > WholeSecond(now)
  }

  /** An answer to the listing query, in any order. */
  predicate IsListing(records: seq<Record>, table: Table, now: Instant)
  {
    && (forall i :: 0 <= i < |records| ==>
          records[i].kid in table && table[records[i].kid] == records[i] && Current(records[i], now))
    && (forall i, j :: 0 <= i < j < |records| ==> records[i].kid != records[j].kid)
    && (forall kid :: kid in table && Current(table[kid], now) ==> table[kid] in records)
  }

  function Retired(r: Record, at: Instant): Record
  {
    if !r.active then r
    else
      var keeps := r.deactivatedAt.Some? && r.deactivatedAt.value <= at;
      r.(active := false, deactivatedAt := if keeps then r.deactivatedAt else Some(Stored(at)))
  }

  /** Retires every active record and inserts the new one, or does nothing at all. */
  function Inserted(table: Table, r: Record, retireAt: Instant): Result<Table, Error>
  {
    if r.kid in table then Err(DuplicateKid)
    else Ok((map kid | kid in table :: Retired(table[kid], retireAt))[r.kid := r])
  }

  /** A new active key leaves exactly itself active. Every other record keeps its key and
      stays listed exactly as long as before, or, if it was active, until the retirement
      time if that comes first. */
  lemma NewKeyReplacesActive(table: Table, r: Record, retireAt: Instant, now: Instant)
    requires r.kid !in table && r.active
    requires forall kid :: kid in table && table[kid].deactivatedAt.Some? ==>
               WholeSecond(table[kid].deactivatedAt.value) == table[kid].deactivatedAt.value
    ensures Inserted(table, r, retireAt).Ok?
    ensures var after := Inserted(table, r, retireAt).value;
            && after.Keys == table.Keys + {r.kid}
            && (forall kid :: kid in after ==> (after[kid].active <==> kid == r.kid))
            && (forall kid :: kid in table ==>
                  && after[kid].(active := table[kid].active, deactivatedAt := table[kid].deactivatedAt) == table[kid]
                  && (Current(after[kid], now) <==>
                        Current(table[kid], now) && (table[kid].active ==> WholeSecond(now) < Stored(retireAt))))
  {
    hide Current, WholeSecond, Stored;
    forall kid | kid in table
      ensures Current(Retired(table[kid], retireAt), now) <==>
                Current(table[kid], now) && (table[kid].active ==> WholeSecond(now) < Stored(retireAt))
    {
      RetiringCutsListing(table[kid], retireAt, now);
    }
  }

  lemma RetiringCutsListing(r: Record, retireAt: Instant, now: Instant)
    requires r.deactivatedAt.Some? ==> WholeSecond(r.deactivatedAt.value) == r.deactivatedAt.value
    ensures Current(Retired(r, retireAt), now) <==>
            Current(r, now) && (r.active ==> WholeSecond(now) < Stored(retireAt))
  {
  }

  class JwkKeyRepository {
    var table: Table

    constructor ()
      ensures table == map[]
    {
      table := map[];
    }

    method ListCurrent(now: Instant) returns (records: seq<Record>)
      requires forall kid :: kid in table ==> table[kid].kid == kid
      ensures IsListing(records, table, now)
    {
      hide Current;
      records := [];
      var left := table.Keys;
      while left != {}
        invariant left <= table.Keys
        invariant forall i :: 0 <= i < |records| ==>
                    && records[i].kid in table && records[i].kid !in left
                    && table[records[i].kid] == records[i] && Current(records[i], now)
        invariant forall i, j :: 0 <= i < j < |records| ==> records[i].kid != records[j].kid
        invariant forall kid :: kid in table && kid !in left && Current(table[kid], now) ==> table[kid] in records
      {
        var kid :| kid in left;
        left := left - {kid};
        if Current(table[kid], now) {
          records := records + [table[kid]];
        }
      }
    }

    method CreateActiveKey(r: Record, retireAt: Instant) returns (err: Option<Error>)
      modifies this
      ensures match Inserted(old(table), r, retireAt)
              case Ok(t) => err.None? && table == t
              case Err(e) => err == Some(e) && table == old(table)
    {
      var retired := map kid | kid in table :: Retired(table[kid], retireAt);
      if r.kid in table {
        return Some(DuplicateKid);
      }
      table := retired[r.kid := r];
      err := None;
    }
  }

  method FindActiveKey(records: seq<Record>) returns (r: Option<Record>)
    ensures r.Some? ==> r.value in records && r.value.active
    ensures r.None? ==> forall i :: 0 <= i < |records| ==> !records[i].active
  {
    for i := 0 to |records|
      invariant forall j :: 0 <= j < i ==> !records[j].active
    {
      if records[i].active {
        return Some(records[i]);
      }
    }
    return None;
  }

  // ---------------------------------------------------------------------------
  // Rotation
  // ---------------------------------------------------------------------------

  datatype State = State(now: Instant, table: Table, files: Files)

  /** Whether the active record calls for a new key. */
  predicate Due(cfg: Config, active: Option<Record>, now: Instant, force: bool)
  {
    || force
    || active.None?
    || (active.value.rotatesAt.Some? && active.value.rotatesAt.value <= now + cfg.rotateBefore)
  }

  ghost predicate IsActive(table: Table, kid: string)
  {
    kid in table && table[kid].active
  }

  ghost function Active(table: Table): Option<Record>
  {
    if kid :| IsActive(table, kid) then Some(table[kid]) else None
  }

  function NewRecord(cfg: Config, kid: string, key: PrivateKey, now: Instant): Record
  {
    Record(kid, DEFAULT_ALG, DEFAULT_USE, Build(cfg.codec, kid, key.public, DEFAULT_ALG, DEFAULT_USE), Some(kid), true,
           Some(Stored(now + Seconds(7_776_000))), None)
  }

  /** The file is written before the record: a kid that is already taken makes the
      insert fail after the file has been replaced. */
  function Rotated(cfg: Config, s: State, key: PrivateKey): State
  {
    var kid := cfg.name(Unix(s.now));
    var written := s.(files := s.files[kid := key]);
    match Inserted(s.table, NewRecord(cfg, kid, key, s.now), s.now + cfg.retireAfter)
    case Ok(table) => written.(table := table)
    case Err(_) => written
  }

  datatype Action =
    | Tick(elapsed: nat)
    | Rotate(key: PrivateKey, force: bool)
    | LoseFile(file: string)

  predicate Generated(key: PrivateKey)
  {
    IsInt(key.public.e) && key.public.e > 0
  }

  ghost function Apply(cfg: Config, s: State, a: Action): State
  {
    match a
    case Tick(elapsed) => s.(now := s.now + elapsed)
    case Rotate(key, force) =>
      if Generated(key) && Due(cfg, Active(s.table), s.now, force) then Rotated(cfg, s, key) else s
    case LoseFile(file) => s.(files := s.files - {file})
  }

  ghost function Run(cfg: Config, s: State, actions: seq<Action>): State
  {
    if actions == [] then s else Apply(cfg, Run(cfg, s, actions[..|actions| - 1]), actions[|actions| - 1])
  }

  /** What the check finds in a listing is the active record of the table. */
  lemma FoundIsActive(cfg: Config, s: State, records: seq<Record>, found: Option<Record>)
    requires Consistent(cfg, s) && IsListing(records, s.table, s.now)
    requires found.Some? ==> found.value in records && found.value.active
    requires found.None? ==> forall i :: 0 <= i < |records| ==> !records[i].active
    ensures found == Active(s.table)
  {
    hide Parse;
    if found.Some? {
      assert IsActive(s.table, found.value.kid);
    }
    if kid :| IsActive(s.table, kid) {
      assert RecordOk(cfg, s.files, kid, s.table[kid]);
      assert s.table[kid] in records;
      assert found.Some? && IsActive(s.table, found.value.kid);
      assert forall other :: IsActive(s.table, other) ==> other == kid;
    }
  }

  /** The rotation check: lists the records, and unless the active one is good for longer
      writes a new key file and then the record that replaces it. */
  method RotateKey(cfg: Config, repo: JwkKeyRepository, files: Files, key: PrivateKey, force: bool, now: Instant)
    returns (rotated: bool, after: Files)
    requires Consistent(cfg, State(now, repo.table, files)) && Generated(key)
    modifies repo
    ensures State(now, repo.table, after) == Apply(cfg, State(now, old(repo.table), files), Rotate(key, force))
    ensures rotated <==> repo.table != old(repo.table)
  {
    hide Consistent, Build, Stored, Unix;
    assert forall kid :: kid in repo.table ==> repo.table[kid].kid == kid by {
      KidsMatch(cfg, State(now, repo.table, files));
    }
    var records := repo.ListCurrent(now);
    var active := FindActiveKey(records);
    FoundIsActive(cfg, State(now, repo.table, files), records, active);
    if !force && active.Some? && active.value.rotatesAt.Some? && active.value.rotatesAt.value > now + cfg.rotateBefore {
      return false, files;
    }
    if !force && active.Some? && active.value.rotatesAt.None? {
      return false, files;
    }
    var kid := cfg.name(Unix(now));
    after := files[kid := key];
    ghost var before := repo.table;
    var err := repo.CreateActiveKey(NewRecord(cfg, kid, key, now), now + cfg.retireAfter);
    assert err.None? ==> kid in repo.table && kid !in before;
    return err.None?, after;
  }

  lemma KidsMatch(cfg: Config, s: State)
    requires Consistent(cfg, s)
    ensures forall kid :: kid in s.table ==> s.table[kid].kid == kid
  {
    hide Parse;
  }

  /** No two rotations that are carried out fall into one second. */
  ghost predicate Distinct(cfg: Config, s: State, a: Action)
  {
    a.Rotate? && Generated(a.key) && Due(cfg, Active(s.table), s.now, a.force) ==> cfg.name(Unix(s.now)) !in s.table
  }

  ghost predicate DistinctRun(cfg: Config, s: State, actions: seq<Action>)
  {
    forall k :: 0 <= k < |actions| ==> Distinct(cfg, Run(cfg, s, actions[..k]), actions[k])
  }

  // ---------------------------------------------------------------------------
  // Consistency
  // ---------------------------------------------------------------------------

  /** The record is well formed and agrees with the file it names. */
  predicate RecordOk(cfg: Config, files: Files, kid: string, r: Record)
  {
    && kid != "" && r.kid == kid && r.alg == DEFAULT_ALG
    && Parse(cfg.codec, r.jwk).Ok?
    && (r.ref.Some? ==> r.ref.value == kid)
    && (r.ref.Some? && kid in files ==> files[kid].public == Parse(cfg.codec, r.jwk).value)
    && (r.active ==> r.deactivatedAt.None?)
  }

  predicate Consistent(cfg: Config, s: State)
  {
    && (forall kid :: kid in s.table ==> RecordOk(cfg, s.files, kid, s.table[kid]))
    && (forall a, b :: a in s.table && b in s.table && s.table[a].active && s.table[b].active ==> a == b)
  }

  lemma RotationKeeps(cfg: Config, s: State, key: PrivateKey)
    requires Lawful(cfg) && Consistent(cfg, s) && Generated(key) && cfg.name(Unix(s.now)) !in s.table
    ensures Consistent(cfg, Rotated(cfg, s, key))
  {
    hide Stored, Unix, Parse, Build;
    var kid := cfg.name(Unix(s.now));
    ParseAfterBuild(cfg.codec, kid, key.public, DEFAULT_ALG, DEFAULT_USE);
  }

  lemma FileLossKeeps(cfg: Config, s: State, file: string)
    requires Consistent(cfg, s)
    ensures Consistent(cfg, s.(files := s.files - {file}))
  {
    hide Parse;
  }

  lemma TimeKeeps(cfg: Config, s: State, elapsed: nat)
    requires Consistent(cfg, s)
    ensures Consistent(cfg, s.(now := s.now + elapsed))
  {
    hide RecordOk;
  }

  lemma StepKeeps(cfg: Config, s: State, a: Action)
    requires Lawful(cfg) && Consistent(cfg, s) && Distinct(cfg, s, a)
    ensures Consistent(cfg, Apply(cfg, s, a))
  {
    hide Consistent, Rotated, Unix, Due;
    match a
    case Tick(elapsed) => TimeKeeps(cfg, s, elapsed);
    case Rotate(key, force) =>
      if Generated(key) && Due(cfg, Active(s.table), s.now, force) {
        RotationKeeps(cfg, s, key);
      }
    case LoseFile(file) => FileLossKeeps(cfg, s, file);
  }

  lemma {:induction false} RunKeeps(cfg: Config, s: State, actions: seq<Action>)
    requires Lawful(cfg) && Consistent(cfg, s) && DistinctRun(cfg, s, actions)
    ensures Consistent(cfg, Run(cfg, s, actions))
  {
    hide Consistent, Apply, Distinct;
    if actions != [] {
      var n := |actions| - 1;
      assert forall k :: 0 <= k < n ==> actions[..n][..k] == actions[..k];
      RunKeeps(cfg, s, actions[..n]);
      StepKeeps(cfg, Run(cfg, s, actions[..n]), actions[n]);
    }
  }

  /** Records keep their key; only the active flag and the retirement time change. */
  predicate Kept(t: Table, u: Table)
  {
    forall kid :: kid in t ==> kid in u && u[kid].jwk == t[kid].jwk && u[kid].kid == t[kid].kid
  }

  lemma {:induction false} RunKeepsRecords(cfg: Config, s: State, actions: seq<Action>)
    ensures Kept(s.table, Run(cfg, s, actions).table)
  {
    if actions != [] {
      hide Stored, Unix, NewRecord;
      RunKeepsRecords(cfg, s, actions[..|actions| - 1]);
    }
  }

  /** The record stays listed for at least `retireAfter` from `from` on. */
  predicate Lasting(cfg: Config, table: Table, kid: string, from: Instant)
  {
    && kid in table
    && (table[kid].deactivatedAt.None? || table[kid].deactivatedAt.value >= Stored(from + cfg.retireAfter))
  }

  lemma RetiringLasts(cfg: Config, s: State, key: PrivateKey, kid: string, from: Instant)
    requires from <= s.now && Lasting(cfg, s.table, kid, from)
    ensures Lasting(cfg, Rotated(cfg, s, key).table, kid, from)
  {
    hide NewRecord, Unix;
  }

  lemma {:induction false} RunLasts(cfg: Config, s: State, actions: seq<Action>, kid: string, from: Instant)
    requires from <= s.now && Lasting(cfg, s.table, kid, from)
    ensures s.now <= Run(cfg, s, actions).now && Lasting(cfg, Run(cfg, s, actions).table, kid, from)
  {
    if actions != [] {
      hide Lasting, Rotated;
      RunLasts(cfg, s, actions[..|actions| - 1], kid, from);
      var t, a := Run(cfg, s, actions[..|actions| - 1]), actions[|actions| - 1];
      if a.Rotate? {
        RetiringLasts(cfg, t, a.key, kid, from);
        RotatedTime(cfg, t, a.key);
      }
    }
  }

  lemma RotatedTime(cfg: Config, s: State, key: PrivateKey)
    ensures Rotated(cfg, s, key).now == s.now
  {
    hide Inserted;
  }

  // ---------------------------------------------------------------------------
  // What a loaded manager holds
  // ---------------------------------------------------------------------------

  predicate Holds(cfg: Config, k: Keys, r: Record)
  {
    && r.kid in k.byKid
    && Parse(cfg.codec, r.jwk) == Ok(k.byKid[r.kid].public)
    && k.byKid[r.kid].meta == MetaOf(r.kid, r.alg, r.use)
  }

  /** The record signs: it is active and its private key is loaded. */
  predicate Signs(k: Keys, files: Files, r: Record)
  {
    && k.active == r.kid && r.ref.Some? && r.ref.value in files
    && r.kid in k.byKid && k.byKid[r.kid].private == Some(files[r.ref.value])
  }

  /** Loading after some of the records: it holds them all, and an active one with a
      private key signs. */
  predicate LoadedOk(cfg: Config, records: seq<Record>, files: Files, k: Keys)
  {
    && (forall i :: 0 <= i < |records| ==> Holds(cfg, k, records[i]))
    && (forall i :: 0 <= i < |records| && records[i].active && records[i].ref.Some? ==> Signs(k, files, records[i]))
  }

  predicate RecordsOk(cfg: Config, records: seq<Record>, files: Files)
  {
    && (forall i :: 0 <= i < |records| ==> RecordOk(cfg, files, records[i].kid, records[i]))
    && (forall i, j :: 0 <= i < j < |records| ==> records[i].kid != records[j].kid)
    && (forall i, j :: 0 <= i < j < |records| ==> !(records[i].active && records[j].active))
  }

  /** One more record leaves what was loaded in place. */
  lemma LoadOneKeeps(cfg: Config, k: Keys, r: Record, files: Files, other: Record)
    requires RecordOk(cfg, files, r.kid, r) && LoadOne(cfg.codec, k, r, files).Ok? && r.kid != other.kid
    requires RecordOk(cfg, files, other.kid, other) && Holds(cfg, k, other)
    ensures Holds(cfg, LoadOne(cfg.codec, k, r, files).value, other)
    ensures Signs(k, files, other) && !r.active ==>
              Signs(LoadOne(cfg.codec, k, r, files).value, files, other)
  {
    hide Parse, MetaOf;
  }

  lemma LoadOneAdds(cfg: Config, k: Keys, r: Record, files: Files)
    requires RecordOk(cfg, files, r.kid, r) && LoadOne(cfg.codec, k, r, files).Ok?
    ensures var u := LoadOne(cfg.codec, k, r, files).value;
            && Holds(cfg, u, r)
            && (r.active && r.ref.Some? ==> Signs(u, files, r))
  {
    hide Parse, MetaOf;
  }

  lemma PrefixOk(cfg: Config, records: seq<Record>, files: Files, n: nat)
    requires RecordsOk(cfg, records, files) && n <= |records|
    ensures RecordsOk(cfg, records[..n], files)
  {
    hide RecordOk;
  }

  lemma {:induction false} LoadEachOk(cfg: Config, records: seq<Record>, files: Files)
    requires RecordsOk(cfg, records, files) && LoadEach(cfg.codec, records, files).Ok?
    ensures LoadedOk(cfg, records, files, LoadEach(cfg.codec, records, files).value)
  {
    hide LoadOne, Holds, Signs, RecordOk;
    if records != [] {
      var n := |records| - 1;
      PrefixOk(cfg, records, files, n);
      LoadEachOk(cfg, records[..n], files);
      LoadedOneMore(cfg, LoadEach(cfg.codec, records[..n], files).value, records, files);
    }
  }

  lemma LoadedOneMore(cfg: Config, k: Keys, records: seq<Record>, files: Files)
    requires records != [] && RecordsOk(cfg, records, files) && LoadedOk(cfg, records[..|records| - 1], files, k)
    requires LoadOne(cfg.codec, k, records[|records| - 1], files).Ok?
    ensures LoadedOk(cfg, records, files, LoadOne(cfg.codec, k, records[|records| - 1], files).value)
  {
    hide LoadOne, Holds, Signs, RecordOk;
    var n := |records| - 1;
    LoadOneAdds(cfg, k, records[n], files);
    forall i | 0 <= i < n
      ensures Holds(cfg, LoadOne(cfg.codec, k, records[n], files).value, records[i])
      ensures records[i].active && records[i].ref.Some? ==>
                Signs(LoadOne(cfg.codec, k, records[n], files).value, files, records[i])
    {
      assert records[..n][i] == records[i];
      LoadOneKeeps(cfg, k, records[n], files, records[i]);
    }
  }

  lemma ListingOk(cfg: Config, s: State, records: seq<Record>)
    requires Consistent(cfg, s) && IsListing(records, s.table, s.now)
    ensures RecordsOk(cfg, records, s.files)
  {
    hide Parse;
  }

  // ---------------------------------------------------------------------------
  // Main results
  // ---------------------------------------------------------------------------

  /** Whatever the order of the listing, a loaded manager signs with the one active
      record and with its private key. */
  lemma ManagerSignsWithActiveRecord(cfg: Config, s: State, records: seq<Record>)
    requires Consistent(cfg, s) && IsListing(records, s.table, s.now) && Load(cfg.codec, records, s.files).Ok?
    ensures var k := Load(cfg.codec, records, s.files).value;
            && IsActive(s.table, k.active)
            && (forall kid :: IsActive(s.table, kid) ==> kid == k.active)
            && k.active in s.files && s.table[k.active].ref == Some(k.active)
            && ActiveKey(k) == Ok((MetaOf(k.active, DEFAULT_ALG, s.table[k.active].use), s.files[k.active]))
  {
    hide Parse, MetaOf, LoadOne, Current;
    ListingOk(cfg, s, records);
    LoadEachOk(cfg, records, s.files);
    var i :| 0 <= i < |records| && records[i].active && Loadable(records[i], s.files);
    var k := Load(cfg.codec, records, s.files).value;
    assert Signs(k, s.files, records[i]) && Holds(cfg, k, records[i]);
  }

  /** The rotation check leaves an active key behind, and replaces one only inside the
      window before its planned rotation. */
  lemma RotationCheckLeavesActiveKey(cfg: Config, s: State, key: PrivateKey)
    requires Consistent(cfg, s) && Generated(key) && cfg.name(Unix(s.now)) !in s.table
    ensures var t := Apply(cfg, s, Rotate(key, false));
            && (exists kid :: IsActive(t.table, kid))
            && (forall kid :: IsActive(s.table, kid) && !IsActive(t.table, kid) ==>
                  s.table[kid].rotatesAt.Some? && s.table[kid].rotatesAt.value <= s.now + cfg.rotateBefore)
  {
    hide Unix, Stored, Parse, Build;
    var t := Apply(cfg, s, Rotate(key, false));
    if kid :| IsActive(s.table, kid) {
      assert forall other :: IsActive(s.table, other) ==> other == kid;
      assert Active(s.table) == Some(s.table[kid]);
      if Due(cfg, Active(s.table), s.now, false) {
        assert IsActive(t.table, cfg.name(Unix(s.now)));
      } else {
        assert IsActive(t.table, kid);
      }
    } else {
      assert IsActive(t.table, cfg.name(Unix(s.now)));
    }
  }

  datatype Token = Token(kid: string, alg: string, input: string, signature: string)

  function Sign(cfg: Config, k: Keys, input: string): Result<Token, Error>
  {
    match ActiveKey(k)
    case Err(e) => Err(e)
    case Ok((meta, key)) =>
      if meta.alg != DEFAULT_ALG then Err(UnsupportedAlg)
      else Ok(Token(meta.kid, meta.alg, input, cfg.sign(key, input)))
  }

  function Verify(cfg: Config, k: Keys, token: Token): Result<string, Error>
  {
    if token.alg != DEFAULT_ALG then Err(UnsupportedAlg)
    else if token.kid == "" then Err(KidRequired)
    else match PublicKeyFor(k, token.kid)
      case Err(e) => Err(e)
      case Ok((meta, key)) =>
        if meta.alg != token.alg then Err(AlgMismatch)
        else if !cfg.verify(key, token.input, token.signature) then Err(BadSignature)
        else Ok(token.input)
  }

  /** A token signed by a manager carries the kid of the active record and a signature
      by the key that record publishes. */
  lemma SignedByRecord(cfg: Config, s: State, records: seq<Record>, input: string)
    requires Lawful(cfg) && Consistent(cfg, s) && IsListing(records, s.table, s.now)
    requires Load(cfg.codec, records, s.files).Ok?
    ensures var r := Sign(cfg, Load(cfg.codec, records, s.files).value, input);
            && r.Ok? && r.value.kid in s.table && r.value.alg == DEFAULT_ALG && r.value.input == input
            && Parse(cfg.codec, s.table[r.value.kid].jwk).Ok?
            && cfg.verify(Parse(cfg.codec, s.table[r.value.kid].jwk).value, input, r.value.signature)
  {
    hide Parse, Load, IsListing;
    ManagerSignsWithActiveRecord(cfg, s, records);
  }

  lemma LoadedVerifies(cfg: Config, s: State, records: seq<Record>, token: Token)
    requires Consistent(cfg, s) && IsListing(records, s.table, s.now) && Load(cfg.codec, records, s.files).Ok?
    requires token.kid in s.table && Current(s.table[token.kid], s.now) && token.alg == DEFAULT_ALG
    requires Parse(cfg.codec, s.table[token.kid].jwk).Ok?
    requires cfg.verify(Parse(cfg.codec, s.table[token.kid].jwk).value, token.input, token.signature)
    ensures Verify(cfg, Load(cfg.codec, records, s.files).value, token) == Ok(token.input)
  {
    hide Parse, LoadOne, Current;
    ListingOk(cfg, s, records);
    LoadEachOk(cfg, records, s.files);
    var i :| 0 <= i < |records| && records[i] == s.table[token.kid];
    assert Holds(cfg, Load(cfg.codec, records, s.files).value, records[i]);
  }

  /** A token signed by any manager verifies in every manager loaded later, after any
      rotations in distinct seconds and any loss of key files, while its record is
      still listed; and that is for at least `retireAfter`, less half a second. */
  lemma TokenSurvivesRotations(cfg: Config, s: State, actions: seq<Action>, before: seq<Record>, after: seq<Record>,
                               input: string)
    requires Lawful(cfg) && Consistent(cfg, s) && DistinctRun(cfg, s, actions)
    requires IsListing(before, s.table, s.now) && Load(cfg.codec, before, s.files).Ok?
    requires var t := Run(cfg, s, actions);
             IsListing(after, t.table, t.now) && Load(cfg.codec, after, t.files).Ok?
    ensures var token := Sign(cfg, Load(cfg.codec, before, s.files).value, input);
            var t := Run(cfg, s, actions);
            && token.Ok?
            && token.value.kid in t.table
            && (t.now < s.now + cfg.retireAfter - 500_000_000 || Current(t.table[token.value.kid], t.now) ==>
                  Verify(cfg, Load(cfg.codec, after, t.files).value, token.value) == Ok(input))
  {
    hide Parse, Load, IsListing, Sign, Verify, Consistent, Current, Run;
    var t := Run(cfg, s, actions);
    SignedByRecord(cfg, s, before, input);
    SignerLasts(cfg, s, actions, before, input);
    RunKeeps(cfg, s, actions);
    RunKeepsRecords(cfg, s, actions);
    var token := Sign(cfg, Load(cfg.codec, before, s.files).value, input).value;
    if Current(t.table[token.kid], t.now) {
      LoadedVerifies(cfg, t, after, token);
    }
  }

  lemma SignerLasts(cfg: Config, s: State, actions: seq<Action>, records: seq<Record>, input: string)
    requires Lawful(cfg) && Consistent(cfg, s) && IsListing(records, s.table, s.now)
    requires Load(cfg.codec, records, s.files).Ok?
    ensures var r := Sign(cfg, Load(cfg.codec, records, s.files).value, input);
            var t := Run(cfg, s, actions);
            && r.Ok? && r.value.kid in t.table
            && (t.now < s.now + cfg.retireAfter - 500_000_000 ==> Current(t.table[r.value.kid], t.now))
  {
    SignedByRecord(cfg, s, records, input);
    ManagerSignsWithActiveRecord(cfg, s, records);
    hide Load, IsListing, Parse, Run;
    var kid := Sign(cfg, Load(cfg.codec, records, s.files).value, input).value.kid;
    assert RecordOk(cfg, s.files, kid, s.table[kid]);
    RunLasts(cfg, s, actions, kid, s.now);
  }

  // ---------------------------------------------------------------------------
  // Two rotations in one second
  // ---------------------------------------------------------------------------

  /** Whether loading succeeds depends on which files exist, not on their content. */
  lemma {:induction false} SameSuccess(cfg: Config, records: seq<Record>, files: Files, other: Files)
    requires files.Keys == other.Keys
    ensures LoadEach(cfg.codec, records, files).Ok? <==> LoadEach(cfg.codec, records, other).Ok?
  {
    hide Parse, MetaOf;
    if records != [] {
      SameSuccess(cfg, records[..|records| - 1], files, other);
      assert forall file :: file in files <==> file in other.Keys;
    }
  }

  /** The private key's own public half replaces the one from the document. */
  lemma {:induction false} FileDecidesPublic(cfg: Config, records: seq<Record>, files: Files, i: nat)
    requires i < |records| && LoadEach(cfg.codec, records, files).Ok? && Loadable(records[i], files)
    requires forall j, k :: 0 <= j < k < |records| ==> records[j].kid != records[k].kid
    ensures var k := LoadEach(cfg.codec, records, files).value;
            && records[i].kid in k.byKid
            && k.byKid[records[i].kid].public == files[records[i].ref.value].public
            && k.byKid[records[i].kid].meta == MetaOf(records[i].kid, records[i].alg, records[i].use)
  {
    hide Parse, MetaOf;
    var n := |records| - 1;
    if i < n {
      assert records[..n][i] == records[i];
      FileDecidesPublic(cfg, records[..n], files, i);
      assert records[i].kid != records[n].kid;
    }
  }

  /** A forced rotation in the second of the last one replaces that key's file and then
      fails to insert its record. The record stays listed, managers still load, and the
      tokens signed before no longer verify. */
  lemma SameSecondRotationBreaksTokens(cfg: Config, s: State, records: seq<Record>, key: PrivateKey, input: string)
    requires Lawful(cfg) && Consistent(cfg, s) && Generated(key)
    requires IsListing(records, s.table, s.now) && Load(cfg.codec, records, s.files).Ok?
    requires Load(cfg.codec, records, s.files).value.active == cfg.name(Unix(s.now))
    requires cfg.name(Unix(s.now)) in s.files
             && !cfg.verify(key.public, input, cfg.sign(s.files[cfg.name(Unix(s.now))], input))
    ensures var token := Sign(cfg, Load(cfg.codec, records, s.files).value, input);
            var t := Apply(cfg, s, Rotate(key, true));
            && token.Ok? && t.table == s.table && t.now == s.now
            && Load(cfg.codec, records, t.files).Ok?
            && Verify(cfg, Load(cfg.codec, records, t.files).value, token.value) == Err(BadSignature)
  {
    hide Parse, LoadOne, Unix, MetaOf, Apply;
    ManagerSignsWithActiveRecord(cfg, s, records);
    var kid := cfg.name(Unix(s.now));
    RotationOfTakenKid(cfg, s, key);
    var files := s.files[kid := key];
    assert files.Keys == s.files.Keys;
    SameSuccess(cfg, records, s.files, files);
    var i :| 0 <= i < |records| && records[i].active && Loadable(records[i], s.files);
    assert records[i].kid == kid && Loadable(records[i], files);
    FileDecidesPublic(cfg, records, files, i);
    DefaultMeta(kid, records[i].use);
  }

  lemma RotationOfTakenKid(cfg: Config, s: State, key: PrivateKey)
    requires Generated(key) && cfg.name(Unix(s.now)) in s.table
    ensures Apply(cfg, s, Rotate(key, true)) == s.(files := s.files[cfg.name(Unix(s.now)) := key])
  {
  }

  lemma DefaultMeta(kid: string, use: string)
    ensures MetaOf(kid, DEFAULT_ALG, use).alg == DEFAULT_ALG && MetaOf(kid, DEFAULT_ALG, use).kid == kid
  {
  }
}
