/** Which tokens a loaded manager accepts, which managers can be loaded, and when the
    rotation check acts: each exactly. */
module TokenVerification {
  import opened Clock
  import opened Wrappers
  import opened Jwk
  import opened SigningKeys
  import opened KeyRotation

  // ---------------------------------------------------------------------------
  // Loading
  // ---------------------------------------------------------------------------

  /** A manager holds the kids of its records and no others. */
  lemma {:induction false} HeldIsListed(cfg: Config, records: seq<Record>, files: Files, kid: string)
    requires LoadEach(cfg.codec, records, files).Ok? && kid in LoadEach(cfg.codec, records, files).value.byKid
    ensures exists i :: 0 <= i < |records| && records[i].kid == kid
  {
    hide Parse, MetaOf;
    if records != [] {
      var n := |records| - 1;
      var front := LoadEach(cfg.codec, records[..n], files).value;
      if kid in front.byKid {
        HeldIsListed(cfg, records[..n], files, kid);
        var i :| 0 <= i < n && records[..n][i].kid == kid;
        assert records[i].kid == kid;
      } else {
        assert records[n].kid == kid;
      }
    }
  }

  predicate Readable(records: seq<Record>, files: Files)
  {
    forall i :: 0 <= i < |records| && records[i].active && records[i].ref.Some? ==> records[i].ref.value in files
  }

  lemma {:induction false} EachLoads(cfg: Config, records: seq<Record>, files: Files)
    requires RecordsOk(cfg, records, files)
    ensures LoadEach(cfg.codec, records, files).Ok? <==> Readable(records, files)
  {
    hide Parse, MetaOf, WithPublic, WithPrivate;
    if records != [] {
      var n := |records| - 1;
      PrefixOk(cfg, records, files, n);
      EachLoads(cfg, records[..n], files);
      assert RecordOk(cfg, files, records[n].kid, records[n]);
      if LoadEach(cfg.codec, records[..n], files).Ok? {
        OneLoads(cfg, LoadEach(cfg.codec, records[..n], files).value, records[n], files);
      }
      assert forall i :: 0 <= i < n ==> records[..n][i] == records[i];
    }
  }

  lemma OneLoads(cfg: Config, k: Keys, r: Record, files: Files)
    requires RecordOk(cfg, files, r.kid, r)
    ensures LoadOne(cfg.codec, k, r, files).Ok? <==> !(r.active && r.ref.Some? && r.ref.value !in files)
  {
    hide Parse, MetaOf;
  }

  lemma ActiveIsListed(cfg: Config, s: State, records: seq<Record>, kid: string)
    requires Consistent(cfg, s) && IsListing(records, s.table, s.now)
    requires IsActive(s.table, kid) && s.table[kid].ref.Some? && kid in s.files
    ensures HasActivePrivate(records, s.files) && Readable(records, s.files)
  {
    hide Parse;
    assert RecordOk(cfg, s.files, kid, s.table[kid]);
    assert s.table[kid] in records;
    forall i | 0 <= i < |records| && records[i].active
      ensures records[i].kid == kid
    {
      assert IsActive(s.table, records[i].kid);
    }
  }

  /** Whatever the order of the listing, a manager can be loaded exactly if the active
      record has a private key whose file is there. */
  lemma LoadsExactly(cfg: Config, s: State, records: seq<Record>)
    requires Consistent(cfg, s) && IsListing(records, s.table, s.now)
    ensures Load(cfg.codec, records, s.files).Ok?
            <==> exists kid :: IsActive(s.table, kid) && s.table[kid].ref.Some? && kid in s.files
  {
    hide RecordOk, Consistent, IsListing, LoadEach, Readable;
    if kid :| IsActive(s.table, kid) && s.table[kid].ref.Some? && kid in s.files {
      ListingOk(cfg, s, records);
      EachLoads(cfg, records, s.files);
      ActiveIsListed(cfg, s, records, kid);
    }
    if Load(cfg.codec, records, s.files).Ok? {
      ManagerSignsWithActiveRecord(cfg, s, records);
    }
  }

  // ---------------------------------------------------------------------------
  // Verification
  // ---------------------------------------------------------------------------

  /** The table lists a record of that kid, and the signature is good under the key the
      record publishes. */
  predicate Genuine(cfg: Config, table: Table, now: Instant, token: Token)
  {
    && token.alg == DEFAULT_ALG && token.kid in table && Current(table[token.kid], now)
    && Parse(cfg.codec, table[token.kid].jwk).Ok?
    && cfg.verify(Parse(cfg.codec, table[token.kid].jwk).value, token.input, token.signature)
  }

  lemma AcceptedIsGenuine(cfg: Config, s: State, records: seq<Record>, token: Token)
    requires Consistent(cfg, s) && IsListing(records, s.table, s.now) && Load(cfg.codec, records, s.files).Ok?
    requires Verify(cfg, Load(cfg.codec, records, s.files).value, token).Ok?
    ensures Genuine(cfg, s.table, s.now, token)
  {
    hide Parse, LoadEach, Current, LoadedOk, RecordsOk;
    HeldIsListed(cfg, records, s.files, token.kid);
    var i :| 0 <= i < |records| && records[i].kid == token.kid;
    ListingOk(cfg, s, records);
    LoadEachOk(cfg, records, s.files);
    HeldKey(cfg, records, s.files, LoadEach(cfg.codec, records, s.files).value, i);
  }

  /** A loaded manager accepts exactly the genuine tokens, and answers with what was
      signed. */
  lemma VerifiesExactly(cfg: Config, s: State, records: seq<Record>, token: Token)
    requires Consistent(cfg, s) && IsListing(records, s.table, s.now) && Load(cfg.codec, records, s.files).Ok?
    ensures var r := Verify(cfg, Load(cfg.codec, records, s.files).value, token);
            (r.Ok? <==> Genuine(cfg, s.table, s.now, token)) && (r.Ok? ==> r.value == token.input)
  {
    hide Consistent, IsListing, Load, Parse;
    if Genuine(cfg, s.table, s.now, token) {
      LoadedVerifies(cfg, s, records, token);
    }
    if Verify(cfg, Load(cfg.codec, records, s.files).value, token).Ok? {
      AcceptedIsGenuine(cfg, s, records, token);
    }
  }

  lemma HeldKey(cfg: Config, records: seq<Record>, files: Files, k: Keys, i: nat)
    requires LoadedOk(cfg, records, files, k) && i < |records|
    ensures records[i].kid in k.byKid && Parse(cfg.codec, records[i].jwk) == Ok(k.byKid[records[i].kid].public)
  {
    hide Parse, MetaOf, Signs;
    assert Holds(cfg, k, records[i]);
  }

  /** The manager's signing key is filed under its own kid with its own public half. */
  predicate SoundSigner(k: Keys)
  {
    k.active in k.byKid && k.byKid[k.active].private.Some? ==>
      && k.byKid[k.active].meta.kid == k.active
      && k.byKid[k.active].public == k.byKid[k.active].private.value.public
  }

  /** Any manager signs exactly if its signing key is there and of the default algorithm,
      and verifies what it signed. */
  lemma SignsExactly(cfg: Config, k: Keys, input: string)
    requires KeyRotation.Lawful(cfg) && SoundSigner(k)
    ensures var token := Sign(cfg, k, input);
            && (token.Ok? <==> && k.active != "" && k.active in k.byKid && k.byKid[k.active].private.Some?
                               && k.byKid[k.active].meta.alg == DEFAULT_ALG)
            && (token.Ok? ==> token.value.kid == k.active && Verify(cfg, k, token.value) == Ok(input))
  {
  }

  lemma RotationKeepsRetired(cfg: Config, s: State, key: PrivateKey, kid: string)
    requires Consistent(cfg, s) && kid in s.table && !Current(s.table[kid], s.now)
    ensures var t := Rotated(cfg, s, key); kid in t.table && !Current(t.table[kid], t.now)
  {
    hide Parse, NewRecord, Unix, Stored;
    assert RecordOk(cfg, s.files, kid, s.table[kid]);
  }

  lemma TimeKeepsRetired(r: Record, now: Instant, later: Instant)
    requires now <= later && !Current(r, now)
    ensures !Current(r, later)
  {
  }

  lemma StepKeepsRetired(cfg: Config, s: State, a: Action, kid: string)
    requires Consistent(cfg, s) && kid in s.table && !Current(s.table[kid], s.now)
    ensures var t := Apply(cfg, s, a); kid in t.table && !Current(t.table[kid], t.now)
  {
    hide Consistent, Rotated, Current, Due;
    match a
    case Tick(elapsed) => TimeKeepsRetired(s.table[kid], s.now, s.now + elapsed);
    case Rotate(key, force) => RotationKeepsRetired(cfg, s, key, kid);
    case LoseFile(file) =>
  }

  /** A record that is no longer listed never is again. */
  lemma {:induction false} RetiredStaysRetired(cfg: Config, s: State, actions: seq<Action>, kid: string)
    requires KeyRotation.Lawful(cfg) && Consistent(cfg, s) && DistinctRun(cfg, s, actions)
    requires kid in s.table && !Current(s.table[kid], s.now)
    ensures var t := Run(cfg, s, actions); kid in t.table && !Current(t.table[kid], t.now)
  {
    hide Consistent, Distinct, Apply, Current, KeyRotation.Lawful;
    if actions != [] {
      var n := |actions| - 1;
      assert forall k :: 0 <= k < n ==> actions[..n][..k] == actions[..k];
      RetiredStaysRetired(cfg, s, actions[..n], kid);
      RunKeeps(cfg, s, actions[..n]);
      StepKeepsRetired(cfg, Run(cfg, s, actions[..n]), actions[n], kid);
    }
  }

  /** Once the record of its kid is no longer listed, a token is refused by every manager
      loaded from then on, after whatever rotations in distinct seconds; so is a token
      whose kid no record of the table has. */
  lemma RetiredTokenIsRefused(cfg: Config, s: State, actions: seq<Action>, records: seq<Record>, token: Token)
    requires KeyRotation.Lawful(cfg) && Consistent(cfg, s) && DistinctRun(cfg, s, actions)
    requires var t := Run(cfg, s, actions);
             IsListing(records, t.table, t.now) && Load(cfg.codec, records, t.files).Ok?
    requires || (token.kid in s.table && !Current(s.table[token.kid], s.now))
             || token.kid !in Run(cfg, s, actions).table
    ensures Verify(cfg, Load(cfg.codec, records, Run(cfg, s, actions).files).value, token).Err?
  {
    RunKeeps(cfg, s, actions);
    if token.kid in s.table && !Current(s.table[token.kid], s.now) {
      RetiredStaysRetired(cfg, s, actions, token.kid);
    }
    VerifiesExactly(cfg, Run(cfg, s, actions), records, token);
    hide Run, Load, Verify, Consistent, IsListing, Parse;
  }

  // ---------------------------------------------------------------------------
  // Accepted inputs were signed
  // ---------------------------------------------------------------------------

  /** A manager loaded after `n` actions of the run signs with this key. */
  ghost predicate SignsAt(cfg: Config, s: State, actions: seq<Action>, n: nat, records: seq<Record>, key: PrivateKey)
  {
    && n <= |actions|
    && var t := Run(cfg, s, actions[..n]);
       && IsListing(records, t.table, t.now) && Load(cfg.codec, records, t.files).Ok?
       && ActiveKey(Load(cfg.codec, records, t.files).value).Ok?
       && ActiveKey(Load(cfg.codec, records, t.files).value).value.1 == key
  }

  /** Only managers of the run signed anything. */
  ghost predicate SignedInRun(cfg: Config, s: State, actions: seq<Action>, signed: set<(PrivateKey, string)>)
  {
    forall key, input :: (key, input) in signed ==> exists n, records :: SignsAt(cfg, s, actions, n, records, key)
  }

  /** The token is not a forgery: under whatever key its signature is good, the private
      half of that key signed its input. */
  ghost predicate Unforged(cfg: Config, signed: set<(PrivateKey, string)>, token: Token)
  {
    forall public :: cfg.verify(public, token.input, token.signature) ==>
      exists key :: (key, token.input) in signed && key.public == public
  }

  /** No two records publish one key. */
  predicate DistinctKeys(cfg: Config, table: Table)
  {
    forall a, b :: a in table && b in table && Parse(cfg.codec, table[a].jwk) == Parse(cfg.codec, table[b].jwk) ==>
      a == b
  }

  lemma {:induction false} RunSplits(cfg: Config, s: State, actions: seq<Action>, n: nat)
    requires n <= |actions|
    ensures Run(cfg, s, actions) == Run(cfg, Run(cfg, s, actions[..n]), actions[n..])
  {
    hide Apply;
    if n == |actions| {
      assert actions[..n] == actions && actions[n..] == [];
    } else {
      var m := |actions| - 1;
      assert actions[..m][..n] == actions[..n] && actions[..m][n..] == actions[n..m];
      assert actions[n..][..m - n] == actions[n..m];
      RunSplits(cfg, s, actions[..m], n);
    }
  }

  /** Every input that a manager accepts from a token that is not forged was signed in the
      run, by a manager loaded earlier, under a record that publishes the same key as the
      record of the token's kid; that very record, if no two records publish one key. */
  lemma AcceptedWasSigned(cfg: Config, s: State, actions: seq<Action>, records: seq<Record>, token: Token,
                          signed: set<(PrivateKey, string)>) returns (n: nat, earlier: seq<Record>, key: PrivateKey)
    requires KeyRotation.Lawful(cfg) && Consistent(cfg, s) && DistinctRun(cfg, s, actions)
    requires var t := Run(cfg, s, actions);
             IsListing(records, t.table, t.now) && Load(cfg.codec, records, t.files).Ok?
    requires Verify(cfg, Load(cfg.codec, records, Run(cfg, s, actions).files).value, token).Ok?
    requires SignedInRun(cfg, s, actions, signed) && Unforged(cfg, signed, token)
    ensures (key, token.input) in signed && SignsAt(cfg, s, actions, n, earlier, key)
    ensures var t := Run(cfg, s, actions);
            var active := Load(cfg.codec, earlier, Run(cfg, s, actions[..n]).files).value.active;
            && token.kid in t.table && active in t.table
            && Parse(cfg.codec, t.table[active].jwk) == Parse(cfg.codec, t.table[token.kid].jwk) == Ok(key.public)
            && (DistinctKeys(cfg, t.table) ==> active == token.kid)
  {
    RunKeeps(cfg, s, actions);
    VerifiesExactly(cfg, Run(cfg, s, actions), records, token);
    var public := Parse(cfg.codec, Run(cfg, s, actions).table[token.kid].jwk).value;
    key :| (key, token.input) in signed && key.public == public;
    n, earlier :| SignsAt(cfg, s, actions, n, earlier, key);
    SignerPublishes(cfg, s, actions, n, earlier, key);
  }

  /** What a manager of the run signs with is published by a record that stays. */
  lemma SignerPublishes(cfg: Config, s: State, actions: seq<Action>, n: nat, records: seq<Record>, key: PrivateKey)
    requires KeyRotation.Lawful(cfg) && Consistent(cfg, s) && DistinctRun(cfg, s, actions)
    requires SignsAt(cfg, s, actions, n, records, key)
    ensures var active := Load(cfg.codec, records, Run(cfg, s, actions[..n]).files).value.active;
            var t := Run(cfg, s, actions);
            active in t.table && Parse(cfg.codec, t.table[active].jwk) == Ok(key.public)
  {
    var u := Run(cfg, s, actions[..n]);
    assert forall k :: 0 <= k < n ==> actions[..n][..k] == actions[..k];
    RunKeeps(cfg, s, actions[..n]);
    ManagerSignsWithActiveRecord(cfg, u, records);
    RunSplits(cfg, s, actions, n);
    RunKeepsRecords(cfg, u, actions[n..]);
    var active := Load(cfg.codec, records, u.files).value.active;
    assert RecordOk(cfg, u.files, active, u.table[active]);
    hide Run, Load, IsListing, Parse, Consistent, DistinctRun;
  }

  // ---------------------------------------------------------------------------
  // The rotation check
  // ---------------------------------------------------------------------------

  /** Forced, without an active key, or inside the window before its planned rotation. */
  ghost predicate Wanted(cfg: Config, s: State, force: bool)
  {
    || force
    || (forall kid :: !IsActive(s.table, kid))
    || (exists kid :: IsActive(s.table, kid) && s.table[kid].rotatesAt.Some?
                      && s.table[kid].rotatesAt.value <= s.now + cfg.rotateBefore)
  }

  lemma DueExactly(cfg: Config, s: State, force: bool)
    requires Consistent(cfg, s)
    ensures Due(cfg, Active(s.table), s.now, force) <==> Wanted(cfg, s, force)
  {
    hide RecordOk;
    if kid :| IsActive(s.table, kid) {
      assert forall other :: IsActive(s.table, other) ==> other == kid;
      assert Active(s.table) == Some(s.table[kid]);
    }
  }

  lemma RotatedTo(cfg: Config, s: State, key: PrivateKey)
    requires KeyRotation.Lawful(cfg) && Generated(key) && cfg.name(Unix(s.now)) !in s.table
    ensures var t, kid := Rotated(cfg, s, key), cfg.name(Unix(s.now));
            && IsActive(t.table, kid) && (forall other :: IsActive(t.table, other) ==> other == kid)
            && Parse(cfg.codec, t.table[kid].jwk) == Ok(key.public) && t.table[kid].ref == Some(kid)
            && t.files == s.files[kid := key] && t.table[kid].rotatesAt == Some(Stored(s.now + Seconds(7_776_000)))
  {
    hide Parse, Build, Stored, Unix;
    ParseAfterBuild(cfg.codec, cfg.name(Unix(s.now)), key.public, DEFAULT_ALG, DEFAULT_USE);
  }

  /** The check replaces the active key exactly if it is forced, or the key's planned
      rotation lies inside the window; without an active key it always makes one. The new
      record publishes the new key, names its file, and plans the next rotation in ninety
      days. */
  lemma RotatesExactly(cfg: Config, s: State, key: PrivateKey, force: bool)
    requires KeyRotation.Lawful(cfg) && Consistent(cfg, s) && Generated(key) && cfg.name(Unix(s.now)) !in s.table
    ensures var t, kid := Apply(cfg, s, Rotate(key, force)), cfg.name(Unix(s.now));
            if Wanted(cfg, s, force) then
              && IsActive(t.table, kid) && (forall other :: IsActive(t.table, other) ==> other == kid)
              && Parse(cfg.codec, t.table[kid].jwk) == Ok(key.public) && t.table[kid].ref == Some(kid)
              && t.files == s.files[kid := key]
              && t.table[kid].rotatesAt == Some(Stored(s.now + Seconds(7_776_000)))
            else t == s
  {
    hide Parse, Stored, Unix, Due, Wanted, Rotated, Consistent, KeyRotation.Lawful, Active;
    DueExactly(cfg, s, force);
    RotatedTo(cfg, s, key);
  }

  /** After a rotation no unforced check acts before the window of the next one. */
  lemma QuietAfterRotation(cfg: Config, s: State, key: PrivateKey, later: Instant, next: PrivateKey)
    requires KeyRotation.Lawful(cfg) && Consistent(cfg, s) && Generated(key) && cfg.name(Unix(s.now)) !in s.table
    requires later + cfg.rotateBefore < Stored(s.now + Seconds(7_776_000))
    ensures var t := Apply(cfg, s, Rotate(key, true)).(now := later); Apply(cfg, t, Rotate(next, false)) == t
  {
    RotatesExactly(cfg, s, key, true);
    var t := Apply(cfg, s, Rotate(key, true)).(now := later);
    hide Rotated, Stored, Parse, Unix;
    StepKeeps(cfg, s, Rotate(key, true));
    DueExactly(cfg, t, false);
  }
}
