/** Signing keys: the in-memory key manager, and loading it from the key table. */
module SigningKeys {
  import opened Clock
  import opened Wrappers
  import opened Jwk

  const DEFAULT_ALG := "RS256"
  const DEFAULT_USE := "sig"

  datatype PrivateKey = PrivateKey(public: PublicKey, secret: nat)

  datatype Meta = Meta(kid: string, alg: string, use: string)

  datatype ManagedKey = ManagedKey(meta: Meta, private: Option<PrivateKey>, public: PublicKey)

  /** The keys by kid, and the kid that signs; blank while there is none. */
  datatype Keys = Keys(active: string, byKid: map<string, ManagedKey>)

  const NO_KEYS := Keys("", map[])

  datatype Error = KidRequired | NoActiveKey | ActiveKeyNotFound | PublicKeyNotFound | UnsupportedAlg | AlgMismatch
                 | BadSignature | NoKeysConfigured | BadJwk | ActiveKeyUnreadable | NoActivePrivateKey | DuplicateKid

  function MetaOf(kid: string, alg: string, use: string): Meta
  {
    Meta(kid, if alg == "" then DEFAULT_ALG else alg, if use == "" then DEFAULT_USE else use)
  }

  function WithPrivate(k: Keys, kid: string, key: PrivateKey, alg: string, use: string,
                       makeActive: bool): Result<Keys, Error>
  {
    if kid == "" then Err(KidRequired)
    else Ok(Keys(if makeActive || k.active == "" then kid else k.active,
                 k.byKid[kid := ManagedKey(MetaOf(kid, alg, use), Some(key), key.public)]))
  }

  function WithPublic(k: Keys, kid: string, key: PublicKey, alg: string, use: string): Result<Keys, Error>
  {
    if kid == "" then Err(KidRequired)
    else
      var private := if kid in k.byKid then k.byKid[kid].private else None;
      Ok(k.(byKid := k.byKid[kid := ManagedKey(MetaOf(kid, alg, use), private, key)]))
  }

  function ActiveKey(k: Keys): Result<(Meta, PrivateKey), Error>
  {
    if k.active == "" then Err(NoActiveKey)
    else if k.active !in k.byKid || k.byKid[k.active].private.None? then Err(ActiveKeyNotFound)
    else Ok((k.byKid[k.active].meta, k.byKid[k.active].private.value))
  }

  function PublicKeyFor(k: Keys, kid: string): Result<(Meta, PublicKey), Error>
  {
    if kid !in k.byKid then Err(PublicKeyNotFound) else Ok((k.byKid[kid].meta, k.byKid[kid].public))
  }

  /** A private key that is made active, or is the first, signs; any other leaves the signing
      key alone. It verifies under its own public half, and other kids are untouched. */
  lemma AddedKeySigns(k: Keys, kid: string, key: PrivateKey, alg: string, use: string, makeActive: bool)
    requires kid != ""
    ensures WithPrivate(k, kid, key, alg, use, makeActive).Ok?
    ensures var r := WithPrivate(k, kid, key, alg, use, makeActive).value;
            && ActiveKey(r) == (if makeActive || k.active == "" || k.active == kid
                                then Ok((MetaOf(kid, alg, use), key)) else ActiveKey(k))
            && PublicKeyFor(r, kid) == Ok((MetaOf(kid, alg, use), key.public))
            && forall other :: other != kid ==> PublicKeyFor(r, other) == PublicKeyFor(k, other)
  {
    hide MetaOf;
  }

  /** A public key verifies and leaves private keys alone. */
  lemma AddedKeyVerifies(k: Keys, kid: string, key: PublicKey, alg: string, use: string)
    requires kid != ""
    ensures WithPublic(k, kid, key, alg, use).Ok?
    ensures var r := WithPublic(k, kid, key, alg, use).value;
            && PublicKeyFor(r, kid) == Ok((MetaOf(kid, alg, use), key))
            && (forall other :: other != kid ==> PublicKeyFor(r, other) == PublicKeyFor(k, other))
            && (ActiveKey(r).Ok? <==> ActiveKey(k).Ok?)
            && (ActiveKey(k).Ok? ==> ActiveKey(r).value.1 == ActiveKey(k).value.1)
  {
    hide MetaOf;
  }

  class KeyManager {
    var keys: Keys

    constructor ()
      ensures keys == NO_KEYS
    {
      keys := NO_KEYS;
    }

    method AddRSAKey(kid: string, key: PrivateKey, alg: string, use: string, makeActive: bool)
      returns (err: Option<Error>)
      modifies this
      ensures match WithPrivate(old(keys), kid, key, alg, use, makeActive)
              case Ok(k) => err.None? && keys == k
              case Err(e) => err == Some(e) && keys == old(keys)
    {
      if kid == "" {
        return Some(KidRequired);
      }
      keys := keys.(byKid := keys.byKid[kid := ManagedKey(MetaOf(kid, alg, use), Some(key), key.public)]);
      if makeActive || keys.active == "" {
        keys := keys.(active := kid);
      }
      err := None;
    }

    method AddRSAPublicKey(kid: string, key: PublicKey, alg: string, use: string) returns (err: Option<Error>)
      modifies this
      ensures match WithPublic(old(keys), kid, key, alg, use)
              case Ok(k) => err.None? && keys == k
              case Err(e) => err == Some(e) && keys == old(keys)
    {
      if kid == "" {
        return Some(KidRequired);
      }
      if kid !in keys.byKid {
        keys := keys.(byKid := keys.byKid[kid := ManagedKey(MetaOf(kid, alg, use), None, key)]);
        return None;
      }
      var current := keys.byKid[kid];
      keys := keys.(byKid := keys.byKid[kid := current.(meta := MetaOf(kid, alg, use), public := key)]);
      err := None;
    }
  }

  // ---------------------------------------------------------------------------
  // Loading
  // ---------------------------------------------------------------------------

  /** A row of the key table. `ref` names the file of the private key, if any. */
  datatype Record = Record(kid: string, alg: string, use: string, jwk: string, ref: Option<string>, active: bool,
                           rotatesAt: Option<Instant>, deactivatedAt: Option<Instant>)

  type Files = map<string, PrivateKey>

  predicate Loadable(r: Record, files: Files)
  {
    r.ref.Some? && r.ref.value in files
  }

  function LoadOne(codec: Codec, k: Keys, r: Record, files: Files): Result<Keys, Error>
  {
    match Parse(codec, r.jwk)
    case Err(_) => Err(BadJwk)
    case Ok(public) =>
      match WithPublic(k, r.kid, public, r.alg, r.use)
      case Err(e) => Err(e)
      case Ok(k1) =>
        if r.ref.None? then Ok(k1)
        else if r.ref.value !in files then (if r.active then Err(ActiveKeyUnreadable) else Ok(k1))
        else WithPrivate(k1, r.kid, files[r.ref.value], r.alg, r.use, r.active)
  }

  function LoadEach(codec: Codec, records: seq<Record>, files: Files): Result<Keys, Error>
  {
    if records == [] then Ok(NO_KEYS)
    else match LoadEach(codec, records[..|records| - 1], files)
      case Err(e) => Err(e)
      case Ok(k) => LoadOne(codec, k, records[|records| - 1], files)
  }

  predicate HasActivePrivate(records: seq<Record>, files: Files)
  {
    exists i :: 0 <= i < |records| && records[i].active && Loadable(records[i], files)
  }

  function Load(codec: Codec, records: seq<Record>, files: Files): Result<Keys, Error>
  {
    if records == [] then Err(NoKeysConfigured)
    else match LoadEach(codec, records, files)
      case Err(e) => Err(e)
      case Ok(k) => if HasActivePrivate(records, files) then Ok(k) else Err(NoActivePrivateKey)
  }

  /** Registers one row: its public key, then its private key if it can be read. */
  method LoadRecord(codec: Codec, manager: KeyManager, r: Record, files: Files) returns (err: Option<Error>)
    modifies manager
    ensures match LoadOne(codec, old(manager.keys), r, files)
            case Ok(k) => err.None? && manager.keys == k
            case Err(e) => err == Some(e)
  {
    hide Parse, MetaOf;
    var parsed := Parse(codec, r.jwk);
    if parsed.Err? {
      return Some(BadJwk);
    }
    err := manager.AddRSAPublicKey(r.kid, parsed.value, r.alg, r.use);
    if err.Some? || r.ref.None? {
      return;
    }
    if r.ref.value !in files {
      if r.active {
        return Some(ActiveKeyUnreadable);
      }
      return;
    }
    err := manager.AddRSAKey(r.kid, files[r.ref.value], r.alg, r.use, r.active);
  }

  method LoadKeyManagerFromRepository(codec: Codec, records: seq<Record>, files: Files)
    returns (manager: KeyManager, err: Option<Error>)
    ensures fresh(manager)
    ensures match Load(codec, records, files)
            case Ok(k) => err.None? && manager.keys == k
            case Err(e) => err == Some(e)
  {
    hide LoadOne, Loadable;
    manager := new KeyManager();
    if records == [] {
      return manager, Some(NoKeysConfigured);
    }
    var activePrivateLoaded := false;
    for i := 0 to |records|
      invariant fresh(manager)
      invariant LoadEach(codec, records[..i], files) == Ok(manager.keys)
      invariant activePrivateLoaded <==> HasActivePrivate(records[..i], files)
    {
      assert records[..i + 1][..i] == records[..i];
      LoadFails(codec, records, files, i + 1);
      err := LoadRecord(codec, manager, records[i], files);
      if err.Some? {
        return;
      }
      if records[i].active && Loadable(records[i], files) {
        activePrivateLoaded := true;
      }
      ActiveSoFar(records, files, i);
    }
    assert records[..|records|] == records;
    if !activePrivateLoaded {
      return manager, Some(NoActivePrivateKey);
    }
    err := None;
  }

  lemma ActiveSoFar(records: seq<Record>, files: Files, i: nat)
    requires i < |records|
    ensures HasActivePrivate(records[..i + 1], files)
            <==> HasActivePrivate(records[..i], files) || (records[i].active && Loadable(records[i], files))
  {
    hide Loadable;
    if HasActivePrivate(records[..i], files) {
      var j :| 0 <= j < i && records[..i][j].active && Loadable(records[..i][j], files);
      assert records[..i + 1][j] == records[..i][j];
    }
    assert records[..i + 1][i] == records[i];
  }

  /** A failure part of the way is the failure of the whole. */
  lemma {:induction false} LoadFails(codec: Codec, records: seq<Record>, files: Files, n: nat)
    requires n <= |records|
    ensures LoadEach(codec, records[..n], files).Err? ==>
              LoadEach(codec, records, files) == LoadEach(codec, records[..n], files)
  {
    if n == |records| {
      assert records[..n] == records;
    } else {
      LoadFails(codec, records[..|records| - 1], files, n);
      assert records[..|records| - 1][..n] == records[..n];
    }
  }
}
