/** Scope lists: normalisation, containment, and the remembered consent that a later
    authorization must be covered by. */
module Scopes {
  import opened Wrappers
  import opened Text

  /** JSON text of a list of strings, as the library writes and parses it. */
  datatype Json = Json(encode: seq<string> -> string, parse: string -> Option<seq<string>>)

  ghost predicate Lawful(json: Json)
  {
    forall scopes :: json.parse(json.encode(scopes)) == Some(scopes) && Trim(json.encode(scopes)) != ""
  }

  /** Text that is blank or not a list of strings reads as no scopes. */
  function Decode(json: Json, raw: string): seq<string>
  {
    if Trim(raw) == "" then [] else json.parse(raw).GetOr([])
  }

  lemma DecodeAfterEncode(json: Json, scopes: seq<string>)
    requires Lawful(json)
    ensures Decode(json, json.encode(scopes)) == scopes
  {
  }

  /** The non-blank scopes of a list, trimmed. */
  function Named(scopes: seq<string>): set<string>
  {
    set i | 0 <= i < |scopes| && Trim(scopes[i]) != "" :: Trim(scopes[i])
  }

  lemma NamedExtend(scopes: seq<string>, scope: string)
    ensures Named(scopes + [scope]) == Named(scopes) + (if Trim(scope) == "" then {} else {Trim(scope)})
  {
    hide Trim;
    var all := scopes + [scope];
    forall name | name in Named(scopes)
      ensures name in Named(all)
    {
      var i :| 0 <= i < |scopes| && Trim(scopes[i]) != "" && Trim(scopes[i]) == name;
      assert all[i] == scopes[i];
    }
    assert all[|scopes|] == scope;
  }

  predicate NoDuplicates(scopes: seq<string>)
  {
    forall i, j :: 0 <= i < j < |scopes| ==> scopes[i] != scopes[j]
  }

  /** Keeps the first appearance of each name, in order. */
  function Normalized(scopes: seq<string>): seq<string>
  {
    if scopes == [] then []
    else
      var front, last := Normalized(scopes[..|scopes| - 1]), Trim(scopes[|scopes| - 1]);
      if last == "" || last in front then front else front + [last]
  }

  method NormalizeScopes(scopes: seq<string>) returns (result: seq<string>)
    ensures result == Normalized(scopes)
  {
    hide Trim;
    var seen := {};
    result := [];
    for i := 0 to |scopes|
      invariant result == Normalized(scopes[..i])
      invariant forall name :: name in seen <==> name in result
    {
      assert scopes[..i + 1][..i] == scopes[..i];
      var scope := Trim(scopes[i]);
      if scope == "" {
        continue;
      }
      if scope in seen {
        continue;
      }
      seen := seen + {scope};
      result := result + [scope];
    }
    assert scopes[..|scopes|] == scopes;
  }

  /** Normalising lists every name exactly once and nothing else, trimmed, so doing it
      again changes nothing. */
  lemma {:induction false} NormalizedIsNamed(scopes: seq<string>)
    ensures forall name :: name in Normalized(scopes) <==> name in Named(scopes)
    ensures forall name :: name in Normalized(scopes) ==> name != "" && Trim(name) == name
    ensures NoDuplicates(Normalized(scopes))
  {
    hide Trim;
    if scopes != [] {
      var front, last := scopes[..|scopes| - 1], scopes[|scopes| - 1];
      NormalizedIsNamed(front);
      NamedExtend(front, last);
      assert scopes == front + [last];
    }
  }

  lemma {:induction false} AlreadyNormal(scopes: seq<string>)
    requires NoDuplicates(scopes) && forall name :: name in scopes ==> name != "" && Trim(name) == name
    ensures Normalized(scopes) == scopes
  {
    hide Trim;
    if scopes != [] {
      var front := scopes[..|scopes| - 1];
      assert scopes == front + [scopes[|scopes| - 1]];
      assert forall name :: name in front ==> name in scopes;
      AlreadyNormal(front);
    }
  }

  lemma NormalizeIdempotent(scopes: seq<string>)
    ensures Normalized(Normalized(scopes)) == Normalized(scopes)
  {
    NormalizedIsNamed(scopes);
    AlreadyNormal(Normalized(scopes));
  }

  method NameSet(scopes: seq<string>, start: set<string>) returns (names: set<string>)
    ensures names == start + Named(scopes)
  {
    hide Trim;
    names := start;
    for i := 0 to |scopes|
      invariant names == start + Named(scopes[..i])
    {
      assert scopes[..i + 1] == scopes[..i] + [scopes[i]];
      NamedExtend(scopes[..i], scopes[i]);
      var scope := Trim(scopes[i]);
      if scope == "" {
        continue;
      }
      names := names + {scope};
    }
    assert scopes[..|scopes|] == scopes;
  }

  predicate Contained(values: seq<string>, allowed: seq<string>)
  {
    forall i :: 0 <= i < |values| ==> values[i] in Named(allowed)
  }

  method AllContained(values: seq<string>, allowed: seq<string>) returns (ok: bool)
    ensures ok <==> Contained(values, allowed)
  {
    var allowedSet := NameSet(allowed, {});
    for i := 0 to |values|
      invariant forall k :: 0 <= k < i ==> values[k] in Named(allowed)
    {
      if values[i] !in allowedSet {
        return false;
      }
    }
    return true;
  }

  // ---------------------------------------------------------------------------
  // Remembered consent
  // ---------------------------------------------------------------------------

  /** The consent table: one row per user and client, holding JSON text. No statement
      of the program ever revokes a row. */
  type Consents = map<(int, int), string>

  datatype Error = Malformed

  /** The names a user has consented to for a client; `None` if the text is unreadable. */
  function Granted(json: Json, consents: Consents, userId: int, clientId: int): Option<set<string>>
  {
    if (userId, clientId) !in consents then Some({})
    else match json.parse(consents[(userId, clientId)])
      case None => None
      case Some(scopes) => Some(Named(scopes))
  }

  class ConsentRepository {
    const json: Json
    var consents: Consents

    constructor (json: Json)
      ensures this.json == json && consents == map[]
    {
      this.json := json;
      consents := map[];
    }

    /** Consent covers the request exactly when every name asked for was granted. */
    method HasActiveConsent(userId: int, clientId: int, scopes: seq<string>) returns (r: Result<bool, Error>)
      ensures (userId, clientId) !in consents ==> r == Ok(false)
      ensures (userId, clientId) in consents ==>
                match Granted(json, consents, userId, clientId)
                case None => r == Err(Malformed)
                case Some(granted) => r == Ok(Named(scopes) <= granted)
    {
      hide Trim;
      if (userId, clientId) !in consents {
        return Ok(false);
      }
      var parsed := json.parse(consents[(userId, clientId)]);
      if parsed.None? {
        return Err(Malformed);
      }
      var granted := NameSet(parsed.value, {});
      for i := 0 to |scopes|
        invariant Named(scopes[..i]) <= granted
      {
        assert scopes[..i + 1] == scopes[..i] + [scopes[i]];
        NamedExtend(scopes[..i], scopes[i]);
        var scope := Trim(scopes[i]);
        if scope == "" {
          continue;
        }
        if scope !in granted {
          assert scope in Named(scopes);
          return Ok(false);
        }
      }
      assert scopes[..|scopes|] == scopes;
      return Ok(true);
    }

    /** Accepting merges the scopes into what was granted before, in any order, and
        leaves every other row alone. */
    method UpsertActiveConsent(userId: int, clientId: int, scopes: seq<string>) returns (err: Option<Error>)
      requires Lawful(json)
      modifies this
      ensures err.Some? ==> consents == old(consents)
      ensures err.None? ==>
                && (userId, clientId) in consents
                && consents == old(consents)[(userId, clientId) := consents[(userId, clientId)]]
                && Granted(json, consents, userId, clientId)
                   == Some(Merged(json, old(consents), userId, clientId, scopes))
      ensures err.Some? <==> (userId, clientId) in old(consents)
                             && Trim(old(consents)[(userId, clientId)]) != ""
                             && json.parse(old(consents)[(userId, clientId)]).None?
    {
      hide Trim;
      var names := NameSet(scopes, {});
      if (userId, clientId) in consents && Trim(consents[(userId, clientId)]) != "" {
        var existing := json.parse(consents[(userId, clientId)]);
        if existing.None? {
          return Some(Malformed);
        }
        names := NameSet(existing.value, names);
      }
      NamesAreTrimmed(scopes);
      NamesAreTrimmed(Existing(json, consents, userId, clientId));
      var merged := ListOf(names);
      consents := consents[(userId, clientId) := json.encode(merged)];
      err := None;
    }
  }

  /** What an upsert reads of the row: nothing when there is none or it is blank. */
  function Existing(json: Json, consents: Consents, userId: int, clientId: int): seq<string>
  {
    if (userId, clientId) in consents then Decode(json, consents[(userId, clientId)]) else []
  }

  function Merged(json: Json, consents: Consents, userId: int, clientId: int, scopes: seq<string>): set<string>
  {
    Named(scopes) + Named(Existing(json, consents, userId, clientId))
  }

  lemma NamesAreTrimmed(scopes: seq<string>)
    ensures forall name :: name in Named(scopes) ==> name != "" && Trim(name) == name
  {
  }

  /** Lists a set of names in whatever order the set yields them. */
  method ListOf(names: set<string>) returns (list: seq<string>)
    requires forall name :: name in names ==> name != "" && Trim(name) == name
    ensures Named(list) == names && |list| == |names|
  {
    hide Trim;
    list := [];
    var left := names;
    while left != {}
      invariant left <= names && Named(list) == names - left && |list| + |left| == |names|
    {
      var name :| name in left;
      NamedExtend(list, name);
      list := list + [name];
      left := left - {name};
    }
  }
}
