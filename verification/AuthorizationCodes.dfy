/** Authorization codes: the table that hands out each code once, and the proof key
    (PKCE) that a code is bound to. */
module AuthorizationCodes {
  import opened Clock
  import opened Wrappers
  import opened Text

  // ---------------------------------------------------------------------------
  // Proof keys
  // ---------------------------------------------------------------------------

  function NormalizeMethod(mode: string): string
  {
    var upper := Upper(Trim(mode));
    if upper == "" || upper == "PLAIN" then "plain"
    else if upper == "S256" then "S256"
    else Trim(mode)
  }

  lemma NormalizeTrims(mode: string)
    ensures NormalizeMethod(Trim(mode)) == NormalizeMethod(mode)
  {
    hide Upper;
  }

  predicate KnownMethod(mode: string)
  {
    NormalizeMethod(mode) == "plain" || NormalizeMethod(mode) == "S256"
  }

  /** Blank counts as plain, case does not matter, and nothing else is known. */
  lemma MethodsExactly(mode: string)
    ensures NormalizeMethod(mode) == "plain" <==> Upper(Trim(mode)) == "" || Upper(Trim(mode)) == "PLAIN"
    ensures NormalizeMethod(mode) == "S256" <==> Upper(Trim(mode)) == "S256"
    ensures Upper(Trim(mode)) == "" <==> Trim(mode) == ""
  {
    UpperOfNormal();
    hide Trim;
  }

  /** What the authorization endpoint accepts. */
  predicate ValidChallenge(required: bool, challenge: string, mode: string)
  {
    if challenge == "" then !required else KnownMethod(mode)
  }

  /** What the token endpoint accepts; `s256` is the base64url text of a SHA-256 hash. */
  predicate ValidVerifier(s256: string -> string, challenge: string, mode: string, required: bool, verifier: string)
  {
    if challenge == "" then !required
    else if verifier == "" then false
    else
      var upper := Upper(mode);
      if upper == "" || upper == "PLAIN" then challenge == verifier
      else if upper == "S256" then challenge == s256(verifier)
      else false
  }

  /** The transform of section 4.6 of RFC 7636. */
  function Transform(s256: string -> string, mode: string, verifier: string): string
    requires mode == "plain" || mode == "S256"
  {
    if mode == "plain" then verifier else s256(verifier)
  }

  lemma UpperOfNormal()
    ensures Upper("plain") == "PLAIN" && Upper("S256") == "S256"
  {
    assert Upper("plain") == ['P', 'L', 'A', 'I', 'N'];
    assert Upper("S256") == ['S', '2', '5', '6'];
  }

  /** Every challenge the authorization endpoint lets through is stored with a method
      the token endpoint knows, and then a non-empty verifier is accepted exactly when
      its transform is the stored challenge. */
  lemma ChallengeMeetsVerifier(s256: string -> string, required: bool, challenge: string, mode: string,
                               verifier: string)
    requires challenge != "" && ValidChallenge(required, challenge, mode)
    ensures NormalizeMethod(mode) == "plain" || NormalizeMethod(mode) == "S256"
    ensures ValidVerifier(s256, challenge, NormalizeMethod(mode), required, verifier)
            <==> verifier != "" && Transform(s256, NormalizeMethod(mode), verifier) == challenge
  {
    hide NormalizeMethod, Upper;
    UpperOfNormal();
  }

  // ---------------------------------------------------------------------------
  // The code table
  // ---------------------------------------------------------------------------

  datatype Code = Code(clientId: int, userId: int, redirectUri: string, scopesJson: string,
                       challenge: string, mode: string, expiresAt: Instant, consumedAt: Option<Instant>)

  /** Codes by the form their column compares them in: the collation ignores case and
      accents, so one presented text may stand for another. */
  type Codes = map<string, Code>

  predicate Consumable(codes: Codes, key: string, at: Instant)
  {
    key in codes && codes[key].consumedAt.None? && codes[key].expiresAt > at
  }

  function Consumed(code: Code, at: Instant): Code
  {
    code.(consumedAt := Some(at))
  }

  class AuthorizationCodeRepository {
    const collate: string -> string
    var codes: Codes

    constructor (collate: string -> string)
      ensures this.collate == collate && codes == map[]
    {
      this.collate := collate;
      codes := map[];
    }

    method Create(code: string, model: Code) returns (ok: bool)
      modifies this
      ensures ok <==> collate(code) !in old(codes)
      ensures codes == if ok then old(codes)[collate(code) := model.(expiresAt := Stored(model.expiresAt))]
              else old(codes)
    {
      ok := collate(code) !in codes;
      if ok {
        codes := codes[collate(code) := model.(expiresAt := Stored(model.expiresAt))];
      }
    }

    /** Locks the row, refuses a used or expired code, and marks it used. The caller
        sees the exact time; the table keeps it in whole seconds. */
    method ConsumeByCode(code: string, at: Instant) returns (model: Option<Code>)
      modifies this
      ensures model.Some? <==> Consumable(old(codes), collate(code), at)
      ensures model.Some? ==> model.value == Consumed(old(codes)[collate(code)], at)
      ensures codes == if model.Some? then old(codes)[collate(code) := Consumed(old(codes)[collate(code)], Stored(at))]
                       else old(codes)
    {
      if collate(code) !in codes {
        return None;
      }
      var row := codes[collate(code)];
      if row.consumedAt.Some? || !(row.expiresAt > at) {
        return None;
      }
      codes := codes[collate(code) := Consumed(row, Stored(at))];
      return Some(Consumed(row, at));
    }
  }
}
