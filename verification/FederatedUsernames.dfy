/** Local usernames for users of an upstream identity provider: a clean short name is
    derived from the identity, and numbered variants are tried until one is free. */
module FederatedUsernames {
  import opened Wrappers
  import opened Text
  import opened Decimal

  /** The local username grammar: 3 to 32 letters, digits, dots, underscores, hyphens. */
  predicate UsernameChar(c: char)
  {
    || 'a' <= c <= 'z' || 'A' <= c <= 'Z' || '0' <= c <= '9'
    || IsSeparator(c)
  }

  predicate IsSeparator(c: char)
  {
    c == '.' || c == '_' || c == '-'
  }

  predicate OfUsernameChars(s: string)
  {
    forall i :: 0 <= i < |s| ==> UsernameChar(s[i])
  }

  predicate IsUsername(s: string)
  {
    3 <= |s| <= 32 && OfUsernameChars(s)
  }

  // ---------------------------------------------------------------------------
  // Cleaning a name
  // ---------------------------------------------------------------------------

  function FoldChar(c: char): char
  {
    if 'a' <= c <= 'z' || '0' <= c <= '9' || IsSeparator(c) then c else '_'
  }

  function Fold(s: string): (r: string)
    ensures |r| == |s| && forall i :: 0 <= i < |s| ==> r[i] == FoldChar(s[i])
  {
    seq(|s|, i requires 0 <= i < |s| => FoldChar(s[i]))
  }

  function Truncated(s: string, limit: nat): string
  {
    if |s| <= limit then s else s[..limit]
  }

  function SkipSeparators(s: string, i: nat): (r: nat)
    requires i <= |s|
    ensures i <= r <= |s| && (r < |s| ==> !IsSeparator(s[r]))
    decreases |s| - i
  {
    if i < |s| && IsSeparator(s[i]) then SkipSeparators(s, i + 1) else i
  }

  function DropSeparators(s: string, lo: nat, n: nat): (r: nat)
    requires lo <= n <= |s|
    ensures lo <= r <= n && (r > lo ==> !IsSeparator(s[r - 1]))
  {
    if n > lo && IsSeparator(s[n - 1]) then DropSeparators(s, lo, n - 1) else n
  }

  /** Without the separators it begins and ends with. */
  function TrimSeparators(s: string): string
  {
    var lo := SkipSeparators(s, 0);
    s[lo..DropSeparators(s, lo, |s|)]
  }

  function Padded(s: string): string
  {
    if |s| >= 3 then s else s + seq(3 - |s|, _ => 'x')
  }

  function Sanitized(raw: string): string
  {
    var value := Lower(Trim(raw));
    if value == "" then "" else Truncated(Padded(TrimSeparators(Truncated(Fold(value), 32))), 32)
  }

  method SanitizeFederatedUsername(raw: string) returns (out: string)
    ensures out == Sanitized(raw)
  {
    hide Trim, Lower, TrimSeparators;
    var value := Lower(Trim(raw));
    if value == "" {
      return "";
    }
    var b := "";
    for i := 0 to |value|
      invariant i <= 31 && b == Fold(value)[..i]
    {
      b := b + [FoldChar(value[i])];
      if |b| >= 32 {
        break;
      }
    }
    assert b == Truncated(Fold(value), 32);
    var trimmed := TrimSeparators(b);
    out := trimmed;
    while |out| < 3
      invariant |trimmed| <= |out| && out == trimmed + seq(|out| - |trimmed|, _ => 'x')
      invariant |trimmed| < 3 ==> |out| <= 3
      invariant |trimmed| >= 3 ==> out == trimmed
    {
      out := out + "x";
    }
    out := Truncated(out, 32);
  }

  predicate Folded(s: string)
  {
    forall i :: 0 <= i < |s| ==> FoldChar(s[i]) == s[i]
  }

  /** Neither begins nor ends in a separator. */
  predicate NeatEnds(s: string)
  {
    s == "" || (!IsSeparator(s[0]) && !IsSeparator(s[|s| - 1]))
  }

  lemma FoldIsFolded(s: string)
    ensures Folded(Truncated(Fold(s), 32)) && |Truncated(Fold(s), 32)| <= 32
  {
  }

  lemma TrimIsNeat(s: string)
    requires Folded(s)
    ensures Folded(TrimSeparators(s)) && NeatEnds(TrimSeparators(s)) && |TrimSeparators(s)| <= |s|
  {
    hide FoldChar, IsSeparator;
  }

  lemma PadIsNeat(s: string)
    requires Folded(s) && NeatEnds(s) && |s| <= 32
    ensures Folded(Padded(s)) && NeatEnds(Padded(s)) && 3 <= |Padded(s)| <= 32
  {
  }

  /** Cleaning any name that is not blank gives a local username in lower case that
      neither begins nor ends in a separator. */
  lemma SanitizedIsUsername(raw: string)
    ensures Trim(raw) == "" <==> Sanitized(raw) == ""
    ensures Trim(raw) != "" ==> IsUsername(Sanitized(raw)) && Folded(Sanitized(raw)) && NeatEnds(Sanitized(raw))
  {
    hide Trim, Fold, Folded, NeatEnds, TrimSeparators, Padded;
    var clean := Truncated(Fold(Lower(Trim(raw))), 32);
    FoldIsFolded(Lower(Trim(raw)));
    TrimIsNeat(clean);
    PadIsNeat(TrimSeparators(clean));
    FoldedIsUsername(Padded(TrimSeparators(clean)));
  }

  lemma {:induction false} SkipsSeparators(s: string, i: nat)
    requires i <= |s|
    ensures forall k :: i <= k < SkipSeparators(s, i) ==> IsSeparator(s[k])
    decreases |s| - i
  {
    if i < |s| && IsSeparator(s[i]) {
      SkipsSeparators(s, i + 1);
    }
  }

  lemma {:induction false} DropsSeparators(s: string, lo: nat, n: nat)
    requires lo <= n <= |s|
    ensures forall k :: DropSeparators(s, lo, n) <= k < n ==> IsSeparator(s[k])
  {
    if n > lo && IsSeparator(s[n - 1]) {
      DropsSeparators(s, lo, n - 1);
    }
  }

  /** What becomes of one character. */
  predicate Cleans(c: char, d: char)
  {
    d == if 'a' <= LowerChar(c) <= 'z' || '0' <= c <= '9' || IsSeparator(c) then LowerChar(c) else '_'
  }

  lemma FoldCleans(c: char)
    ensures Cleans(c, FoldChar(LowerChar(c)))
  {
  }

  lemma CutCleans(value: string, k: nat)
    requires k < |Truncated(Fold(Lower(value)), 32)|
    ensures Cleans(value[k], Truncated(Fold(Lower(value)), 32)[k])
  {
    hide FoldChar, Cleans;
    FoldCleans(value[k]);
  }

  lemma TrimsSeparators(s: string) returns (lo: nat, hi: nat)
    ensures lo <= hi <= |s| && TrimSeparators(s) == s[lo..hi]
    ensures forall k :: 0 <= k < lo || hi <= k < |s| ==> IsSeparator(s[k])
  {
    hide IsSeparator;
    lo := SkipSeparators(s, 0);
    hi := DropSeparators(s, lo, |s|);
    SkipsSeparators(s, 0);
    DropsSeparators(s, lo, |s|);
  }

  /** The character is replaced by a separator, or is one. */
  predicate CleansToSeparator(c: char)
  {
    exists d :: Cleans(c, d) && IsSeparator(d)
  }

  /** Of the first 32 characters those from `lo` to `hi` are kept, each in lower case or
      replaced by an underscore; those around them are separators. */
  predicate KeptFrom(value: string, lo: nat, hi: nat, kept: string)
  {
    && lo <= hi <= |value| && hi <= 32 && |kept| == hi - lo && NeatEnds(kept)
    && (forall k :: lo <= k < hi ==> Cleans(value[k], kept[k - lo]))
    && (forall k :: 0 <= k < lo ==> CleansToSeparator(value[k]))
    && (forall k :: hi <= k < 32 && k < |value| ==> CleansToSeparator(value[k]))
  }

  /** The cleaned name is what is kept of the trimmed name, filled up to three characters
      with the letter x. */
  lemma SanitizedExactly(raw: string) returns (lo: nat, hi: nat, kept: string)
    requires Trim(raw) != ""
    ensures KeptFrom(Trim(raw), lo, hi, kept)
    ensures Sanitized(raw) == kept + if |kept| >= 3 then "" else seq(3 - |kept|, _ => 'x')
  {
    hide Trim, Cleans, IsSeparator, Fold, TrimSeparators, NeatEnds;
    var value := Trim(raw);
    var cut := Truncated(Fold(Lower(value)), 32);
    lo, hi := TrimsSeparators(cut);
    kept := TrimSeparators(cut);
    FoldIsFolded(Lower(value));
    TrimIsNeat(cut);
    forall k | 0 <= k < |cut|
      ensures Cleans(value[k], cut[k])
    {
      CutCleans(value, k);
    }
    assert Sanitized(raw) == Padded(kept);
  }

  lemma FoldedIsUsername(s: string)
    requires Folded(s)
    ensures OfUsernameChars(s)
  {
  }

  // ---------------------------------------------------------------------------
  // Finding a free name
  // ---------------------------------------------------------------------------

  const ATTEMPTS: nat := 100

  function Base(raw: string): string
  {
    Truncated(if Sanitized(raw) == "" then "oidc_user" else Sanitized(raw), 26)
  }

  /** "_%02d". */
  function Suffix(i: nat): string
    requires 0 < i < ATTEMPTS
  {
    ['_', Digit(i / 10), Digit(i % 10)]
  }

  function Candidate(base: string, i: nat): string
    requires i < ATTEMPTS
  {
    if i == 0 then base else Truncated(base, 29) + Suffix(i)
  }

  datatype Lookup = Found | NotFound | Failed

  datatype Error = LookupFailed | Exhausted

  /** Tries the candidates from the `i`-th on; the first that is not taken decides. */
  function Search(base: string, find: string -> Lookup, i: nat): Result<string, Error>
    requires i <= ATTEMPTS
    decreases ATTEMPTS - i
  {
    if i == ATTEMPTS then Err(Exhausted)
    else match find(Candidate(base, i))
      case Found => Search(base, find, i + 1)
      case NotFound => Ok(Candidate(base, i))
      case Failed => Err(LookupFailed)
  }

  method AllocateFederatedUsername(raw: string, find: string -> Lookup) returns (r: Result<string, Error>)
    ensures r == Search(Base(raw), find, 0)
  {
    hide Candidate, Sanitized;
    var base := SanitizeFederatedUsername(raw);
    if base == "" {
      base := "oidc_user";
    }
    base := Truncated(base, 26);
    for i := 0 to ATTEMPTS
      invariant Search(base, find, 0) == Search(base, find, i)
    {
      var candidate := Candidate(base, i);
      var found := find(candidate);
      if found.Failed? {
        return Err(LookupFailed);
      }
      if found.NotFound? {
        return Ok(candidate);
      }
    }
    return Err(Exhausted);
  }

  predicate Taken(base: string, find: string -> Lookup, lo: nat, hi: nat)
    requires hi <= ATTEMPTS
  {
    forall j :: lo <= j < hi ==> find(Candidate(base, j)).Found?
  }

  /** The search returns the first candidate that is not taken, fails on it if its
      lookup failed, and is exhausted exactly when all are taken. */
  lemma {:induction false} SearchFindsFirst(base: string, find: string -> Lookup, i: nat)
    requires i <= ATTEMPTS
    ensures match Search(base, find, i)
            case Ok(name) =>
              exists k :: i <= k < ATTEMPTS && name == Candidate(base, k) && find(name).NotFound?
                          && Taken(base, find, i, k)
            case Err(Exhausted) => Taken(base, find, i, ATTEMPTS)
            case Err(LookupFailed) =>
              exists k :: i <= k < ATTEMPTS && find(Candidate(base, k)).Failed? && Taken(base, find, i, k)
    decreases ATTEMPTS - i
  {
    hide Candidate;
    if i < ATTEMPTS && find(Candidate(base, i)).Found? {
      SearchFindsFirst(base, find, i + 1);
      assert forall k :: i < k <= ATTEMPTS && Taken(base, find, i + 1, k) ==> Taken(base, find, i, k);
    } else {
      assert Taken(base, find, i, i);
    }
  }

  lemma BaseIsUsername(raw: string)
    ensures 3 <= |Base(raw)| <= 26 && OfUsernameChars(Base(raw))
  {
    hide Trim, Sanitized;
    SanitizedIsUsername(raw);
  }

  /** Every candidate is a local username. */
  lemma CandidateIsUsername(raw: string, i: nat)
    requires i < ATTEMPTS
    ensures IsUsername(Candidate(Base(raw), i))
  {
    hide Base;
    BaseIsUsername(raw);
  }

  /** The first candidate is the cleaned name, cut to 26 characters, or a fixed name if
      there is none; the others add an underscore and their number in two digits. A free
      first candidate is taken. */
  lemma CandidatesExactly(raw: string, i: nat, find: string -> Lookup)
    requires i < ATTEMPTS
    ensures var name := if Trim(raw) == "" then "oidc_user" else Sanitized(raw);
            var first := Candidate(Base(raw), 0);
            && first <= name && |first| == (if |name| < 26 then |name| else 26)
            && (find(first).NotFound? ==> Search(Base(raw), find, 0) == Ok(first))
            && (i > 0 ==>
                  var c := Candidate(Base(raw), i);
                  && |c| == |first| + 3 && c[..|first|] == first && c[|first|] == '_'
                  && AllDigits(c[|first| + 1..]) && Value(c[|first| + 1..]) == i)
  {
    SanitizedIsUsername(raw);
    BaseIsUsername(raw);
    hide Trim, Sanitized, Search;
    if i > 0 {
      SuffixValue(i);
      assert Candidate(Base(raw), i)[|Base(raw)| + 1..] == Suffix(i)[1..];
    }
    assert Search(Base(raw), find, 0) == Ok(Base(raw)) || !find(Base(raw)).NotFound? by {
      SearchFirst(Base(raw), find);
    }
  }

  lemma SearchFirst(base: string, find: string -> Lookup)
    ensures find(base).NotFound? ==> Search(base, find, 0) == Ok(base)
  {
  }

  lemma SuffixValue(i: nat)
    requires 0 < i < ATTEMPTS
    ensures AllDigits(Suffix(i)[1..]) && Value(Suffix(i)[1..]) == i
  {
    assert Suffix(i)[1..] == [Digit(i / 10), Digit(i % 10)];
    assert [Digit(i / 10), Digit(i % 10)][..1] == [Digit(i / 10)] && [Digit(i / 10)][..0] == "";
    assert Value([Digit(i / 10)]) == i / 10;
  }

  /** The hundred candidates are pairwise distinct. */
  lemma CandidatesAreDistinct(raw: string, i: nat, j: nat)
    requires i < j < ATTEMPTS
    ensures Candidate(Base(raw), i) != Candidate(Base(raw), j)
  {
    hide Base;
    BaseIsUsername(raw);
    if i > 0 {
      assert Candidate(Base(raw), i)[|Base(raw)|..] == Suffix(i);
      assert Candidate(Base(raw), j)[|Base(raw)|..] == Suffix(j);
      assert Suffix(i)[1] != Suffix(j)[1] || Suffix(i)[2] != Suffix(j)[2];
    }
  }

  /** For every identity the allocator returns an unused local username, and without
      lookup errors it fails exactly when all hundred candidates are taken. */
  lemma AllocationIsUnused(raw: string, find: string -> Lookup)
    ensures var r := Search(Base(raw), find, 0);
            && (r.Ok? ==> IsUsername(r.value) && find(r.value).NotFound?)
            && (r == Err(Exhausted) <==> Taken(Base(raw), find, 0, ATTEMPTS))
            && ((forall i :: 0 <= i < ATTEMPTS ==> !find(Candidate(Base(raw), i)).Failed?) ==>
                  (r.Err? <==> Taken(Base(raw), find, 0, ATTEMPTS)))
  {
    hide Candidate, Base, Search, IsUsername;
    SearchFindsFirst(Base(raw), find, 0);
    forall i | 0 <= i < ATTEMPTS
      ensures IsUsername(Candidate(Base(raw), i))
    {
      CandidateIsUsername(raw, i);
    }
  }
}
