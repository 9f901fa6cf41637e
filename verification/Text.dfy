/** The text functions the service applies to its inputs. */
module Text {

  /** The characters `strings.TrimSpace` removes. */
  predicate IsSpace(c: char)
  {
    || c == ' ' || c == '\t' || c == '\n' || c == '\U{0B}' || c == '\U{0C}' || c == '\r'
    || c == '\U{85}' || c == '\U{A0}' || c == '\U{1680}' || '\U{2000}' <= c <= '\U{200A}'
    || c == '\U{2028}' || c == '\U{2029}' || c == '\U{202F}' || c == '\U{205F}' || c == '\U{3000}'
  }

  predicate Trimmed(s: string)
  {
    s == "" || (!IsSpace(s[0]) && !IsSpace(s[|s| - 1]))
  }

  /** The first position at or after `i` that holds no space. */
  function Start(s: string, i: nat): (r: nat)
    requires i <= |s|
    ensures i <= r <= |s| && (r < |s| ==> !IsSpace(s[r]))
    decreases |s| - i
  {
    if i < |s| && IsSpace(s[i]) then Start(s, i + 1) else i
  }

  /** The end of the text between `lo` and `n` without the spaces it ends in. */
  function End(s: string, lo: nat, n: nat): (r: nat)
    requires lo <= n <= |s|
    ensures lo <= r <= n && (r > lo ==> !IsSpace(s[r - 1]))
  {
    if n > lo && IsSpace(s[n - 1]) then End(s, lo, n - 1) else n
  }

  function Trim(s: string): (r: string)
    ensures Trimmed(r)
    ensures Trimmed(s) ==> r == s
    ensures |r| <= |s|
  {
    var lo := Start(s, 0);
    s[lo..End(s, lo, |s|)]
  }

  lemma {:induction false} StartSkips(s: string, i: nat)
    requires i <= |s|
    ensures forall k :: i <= k < Start(s, i) ==> IsSpace(s[k])
    decreases |s| - i
  {
    if i < |s| && IsSpace(s[i]) {
      StartSkips(s, i + 1);
    }
  }

  lemma {:induction false} EndSkips(s: string, lo: nat, n: nat)
    requires lo <= n <= |s|
    ensures forall k :: End(s, lo, n) <= k < n ==> IsSpace(s[k])
  {
    if n > lo && IsSpace(s[n - 1]) {
      EndSkips(s, lo, n - 1);
    }
  }

  /** Trimming cuts spaces off both ends and nothing else. */
  lemma TrimCutsSpaces(s: string) returns (lo: nat, hi: nat)
    ensures lo <= hi <= |s| && Trim(s) == s[lo..hi]
    ensures forall k :: 0 <= k < lo || hi <= k < |s| ==> IsSpace(s[k])
  {
    lo := Start(s, 0);
    hi := End(s, lo, |s|);
    StartSkips(s, 0);
    EndSkips(s, lo, |s|);
  }

  /** `unicode.ToLower`, exact on every character whose image is ASCII. Letters
      outside ASCII that map outside ASCII are left alone: no comparison in the
      service tells them apart. */
  function LowerChar(c: char): (l: char)
    ensures IsSpace(l) <==> IsSpace(c)
    ensures !('A' <= l <= 'Z')
  {
    if 'A' <= c <= 'Z' then ((c as int) + 32) as char
    else if c == '\U{212A}' then 'k'
    else if c == '\U{0130}' then 'i'
    else c
  }

  function Lower(s: string): (l: string)
    ensures |l| == |s| && forall i :: 0 <= i < |s| ==> l[i] == LowerChar(s[i])
    ensures Trimmed(s) ==> Trimmed(l)
  {
    seq(|s|, i requires 0 <= i < |s| => LowerChar(s[i]))
  }

  /** `unicode.ToUpper`, exact on every character whose image is ASCII. */
  function UpperChar(c: char): char
  {
    if 'a' <= c <= 'z' then ((c as int) - 32) as char
    else if c == '\U{017F}' then 'S'
    else if c == '\U{0131}' then 'I'
    else c
  }

  function Upper(s: string): (u: string)
    ensures |u| == |s| && forall i :: 0 <= i < |s| ==> u[i] == UpperChar(s[i])
  {
    seq(|s|, i requires 0 <= i < |s| => UpperChar(s[i]))
  }

  lemma LowerIdempotent(s: string)
    ensures Lower(Lower(s)) == Lower(s)
  {
  }
}
