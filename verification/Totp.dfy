/** Time-based one-time codes: dynamic truncation (section 5.3 of RFC 4226) and the
    three-step acceptance window (section 5.2 of RFC 6238). */
module Totp {
  import opened Clock
  import opened Wrappers
  import opened Text
  import opened Decimal
  import opened Bits

  const PERIOD: int := 30
  const DIGITS: nat := 6
  const SKEW: int := 1

  type Byte = b: nat | b < 256

  /** Base32 text to key bytes, and HMAC-SHA1 of a 64-bit counter. */
  datatype Crypto = Crypto(decodeKey: string -> Option<seq<Byte>>, mac: (seq<Byte>, int) -> seq<Byte>)

  ghost predicate Lawful(crypto: Crypto)
  {
    forall key, counter :: |crypto.mac(key, counter)| == 20
  }

  function Pow10(n: nat): (p: nat)
    ensures p >= 1
  {
    if n == 0 then 1 else 10 * Pow10(n - 1)
  }

  /** The low four bits of the last byte pick four bytes; their top bit is dropped. */
  function Truncated(sum: seq<Byte>): (t: nat)
    requires |sum| == 20
    ensures t < 0x8000_0000
  {
    var o := sum[19] % 16;
    var b0: nat, b1: nat, b2: nat, b3: nat := sum[o], sum[o + 1], sum[o + 2], sum[o + 3];
    (b0 * 0x100_0000 + b1 * 0x1_0000 + b2 * 0x100 + b3) % 0x8000_0000
  }

  /** The value of four bytes, the most significant one first, has their digits in
      place. */
  lemma WordBits(b0: Byte, b1: Byte, b2: Byte, b3: Byte, i: nat)
    requires i < 32
    ensures var b := [b3, b2, b1, b0];
            Bit(b0 * 0x100_0000 + b1 * 0x1_0000 + b2 * 0x100 + b3, i) <==> Bit(b[i / 8], i % 8)
  {
    hide Bit;
    assert Pow2(8) == 256;
    JoinedBits((b0 * 256 + b1) * 256 + b2, b3, 8, i);
    if i >= 8 {
      JoinedBits(b0 * 256 + b1, b2, 8, i - 8);
    }
    if i >= 16 {
      JoinedBits(b0, b1, 8, i - 16);
    }
  }

  /** Dynamic truncation, digit by digit: the offset has the low four digits of the last
      byte, and the result the low 31 digits of the big-endian word at that offset. */
  lemma TruncatedBits(sum: seq<Byte>) returns (offset: nat)
    requires |sum| == 20
    ensures offset < 16 && forall i: nat :: Bit(offset, i) <==> i < 4 && Bit(sum[19], i)
    ensures forall i: nat :: Bit(Truncated(sum), i) <==> i < 31 && Bit(sum[offset + 3 - i / 8], i % 8)
  {
    hide Bit;
    offset := sum[19] % 16;
    assert Pow2(4) == 16;
    assert Pow2(31) == 0x8000_0000 by {
      assert Pow2(10) == 1024 && Pow2(20) == 1048576;
    }
    forall i: nat
      ensures Bit(offset, i) <==> i < 4 && Bit(sum[19], i)
    {
      LowBits(sum[19], 4, i);
    }
    var b0: nat, b1: nat, b2: nat, b3: nat := sum[offset], sum[offset + 1], sum[offset + 2], sum[offset + 3];
    forall i: nat
      ensures Bit(Truncated(sum), i) <==> i < 31 && Bit(sum[offset + 3 - i / 8], i % 8)
    {
      LowBits(b0 * 0x100_0000 + b1 * 0x1_0000 + b2 * 0x100 + b3, 31, i);
      if i < 31 {
        WordBits(b0, b1, b2, b3, i);
      }
    }
  }

  /** Decimal text, zero-filled on the left to `width`. */
  function ZeroFilled(n: nat, width: nat): string
  {
    var digits := FormatNat(n);
    if |digits| >= width then digits else seq(width - |digits|, _ => '0') + digits
  }

  /** The code of a step: the six-digit text of the truncated value modulo a million. */
  function CodeAt(crypto: Crypto, key: seq<Byte>, step: int): string
    requires |crypto.mac(key, step)| == 20
  {
    ZeroFilled(Truncated(crypto.mac(key, step)) % 1_000_000, DIGITS)
  }

  lemma {:induction false} FormatWidth(n: nat, width: nat)
    requires width > 0
    ensures |FormatNat(n)| <= width <==> n < Pow10(width)
  {
    if n >= 10 && width > 1 {
      FormatWidth(n / 10, width - 1);
    }
  }

  lemma {:induction false} ValueOfZeros(k: nat, s: string)
    requires AllDigits(s)
    ensures AllDigits(seq(k, _ => '0') + s) && Value(seq(k, _ => '0') + s) == Value(s)
  {
    var zeros := seq(k, _ => '0');
    if s != "" {
      ValueOfZeros(k, s[..|s| - 1]);
      assert (zeros + s)[..|zeros + s| - 1] == zeros + s[..|s| - 1];
    } else if k > 0 {
      ValueOfZeros(k - 1, "");
      assert (zeros + s)[..k - 1] == seq(k - 1, _ => '0') + s;
    }
  }

  /** A number below 10^width is written with exactly `width` digits and read back. */
  lemma ZeroFilledIsExact(n: nat, width: nat)
    requires 0 < width && n < Pow10(width)
    ensures |ZeroFilled(n, width)| == width
    ensures AllDigits(ZeroFilled(n, width)) && Value(ZeroFilled(n, width)) == n
  {
    FormatWidth(n, width);
    ValueOfZeros(width - |FormatNat(n)|, FormatNat(n));
  }

  method GenerateCode(crypto: Crypto, key: seq<Byte>, counter: int) returns (code: string)
    requires Lawful(crypto)
    ensures code == CodeAt(crypto, key, counter)
    ensures |code| == DIGITS && AllDigits(code)
    ensures Value(code) == Truncated(crypto.mac(key, counter)) % 1_000_000
  {
    var sum := crypto.mac(key, counter);
    var modulo := 1;
    for i := 0 to DIGITS
      invariant modulo == Pow10(i)
    {
      modulo := modulo * 10;
    }
    assert Pow10(6) == 1_000_000 by {
      assert Pow10(3) == 1000;
    }
    code := ZeroFilled(Truncated(sum) % modulo, DIGITS);
    ZeroFilledIsExact(Truncated(sum) % modulo, DIGITS);
  }

  /** The step of an instant; division rounds towards zero. */
  function StepAt(t: Instant): int
  {
    var u := Unix(t);
    if u >= 0 then u / 30 else -(-u / 30)
  }

  /** Steps last thirty seconds; before the epoch they are rounded up, so the step around
      it lasts twice as long. */
  lemma StepBounds(t: Instant)
    ensures var step := StepAt(t);
            && (Unix(t) >= 0 ==> 30 * step <= Unix(t) < 30 * (step + 1))
            && (Unix(t) < 0 ==> 30 * (step - 1) < Unix(t) <= 30 * step)
  {
    hide Unix;
  }

  /** The earliest step of the window whose code is `code`. */
  function Matching(crypto: Crypto, key: seq<Byte>, code: string, from: int, count: nat): Option<int>
    requires forall step :: |crypto.mac(key, step)| == 20
    decreases count
  {
    if count == 0 then None
    else if CodeAt(crypto, key, from) == code then Some(from)
    else Matching(crypto, key, code, from + 1, count - 1)
  }

  /** What a presented code matches at an instant: the earliest of the previous, the
      current and the next step, for a secret that decodes to a non-empty key. */
  ghost function Matched(crypto: Crypto, secret: string, code: string, now: Instant): (r: Option<int>)
    requires Lawful(crypto)
  {
    match crypto.decodeKey(Upper(Trim(secret)))
    case None => None
    case Some(key) => if key == [] then None else Matching(crypto, key, Trim(code), StepAt(now) - SKEW, 3)
  }

  method VerifyCodeWithStep(crypto: Crypto, secret: string, code: string, now: Instant) returns (ok: bool, step: int)
    requires Lawful(crypto)
    ensures ok <==> Matched(crypto, secret, code, now).Some?
    ensures ok ==> step == Matched(crypto, secret, code, now).value
    ensures !ok ==> step == 0
  {
    hide Trim, Upper, CodeAt, StepAt;
    var trimmed := Trim(code);
    if |trimmed| != DIGITS {
      WrongLengthMatchesNothing(crypto, secret, code, now);
      return false, 0;
    }
    var key := crypto.decodeKey(Upper(Trim(secret)));
    if key.None? || key.value == [] {
      return false, 0;
    }
    var counter := StepAt(now);
    var offset := -SKEW;
    while offset <= SKEW
      invariant -SKEW <= offset <= SKEW + 1
      invariant Matched(crypto, secret, code, now)
             == Matching(crypto, key.value, trimmed, counter + offset, SKEW + 1 - offset)
    {
      step := counter + offset;
      var expected := GenerateCode(crypto, key.value, step);
      if expected == trimmed {
        return true, step;
      }
      offset := offset + 1;
    }
    return false, 0;
  }

  lemma {:induction false} WrongLength(crypto: Crypto, key: seq<Byte>, code: string, from: int, count: nat)
    requires Lawful(crypto) && |code| != DIGITS
    ensures Matching(crypto, key, code, from, count).None?
    decreases count
  {
    if count > 0 {
      CodeLength(crypto, key, from);
      WrongLength(crypto, key, code, from + 1, count - 1);
    }
  }

  lemma WrongLengthMatchesNothing(crypto: Crypto, secret: string, code: string, now: Instant)
    requires Lawful(crypto) && |Trim(code)| != DIGITS
    ensures Matched(crypto, secret, code, now).None?
  {
    hide Trim, Upper, StepAt;
    match crypto.decodeKey(Upper(Trim(secret)))
    case None =>
    case Some(key) => WrongLength(crypto, key, Trim(code), StepAt(now) - SKEW, 3);
  }

  lemma CodeLength(crypto: Crypto, key: seq<Byte>, step: int)
    requires Lawful(crypto)
    ensures |CodeAt(crypto, key, step)| == DIGITS
  {
    assert Pow10(6) == 1_000_000 by {
      assert Pow10(3) == 1000;
    }
    ZeroFilledIsExact(Truncated(crypto.mac(key, step)) % 1_000_000, DIGITS);
  }

  /** A match is a step of the window whose code was presented, and no earlier step of
      the window has that code; there is none exactly when no step has it. */
  lemma {:induction false} MatchingIsFirst(crypto: Crypto, key: seq<Byte>, code: string, from: int, count: nat)
    requires Lawful(crypto)
    ensures var r := Matching(crypto, key, code, from, count);
            && (r.Some? ==> from <= r.value < from + count && CodeAt(crypto, key, r.value) == code
                            && forall step :: from <= step < r.value ==> CodeAt(crypto, key, step) != code)
            && (r.None? ==> forall step :: from <= step < from + count ==> CodeAt(crypto, key, step) != code)
    decreases count
  {
    hide CodeAt;
    if count > 0 {
      MatchingIsFirst(crypto, key, code, from + 1, count - 1);
    }
  }

  lemma MatchIsNear(crypto: Crypto, secret: string, code: string, now: Instant)
    requires Lawful(crypto)
    ensures var r := Matched(crypto, secret, code, now);
            r.Some? ==> StepAt(now) - 1 <= r.value <= StepAt(now) + 1
  {
    hide CodeAt, StepAt, Trim, Upper;
    match crypto.decodeKey(Upper(Trim(secret)))
    case None =>
    case Some(key) => MatchingIsFirst(crypto, key, Trim(code), StepAt(now) - SKEW, 3);
  }

  lemma CodeIsTrimmed(crypto: Crypto, key: seq<Byte>, step: int)
    requires Lawful(crypto)
    ensures Trim(CodeAt(crypto, key, step)) == CodeAt(crypto, key, step)
  {
    hide Truncated, ZeroFilled, Trim;
    assert Pow10(6) == 1_000_000 by {
      assert Pow10(3) == 1000;
    }
    ZeroFilledIsExact(Truncated(crypto.mac(key, step)) % 1_000_000, DIGITS);
    assert Trimmed(CodeAt(crypto, key, step));
  }

  /** The code of every step of the window is accepted, for a step with the same code. */
  lemma WindowMatches(crypto: Crypto, secret: string, key: seq<Byte>, step: int, now: Instant)
    requires Lawful(crypto) && crypto.decodeKey(Upper(Trim(secret))) == Some(key) && key != []
    requires StepAt(now) - 1 <= step <= StepAt(now) + 1
    ensures var r := Matched(crypto, secret, CodeAt(crypto, key, step), now);
            r.Some? && r.value <= step && CodeAt(crypto, key, r.value) == CodeAt(crypto, key, step)
  {
    hide CodeAt, StepAt, Trim, Upper;
    CodeIsTrimmed(crypto, key, step);
    MatchingIsFirst(crypto, key, CodeAt(crypto, key, step), StepAt(now) - SKEW, 3);
  }
}
