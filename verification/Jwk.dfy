/** RSA public keys as JSON Web Keys (section 6.3.1 of RFC 7518): the modulus and the
    exponent are unsigned big-endian bytes in base64url. */
module Jwk {
  import opened Wrappers
  import opened Text

  type Byte = b: nat | b < 256

  /** The range of a 64-bit `int`. */
  const MAX_INT: int := 0x7FFF_FFFF_FFFF_FFFF
  const MIN_INT: int := -0x8000_0000_0000_0000

  predicate IsInt(x: int)
  {
    MIN_INT <= x <= MAX_INT
  }

  /** Two's complement wrap-around. */
  function Wrap(x: int): (r: int)
    ensures IsInt(r) && (IsInt(x) ==> r == x)
  {
    var m := x % 0x1_0000_0000_0000_0000;
    if m <= MAX_INT then m else m - 0x1_0000_0000_0000_0000
  }

  // ---------------------------------------------------------------------------
  // Big-endian bytes
  // ---------------------------------------------------------------------------

  /** The shortest big-endian bytes of a number; none for zero. */
  function BytesOf(n: nat): (bytes: seq<Byte>)
    ensures bytes == [] <==> n == 0
  {
    if n == 0 then [] else BytesOf(n / 256) + [n % 256]
  }

  function NumberOf(bytes: seq<Byte>): nat
  {
    if bytes == [] then 0 else NumberOf(bytes[..|bytes| - 1]) * 256 + bytes[|bytes| - 1]
  }

  lemma {:induction false} NumberOfBytes(n: nat)
    ensures NumberOf(BytesOf(n)) == n
  {
    if n != 0 {
      NumberOfBytes(n / 256);
      assert BytesOf(n)[..|BytesOf(n)| - 1] == BytesOf(n / 256);
    }
  }

  /** Zero is one byte; a negative exponent has no bytes at all. */
  function ExponentBytes(exponent: int): seq<Byte>
  {
    if exponent == 0 then [0] else if exponent < 0 then [] else BytesOf(exponent)
  }

  /** Prepends the lowest byte and shifts, until nothing is left. */
  method BigEndianExponentBytes(exponent: int) returns (out: seq<Byte>)
    ensures out == ExponentBytes(exponent)
  {
    if exponent == 0 {
      return [0];
    }
    out := [];
    var value := exponent;
    while value > 0
      invariant exponent > 0 ==> value >= 0 && BytesOf(exponent) == BytesOf(value) + out
      invariant exponent < 0 ==> value == exponent && out == []
    {
      assert BytesOf(value) == BytesOf(value / 256) + [value % 256];
      out := [value % 256] + out;
      value := value / 256;
    }
  }

  datatype JwkError = NotJson | UnsupportedKty | BadModulus | BadExponent | MissingExponent | InvalidExponent

  /** The accumulator `(exponent << 8) | b` on 64-bit integers. */
  function Accumulated(bytes: seq<Byte>): (x: int)
    ensures IsInt(x)
  {
    if bytes == [] then 0 else Wrap(Accumulated(bytes[..|bytes| - 1]) * 256 + bytes[|bytes| - 1])
  }

  function ParsedExponent(bytes: seq<Byte>): Result<int, JwkError>
  {
    if bytes == [] then Err(MissingExponent)
    else if Accumulated(bytes) == 0 then Err(InvalidExponent)
    else Ok(Accumulated(bytes))
  }

  method ParseExponent(bytes: seq<Byte>) returns (r: Result<int, JwkError>)
    ensures r == ParsedExponent(bytes)
  {
    if bytes == [] {
      return Err(MissingExponent);
    }
    var exponent := 0;
    for i := 0 to |bytes|
      invariant exponent == Accumulated(bytes[..i])
    {
      assert bytes[..i + 1][..i] == bytes[..i];
      exponent := Wrap(exponent * 256 + bytes[i]);
    }
    assert bytes[..|bytes|] == bytes;
    if exponent == 0 {
      return Err(InvalidExponent);
    }
    return Ok(exponent);
  }

  /** No wrap-around happens on the bytes of a 64-bit number. */
  lemma {:induction false} AccumulatedBytes(n: nat)
    requires n <= MAX_INT
    ensures Accumulated(BytesOf(n)) == n
  {
    if n != 0 {
      AccumulatedBytes(n / 256);
      assert BytesOf(n)[..|BytesOf(n)| - 1] == BytesOf(n / 256);
    }
  }

  /** Reading back the bytes of an exponent gives it again exactly when it is positive. */
  lemma ExponentRoundTrip(exponent: int)
    requires IsInt(exponent)
    ensures ParsedExponent(ExponentBytes(exponent)) == Ok(exponent) <==> exponent > 0
  {
    if exponent > 0 {
      AccumulatedBytes(exponent);
    } else if exponent == 0 {
      assert Accumulated([0]) == 0;
    }
  }

  // ---------------------------------------------------------------------------
  // The document
  // ---------------------------------------------------------------------------

  datatype PublicKey = PublicKey(n: nat, e: int)

  datatype Document = Document(kty: string, kid: string, use: string, alg: string, n: string, e: string)

  /** base64url without padding, and JSON text of a document. */
  datatype Codec = Codec(base64: seq<Byte> -> string, unbase64: string -> Option<seq<Byte>>,
                         marshal: Document -> string, unmarshal: string -> Option<Document>)

  ghost predicate Lawful(codec: Codec)
  {
    && (forall bytes :: codec.unbase64(codec.base64(bytes)) == Some(bytes))
    && (forall doc :: codec.unmarshal(codec.marshal(doc)) == Some(doc))
  }

  function Build(codec: Codec, kid: string, key: PublicKey, alg: string, use: string): string
  {
    codec.marshal(Document("RSA", kid, use, alg, codec.base64(BytesOf(key.n)), codec.base64(ExponentBytes(key.e))))
  }

  function Parse(codec: Codec, raw: string): Result<PublicKey, JwkError>
  {
    match codec.unmarshal(raw)
    case None => Err(NotJson)
    case Some(doc) =>
      if Upper(Trim(doc.kty)) != "RSA" then Err(UnsupportedKty)
      else match codec.unbase64(doc.n)
        case None => Err(BadModulus)
        case Some(modulus) =>
          match codec.unbase64(doc.e)
          case None => Err(BadExponent)
          case Some(bytes) =>
            match ParsedExponent(bytes)
            case Err(e) => Err(e)
            case Ok(exponent) => Ok(PublicKey(NumberOf(modulus), exponent))
  }

  /** Which documents are parsed, to which key, and what is wrong with the others, in the
      order in which it is looked for. */
  lemma ParsesExactly(codec: Codec, raw: string)
    ensures var r, document := Parse(codec, raw), codec.unmarshal(raw);
            && (r == Err(NotJson) <==> document.None?)
            && (document.Some? ==>
                  var n, e := codec.unbase64(document.value.n), codec.unbase64(document.value.e);
                  var rsa := Upper(Trim(document.value.kty)) == "RSA";
                  && (r == Err(UnsupportedKty) <==> !rsa)
                  && (r == Err(BadModulus) <==> rsa && n.None?)
                  && (r == Err(BadExponent) <==> rsa && n.Some? && e.None?)
                  && (r == Err(MissingExponent) <==> rsa && n.Some? && e == Some([]))
                  && (r.Ok? ==> rsa && n.Some? && e.Some? && r.value.n == NumberOf(n.value) && r.value.e != 0)
                  && (rsa && n.Some? && e.Some? && 0 < NumberOf(e.value) <= MAX_INT ==>
                        r == Ok(PublicKey(NumberOf(n.value), NumberOf(e.value)))))
  {
    hide Trim, Upper;
    if codec.unmarshal(raw).Some? && codec.unbase64(codec.unmarshal(raw).value.e).Some? {
      var bytes := codec.unbase64(codec.unmarshal(raw).value.e).value;
      if 0 < NumberOf(bytes) <= MAX_INT {
        AccumulatedIsNumber(bytes);
      }
    }
  }

  /** Bytes whose number fits are read without wrap-around, whatever zeros they begin
      with. */
  lemma {:induction false} AccumulatedIsNumber(bytes: seq<Byte>)
    requires NumberOf(bytes) <= MAX_INT
    ensures Accumulated(bytes) == NumberOf(bytes)
  {
    if bytes != [] {
      AccumulatedIsNumber(bytes[..|bytes| - 1]);
    }
  }

  /** Parsing a built document gives the key back exactly when its exponent is positive. */
  lemma ParseAfterBuild(codec: Codec, kid: string, key: PublicKey, alg: string, use: string)
    requires Lawful(codec) && IsInt(key.e)
    ensures Parse(codec, Build(codec, kid, key, alg, use)) == Ok(key) <==> key.e > 0
  {
    hide ParsedExponent, ExponentBytes, BytesOf, NumberOf, Trim;
    ExponentRoundTrip(key.e);
    NumberOfBytes(key.n);
    assert Upper("RSA") == "RSA";
  }
}
