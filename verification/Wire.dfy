/**
 The primitive encodings of BasicStream: little-endian two's complement integers, sizes of one or
 five bytes, and strings. Encoders are functions to bytes; decoders take bytes and return what is left.
 */
module Wire {
  import opened ByteStrings

  const INT_MAX := 0x7FFF_FFFF

  datatype Parsed<T> = Ok(value: T, rest: seq<byte>) | Bad

  function Pow(n: nat): (p: nat)
    ensures p >= 1
  {
    if n == 0 then 1 else 256 * Pow(n - 1)
  }

  function ToBytes(v: nat, n: nat): (bs: seq<byte>)
    ensures |bs| == n
  {
    if n == 0 then [] else [(v % 256) as byte] + ToBytes(v / 256, n - 1)
  }

  function FromBytes(bs: seq<byte>): (v: nat) {
    if bs == [] then 0 else bs[0] as nat + 256 * FromBytes(bs[1..])
  }

  lemma {:induction false} FromBytesBound(bs: seq<byte>)
    ensures FromBytes(bs) < Pow(|bs|)
  {
    if bs != [] {
      FromBytesBound(bs[1..]);
    }
  }

  lemma {:induction false} FromToBytes(v: nat, n: nat)
    requires v < Pow(n)
    ensures FromBytes(ToBytes(v, n)) == v
  {
    if n > 0 {
      FromToBytes(v / 256, n - 1);
    }
  }

  lemma {:induction false} ToFromBytes(bs: seq<byte>)
    ensures ToBytes(FromBytes(bs), |bs|) == bs
  {
    if bs != [] {
      ToFromBytes(bs[1..]);
      assert (bs[0] as nat + 256 * FromBytes(bs[1..])) / 256 == FromBytes(bs[1..]);
    }
  }

  /** The values of a signed integer of `n` bytes. */
  predicate FitsIn(v: int, n: nat) {
    -(Pow(n) as int) <= 2 * v < Pow(n)
  }

  /** An integer as the machine writes it, in `n` bytes. */
  function WriteSigned(v: int, n: nat): (bs: seq<byte>)
    ensures |bs| == n
  {
    ToBytes(v % Pow(n), n)
  }

  function ReadSigned(bs: seq<byte>): int {
    var u := FromBytes(bs);
    if 2 * u < Pow(|bs|) then u else u - Pow(|bs|)
  }

  lemma SignedRoundTrip(v: int, n: nat)
    requires FitsIn(v, n)
    ensures ReadSigned(WriteSigned(v, n)) == v
  {
    Modulus(v, Pow(n));
    FromToBytes(v % Pow(n), n);
  }

  lemma Modulus(v: int, m: int)
    requires m > 0 && -m <= 2 * v < m
    ensures v % m == if v >= 0 then v else v + m
  {
    var q, r := v / m, v % m;
    assert v == m * q + r;
    assert q >= 1 ==> m * q >= m;
    assert q <= -2 ==> m * q <= -2 * m;
    assert q == 0 ==> m * q == 0;
    assert q == -1 ==> m * q == -m;
  }

  lemma ReadSignedFits(bs: seq<byte>)
    ensures FitsIn(ReadSigned(bs), |bs|)
  {
    FromBytesBound(bs);
  }

  /** Two byte strings read as the same integer only if they are the same. */
  lemma SignedUnique(bs: seq<byte>)
    ensures WriteSigned(ReadSigned(bs), |bs|) == bs
  {
    ReadSignedFits(bs);
    FromBytesBound(bs);
    Modulus(ReadSigned(bs), Pow(|bs|));
    ToFromBytes(bs);
  }

  function ParseSigned(s: seq<byte>, n: nat): Parsed<int> {
    if |s| < n then Bad else Ok(ReadSigned(s[..n]), s[n..])
  }

  function ParseByte(s: seq<byte>): Parsed<int> {
    if s == [] then Bad else Ok(s[0] as int, s[1..])
  }

  /** writeSize. */
  function SizeBytes(n: nat): seq<byte> {
    if n > 254 then [255] + WriteSigned(n, 4) else [n as byte]
  }

  /** readSize; a negative size is an error. */
  function ParseSize(s: seq<byte>): (r: Parsed<int>)
    ensures r.Ok? ==> 0 <= r.value && |r.rest| < |s|
  {
    match ParseByte(s)
    case Bad => Bad
    case Ok(n, rest) =>
      if n != 255 then Ok(n, rest)
      else match ParseSigned(rest, 4)
        case Bad => Bad
        case Ok(v, rest') => if v < 0 then Bad else Ok(v, rest')
  }

  lemma Pow4()
    ensures Pow(4) == 0x1_0000_0000
  {
    assert Pow(1) == 256;
    assert Pow(2) == 0x1_0000;
    assert Pow(3) == 0x100_0000;
  }

  lemma ParsedSizeFits(s: seq<byte>)
    requires ParseSize(s).Ok?
    ensures ParseSize(s).value <= INT_MAX
  {
    Pow4();
    if s[0] == 255 { ReadSignedFits(s[1..][..4]); }
  }

  lemma SizeRoundTrip(n: nat, rest: seq<byte>)
    requires n <= INT_MAX
    ensures ParseSize(SizeBytes(n) + rest) == Ok(n, rest)
  {
    var s := SizeBytes(n) + rest;
    if n > 254 {
      Pow4();
      SignedRoundTrip(n, 4);
      assert s[1..] == WriteSigned(n, 4) + rest;
      assert s[1..][..4] == WriteSigned(n, 4) && s[1..][4..] == rest;
    } else {
      assert s[1..] == rest;
    }
  }

  /** write(string). */
  function StringBytes(v: seq<byte>): seq<byte> {
    SizeBytes(|v|) + v
  }

  function ParseString(s: seq<byte>): Parsed<seq<byte>> {
    match ParseSize(s)
    case Bad => Bad
    case Ok(n, rest) => if |rest| < n then Bad else Ok(rest[..n], rest[n..])
  }

  lemma StringRoundTrip(v: seq<byte>, rest: seq<byte>)
    requires |v| <= INT_MAX
    ensures ParseString(StringBytes(v) + rest) == Ok(v, rest)
  {
    assert StringBytes(v) + rest == SizeBytes(|v|) + (v + rest);
    SizeRoundTrip(|v|, v + rest);
  }

  lemma SignedThenRest(v: int, n: nat, rest: seq<byte>)
    requires FitsIn(v, n)
    ensures ParseSigned(WriteSigned(v, n) + rest, n) == Ok(v, rest)
  {
    SignedRoundTrip(v, n);
    var s := WriteSigned(v, n) + rest;
    assert s[..n] == WriteSigned(v, n) && s[n..] == rest;
  }

  /****** The bytes themselves ******/

  /** The bytes of an unsigned number, written out for the four widths. */
  lemma Digits(v: nat)
    ensures ToBytes(v, 1) == [(v % 256) as byte]
    ensures ToBytes(v, 2) == [(v % 256) as byte, (v / 0x100 % 256) as byte]
    ensures ToBytes(v, 4) == ToBytes(v, 2) + [(v / 0x1_0000 % 256) as byte, (v / 0x100_0000 % 256) as byte]
  {
    assert ToBytes(v, 2) == [(v % 256) as byte] + ToBytes(v / 256, 1);
    assert ToBytes(v, 4) == [(v % 256) as byte] + ([(v / 256 % 256) as byte] + ToBytes(v / 256 / 256, 2));
    assert v / 256 / 256 == v / 0x1_0000 && v / 256 / 256 / 256 == v / 0x100_0000;
  }

  lemma FourAndMore(v: nat, n: nat)
    ensures ToBytes(v, n + 4) == ToBytes(v, 4) + ToBytes(v / 0x1_0000_0000, n)
  {
    var v1 := v / 256;
    var v2 := v1 / 256;
    var v3 := v2 / 256;
    assert v3 / 256 == v / 0x1_0000_0000;
    assert ToBytes(v3, n + 1) == ToBytes(v3, 1) + ToBytes(v3 / 256, n);
    assert ToBytes(v2, n + 2) == ToBytes(v2, 2) + ToBytes(v3 / 256, n);
    assert ToBytes(v1, n + 3) == ToBytes(v1, 3) + ToBytes(v3 / 256, n);
  }

  /** Integers are written in two's complement, least significant byte first. */
  lemma LittleEndian(v: int, n: nat)
    requires n in {1, 2, 4, 8} && FitsIn(v, n)
    ensures var u: nat := if v >= 0 then v else v + Pow(n);
      && WriteSigned(v, n)[0] as int == u % 256
      && (n >= 2 ==> WriteSigned(v, n)[1] as int == u / 0x100 % 256)
      && (n >= 4 ==> WriteSigned(v, n)[2] as int == u / 0x1_0000 % 256 && WriteSigned(v, n)[3] as int == u / 0x100_0000 % 256)
      && (n == 8 ==> WriteSigned(v, n)[4..] == ToBytes(u / 0x1_0000_0000, 4))
  {
    Modulus(v, Pow(n));
    var u: nat := if v >= 0 then v else v + Pow(n);
    assert WriteSigned(v, n) == ToBytes(u, n);
    Digits(u);
    FourAndMore(u, 4);
  }

  /** A size takes one byte, itself, if it is at most 254, and otherwise 255 and four bytes. */
  lemma SizeForm(n: nat)
    ensures if n <= 254 then SizeBytes(n) == [n as byte] else |SizeBytes(n)| == 5 && SizeBytes(n)[0] == 255
  {
  }

  /** No shorter bytes read as the size. */
  lemma SizeShortest(s: seq<byte>, n: nat)
    requires ParseSize(s) == Ok(n, [])
    ensures |SizeBytes(n)| <= |s|
  {
    if s[0] != 255 {
      assert n == s[0] as int;
    }
  }

  /** The long form is read for every size, needed or not; only missing bytes and negative sizes are refused. */
  lemma SizeRefusedIff(s: seq<byte>)
    ensures ParseSize(s).Bad? <==> s == [] || (s[0] == 255 && (|s| < 5 || ReadSigned(s[1..5]) < 0))
    ensures |s| >= 5 && s[0] == 255 && ReadSigned(s[1..5]) >= 0 ==> ParseSize(s) == Ok(ReadSigned(s[1..5]), s[5..])
  {
    if |s| >= 5 {
      assert s[1..][..4] == s[1..5] && s[1..][4..] == s[5..];
    }
  }

  /** A string is its length and then its own bytes: one byte more than it has, or five. */
  lemma StringForm(v: seq<byte>)
    ensures StringBytes(v)[|StringBytes(v)| - |v|..] == v
    ensures |StringBytes(v)| == |v| + if |v| <= 254 then 1 else 5
    ensures |v| <= 254 ==> StringBytes(v)[0] as int == |v|
  {
  }

  /** No shorter bytes read as the string. */
  lemma StringShortest(s: seq<byte>, v: seq<byte>)
    requires ParseString(s) == Ok(v, [])
    ensures |StringBytes(v)| <= |s|
  {
    var rest := ParseSize(s).rest;
    assert rest == v;
    var head := s[..|s| - |v|];
    assert s == head + v;
    if s[0] != 255 {
      assert |v| == s[0] as int;
    }
  }

  /** A number is refused only for want of bytes. */
  lemma ShortIsBad(s: seq<byte>, n: nat)
    ensures ParseSigned(s, n).Bad? <==> |s| < n
    ensures ParseSigned(s, n).Ok? ==> s == WriteSigned(ParseSigned(s, n).value, n) + ParseSigned(s, n).rest
  {
    if |s| >= n {
      SignedUnique(s[..n]);
      assert s == s[..n] + s[n..];
    }
  }
}
