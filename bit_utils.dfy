/** `BitUtils`: the widths of the fixed-size numeric types and their
    big-endian two's-complement byte form. */
module BitUtils {
  import opened Wrappers
  import opened JavaInts
  import opened ConfigModel

  const BITS: nat := 8
  const BYTES_SHORT: nat := 2
  const BYTES_INT: nat := 4
  const BYTES_LONG: nat := 8
  const BITS_BOOLEAN: nat := 1

  /** The number of bytes `toBytes` and `toObject` use for a type. */
  function Width(t: TypeTag): (w: Option<nat>)
    ensures w.Some? <==> t in {TShort, TInteger, TLong}
  {
    match t
    case TShort => Some(BYTES_SHORT)
    case TInteger => Some(BYTES_INT)
    case TLong => Some(BYTES_LONG)
    case _ => None
  }

  /** `getBitLength(type)`: never an error; 0 for a type without a width. */
  function GetBitLength(t: TypeTag): (bits: nat)
    ensures Width(t).Some? ==> bits == BITS * Width(t).value
    ensures t == TBoolean ==> bits == BITS_BOOLEAN
    ensures Width(t).None? && t != TBoolean ==> bits == 0
  {
    match t
    case TShort => BYTES_SHORT * BITS
    case TInteger => BYTES_INT * BITS
    case TLong => BYTES_LONG * BITS
    case TBoolean => BITS_BOOLEAN
    case _ => 0
  }

  function Pow256(w: nat): (p: int)
    ensures p > 0
  {
    if w == 0 then 1 else 256 * Pow256(w - 1)
  }

  lemma Pow256Widths()
    ensures Pow256(2) == 0x1_0000
    ensures Pow256(4) == 0x1_0000_0000
    ensures Pow256(8) == 0x1_0000_0000_0000_0000
  {
    assert Pow256(1) == 0x100;
    assert Pow256(2) == 0x1_0000;
    assert Pow256(3) == 0x100_0000;
    assert Pow256(4) == 0x1_0000_0000;
    assert Pow256(5) == 0x100_0000_0000;
    assert Pow256(6) == 0x1_0000_0000_0000;
    assert Pow256(7) == 0x100_0000_0000_0000;
  }

  /** The unsigned number bytes denote, most significant byte first. */
  function BytesValue(bs: seq<Int8>): (u: nat)
    ensures u < Pow256(|bs|)
  {
    if bs == [] then 0 else BytesValue(bs[..|bs| - 1]) * 256 + Unsigned(bs[|bs| - 1])
  }

  /** The `w` bytes of `u`, most significant first. */
  function UnsignedBytes(u: nat, w: nat): (bs: seq<Int8>)
    requires u < Pow256(w)
    ensures |bs| == w && BytesValue(bs) == u
  {
    if w == 0 then []
    else
      var init := UnsignedBytes(u / 256, w - 1);
      var bs := init + [Signed(u % 256)];
      assert bs[..|bs| - 1] == init;
      bs
  }

  /** A signed `w`-byte value as the unsigned number with the same bits. */
  function TwosComplement(x: int, w: nat): (u: nat)
    requires 0 < w && -Pow256(w) / 2 <= x < Pow256(w) / 2
    ensures u < Pow256(w)
  {
    if x < 0 then x + Pow256(w) else x
  }

  /** The signed reading of `w` bytes. */
  function SignedValue(u: nat, w: nat): (x: int)
    ensures u < Pow256(w) ==> -Pow256(w) / 2 <= x < Pow256(w) / 2
  {
    if u >= Pow256(w) / 2 then u - Pow256(w) else u
  }

  lemma SignedTwosComplement(x: int, w: nat)
    requires 0 < w && -Pow256(w) / 2 <= x < Pow256(w) / 2
    ensures SignedValue(TwosComplement(x, w), w) == x
  {
    assert Pow256(w) == 256 * Pow256(w - 1);
  }

  /** The number a value of a fixed-size type holds, with its width. */
  function FixedValue(v: Value): Option<(int, nat)> {
    match v
    case VShort(x) => Some((x as int, BYTES_SHORT))
    case VInteger(x) => Some((x as int, BYTES_INT))
    case VLong(x) => Some((x as int, BYTES_LONG))
    case _ => None
  }

  /** `toBytes(value)`: a short, int or long as its big-endian
      two's-complement bytes; any other value as no bytes at all. */
  function ToBytes(v: Value): (bs: seq<Int8>)
    requires !v.VNull?
    ensures FixedValue(v).None? ==> bs == []
    ensures FixedValue(v).Some? ==>
      var (x, w) := FixedValue(v).value;
      |bs| == w && -Pow256(w) / 2 <= x < Pow256(w) / 2 && BytesValue(bs) == TwosComplement(x, w)
  {
    Pow256Widths();
    match v
    case VShort(x) => UnsignedBytes(TwosComplement(x as int, BYTES_SHORT), BYTES_SHORT)
    case VInteger(x) => UnsignedBytes(TwosComplement(x as int, BYTES_INT), BYTES_INT)
    case VLong(x) => UnsignedBytes(TwosComplement(x as int, BYTES_LONG), BYTES_LONG)
    case _ => []
  }

  function Zeros(n: nat): (z: seq<Int8>)
    ensures |z| == n && forall i :: 0 <= i < n ==> z[i] == 0
  {
    if n == 0 then [] else Zeros(n - 1) + [0]
  }

  /** `toObject(type, value...)`: the bytes put at the front of a buffer of
      the type's width, the rest left zero, read back as a signed number and
      widened to `long`. */
  function ToObject(t: TypeTag, bs: seq<Int8>): (r: Result<Int64>)
    ensures Width(t).None? ==> r == Err(NotImplementedError)
    ensures Width(t).Some? && |bs| > Width(t).value ==> r == Err(BufferOverflowError)
    ensures r.Ok? <==> Width(t).Some? && |bs| <= Width(t).value
  {
    match Width(t)
    case None => Err(NotImplementedError)
    case Some(w) =>
      if |bs| > w then Err(BufferOverflowError)
      else Ok(SignedLong(BytesValue(bs + Zeros(w - |bs|)), w))
  }

  lemma {:induction false} Pow256Mono(w: nat)
    requires w <= 8
    ensures Pow256(w) <= Pow256(8)
    decreases 8 - w
  {
    if w < 8 {
      Pow256Mono(w + 1);
    }
  }

  /** The signed reading of at most eight bytes, as a `long`. */
  function SignedLong(u: nat, w: nat): (x: Int64)
    requires 0 < w <= 8 && u < Pow256(w)
    ensures x as int == SignedValue(u, w)
  {
    Pow256Mono(w);
    Pow256Widths();
    SignedValue(u, w) as Int64
  }

  lemma ShiftByte(a: int, p: int)
    ensures a * p * 256 == a * (256 * p)
  {
    calc {
      a * p * 256;
      a * (p * 256);
      a * (256 * p);
    }
  }

  lemma {:induction false} BytesValueZeros(bs: seq<Int8>, n: nat)
    ensures BytesValue(bs + Zeros(n)) == BytesValue(bs) * Pow256(n)
    decreases n
  {
    if n == 0 {
      assert bs + Zeros(n) == bs;
    } else {
      var init := bs + Zeros(n - 1);
      var s := init + [0];
      assert bs + Zeros(n) == s;
      assert s[..|s| - 1] == init;
      BytesValueZeros(bs, n - 1);
      var a, p := BytesValue(bs), Pow256(n - 1);
      assert BytesValue(init) == a * p;
      assert BytesValue(s) == BytesValue(init) * 256;
      assert Pow256(n) == 256 * p;
      ShiftByte(a, p);
    }
  }

  /** Fewer bytes than the width fill its high-order positions: the value is
      that of the bytes shifted left over the missing ones. */
  lemma ToObjectPadding(t: TypeTag, bs: seq<Int8>)
    requires Width(t).Some? && |bs| <= Width(t).value
    ensures ToObject(t, bs).Ok?
    ensures ToObject(t, bs).value as int ==
      SignedValue(BytesValue(bs) * Pow256(Width(t).value - |bs|), Width(t).value)
  {
    var w := Width(t).value;
    var u := PaddedReading(t, bs);
    BytesValueZeros(bs, w - |bs|);
  }

  lemma PaddedReading(t: TypeTag, bs: seq<Int8>) returns (u: nat)
    requires Width(t).Some? && |bs| <= Width(t).value
    ensures u == BytesValue(bs + Zeros(Width(t).value - |bs|))
    ensures ToObject(t, bs).Ok? && ToObject(t, bs).value as int == SignedValue(u, Width(t).value)
  {
    var w := Width(t).value;
    assert 0 < w <= 8;
    var padded := bs + Zeros(w - |bs|);
    assert |padded| == w;
    u := BytesValue(padded);
    assert ToObject(t, bs) == Ok(SignedLong(u, w));
  }

  /** The declared type of a fixed-size value. */
  function FixedType(v: Value): TypeTag
    requires FixedValue(v).Some?
  {
    match v
    case VShort(_) => TShort
    case VInteger(_) => TInteger
    case VLong(_) => TLong
  }

  /** `toObject(type, toBytes(value))` gives the value back, widened to
      `long`. */
  lemma BytesRoundTrip(v: Value)
    requires FixedValue(v).Some?
    ensures ToObject(FixedType(v), ToBytes(v)) == Ok(FixedValue(v).value.0 as Int64)
  {
    var (x, w) := FixedValue(v).value;
    Pow256Widths();
    var bs := ToBytes(v);
    assert bs + Zeros(0) == bs;
    SignedTwosComplement(x, w);
  }

  /** The bit length of a fixed-size type is the length of its byte form. */
  lemma BitLengthOfBytes(v: Value)
    requires FixedValue(v).Some?
    ensures GetBitLength(FixedType(v)) == BITS * |ToBytes(v)|
  {
  }

  // ---------------------------------------------------------------------
  // Hexadecimal
  // ---------------------------------------------------------------------

  const HEX_ARRAY: string := "0123456789ABCDEF"

  /** `bytesToHex(bytes)`: two upper-case hex digits per byte, the high
      nibble first. */
  method BytesToHex(bytes: seq<Int8>) returns (s: string)
    ensures |s| == 2 * |bytes|
    ensures forall j :: 0 <= j < |bytes| ==>
      s[2 * j] == HEX_ARRAY[Unsigned(bytes[j]) / 16] && s[2 * j + 1] == HEX_ARRAY[Unsigned(bytes[j]) % 16]
  {
    var hexChars := new char[|bytes| * 2];
    for j := 0 to |bytes|
      invariant forall k :: 0 <= k < j ==>
        hexChars[2 * k] == HEX_ARRAY[Unsigned(bytes[k]) / 16] && hexChars[2 * k + 1] == HEX_ARRAY[Unsigned(bytes[k]) % 16]
    {
      var v := Unsigned(bytes[j]);
      hexChars[j * 2] := HEX_ARRAY[v / 16];
      hexChars[j * 2 + 1] := HEX_ARRAY[v % 16];
    }
    s := hexChars[..];
  }

  /** The value of an upper-case hex digit. */
  function HexValue(c: char): (d: Option<nat>)
    ensures d.Some? ==> d.value < 16 && HEX_ARRAY[d.value] == c
  {
    if '0' <= c <= '9' then Some((c - '0') as nat)
    else if 'A' <= c <= 'F' then Some((c - 'A') as nat + 10)
    else None
  }

  lemma HexValueOf(d: nat)
    requires d < 16
    ensures HexValue(HEX_ARRAY[d]) == Some(d)
  {
  }

  /** Reads two hex digits per byte back, high nibble first. */
  function ParseHex(s: string): Option<seq<Int8>>
    decreases |s|
  {
    if s == [] then Some([])
    else if |s| == 1 then None
    else match (HexValue(s[0]), HexValue(s[1]), ParseHex(s[2..]))
      case (Some(hi), Some(lo), Some(rest)) => Some([Signed(hi * 16 + lo)] + rest)
      case _ => None
  }

  /** Whatever `bytesToHex` writes for `bytes`, reading it back gives
      `bytes`. */
  lemma {:induction false} HexRoundTrip(bytes: seq<Int8>, s: string)
    requires |s| == 2 * |bytes|
    requires forall j :: 0 <= j < |bytes| ==>
      s[2 * j] == HEX_ARRAY[Unsigned(bytes[j]) / 16] && s[2 * j + 1] == HEX_ARRAY[Unsigned(bytes[j]) % 16]
    ensures ParseHex(s) == Some(bytes)
  {
    if bytes != [] {
      var u := Unsigned(bytes[0]);
      assert s[0] == HEX_ARRAY[u / 16] && s[1] == HEX_ARRAY[u % 16];
      HexPair(bytes[0]);
      HexShift(bytes, s);
      HexRoundTrip(bytes[1..], s[2..]);
      assert ParseHex(s) == Some([Signed(u / 16 * 16 + u % 16)] + bytes[1..]);
      assert [bytes[0]] + bytes[1..] == bytes;
    }
  }

  /** The two digits written for one byte read back as that byte. */
  lemma HexPair(b: Int8)
    ensures var u := Unsigned(b);
      HexValue(HEX_ARRAY[u / 16]) == Some(u / 16) && HexValue(HEX_ARRAY[u % 16]) == Some(u % 16) &&
      Signed(u / 16 * 16 + u % 16) == b
  {
    var u := Unsigned(b);
    HexValueOf(u / 16);
    HexValueOf(u % 16);
    assert u / 16 * 16 + u % 16 == u;
  }

  lemma HexShift(bytes: seq<Int8>, s: string)
    requires |bytes| > 0 && |s| == 2 * |bytes|
    requires forall j :: 0 <= j < |bytes| ==>
      s[2 * j] == HEX_ARRAY[Unsigned(bytes[j]) / 16] && s[2 * j + 1] == HEX_ARRAY[Unsigned(bytes[j]) % 16]
    ensures forall j :: 0 <= j < |bytes[1..]| ==>
      s[2..][2 * j] == HEX_ARRAY[Unsigned(bytes[1..][j]) / 16] && s[2..][2 * j + 1] == HEX_ARRAY[Unsigned(bytes[1..][j]) % 16]
  {
    forall j | 0 <= j < |bytes[1..]|
      ensures s[2..][2 * j] == HEX_ARRAY[Unsigned(bytes[1..][j]) / 16]
      ensures s[2..][2 * j + 1] == HEX_ARRAY[Unsigned(bytes[1..][j]) % 16]
    {
      assert s[2..][2 * j] == s[2 * (j + 1)];
      assert s[2..][2 * j + 1] == s[2 * (j + 1) + 1];
    }
  }
}
