/**
 The byte encodings a PSBT is made of: little-endian integers, CompactSize
 lengths, and the reversed hexadecimal form of a transaction id. Each is read
 back by the decoder next to it.
 */
module Encodings {
  import opened Prelude

  // ---- fixed-width integers ----

  function Power256(width: nat): (r: nat)
    ensures r >= 1
  {
    if width == 0 then 1 else 256 * Power256(width - 1)
  }

  /** `n.to_bytes(width, "little")`. */
  function Little(n: nat, width: nat): (r: Bytes)
    ensures |r| == width
  {
    if width == 0 then [] else [n % 256] + Little(n / 256, width - 1)
  }

  function FromLittle(b: Bytes): nat {
    if b == [] then 0 else b[0] + 256 * FromLittle(b[1..])
  }

  function Reverse(b: Bytes): (r: Bytes)
    ensures |r| == |b|
  {
    if b == [] then [] else Reverse(b[1..]) + [b[0]]
  }

  /** `n.to_bytes(width, "big")`. */
  function Big(n: nat, width: nat): (r: Bytes)
    ensures |r| == width
  {
    Reverse(Little(n, width))
  }

  function FromBig(b: Bytes): nat {
    FromLittle(Reverse(b))
  }

  lemma {:induction false} LittleRoundTrip(n: nat, width: nat)
    requires n < Power256(width)
    ensures FromLittle(Little(n, width)) == n
  {
    if width != 0 {
      LittleRoundTrip(n / 256, width - 1);
      assert Little(n, width)[1..] == Little(n / 256, width - 1);
    }
  }

  /** Every string of bytes is the encoding of the number it reads as. */
  lemma {:induction false} LittleInverse(b: Bytes)
    ensures Little(FromLittle(b), |b|) == b && FromLittle(b) < Power256(|b|)
  {
    if b != [] {
      LittleInverse(b[1..]);
      assert b == [b[0]] + b[1..];
      assert FromLittle(b) % 256 == b[0] && FromLittle(b) / 256 == FromLittle(b[1..]);
    }
  }

  lemma {:induction false} ReverseAppend(b: Bytes, x: Byte)
    ensures Reverse(b + [x]) == [x] + Reverse(b)
  {
    if b != [] {
      assert (b + [x])[1..] == b[1..] + [x];
      ReverseAppend(b[1..], x);
    }
  }

  lemma {:induction false} ReverseTwice(b: Bytes)
    ensures Reverse(Reverse(b)) == b
  {
    if b != [] {
      ReverseTwice(b[1..]);
      ReverseAppend(Reverse(b[1..]), b[0]);
    }
  }

  lemma BigRoundTrip(n: nat, width: nat)
    requires n < Power256(width)
    ensures FromBig(Big(n, width)) == n
  {
    ReverseTwice(Little(n, width));
    LittleRoundTrip(n, width);
  }

  lemma Powers()
    ensures Power256(1) == 0x100 && Power256(2) == 0x1_0000 && Power256(4) == 0x1_0000_0000
    ensures Power256(8) == 0x1_0000_0000_0000_0000
  {
    assert Power256(2) == 256 * Power256(1);
    assert Power256(4) == 256 * 256 * Power256(2);
    assert Power256(6) == 256 * 256 * Power256(4);
    assert Power256(8) == 256 * 256 * Power256(6);
  }

  // ---- CompactSize ----

  /** `encode_varint`; a length of 2^64 or more does not occur. */
  function Varint(n: nat): Bytes {
    if n < 0xfd then [n]
    else if n <= 0xffff then [0xfd] + Little(n, 2)
    else if n <= 0xffff_ffff then [0xfe] + Little(n, 4)
    else [0xff] + Little(n, 8)
  }

  /** `decode_varint(b, offset)`: the number and the offset behind it. */
  function ReadVarint(b: Bytes, offset: nat): Option<(nat, nat)> {
    if offset >= |b| then None
    else if b[offset] < 0xfd then Some((b[offset], offset + 1))
    else
      var width := if b[offset] == 0xfd then 2 else if b[offset] == 0xfe then 4 else 8;
      if offset + 1 + width > |b| then None
      else Some((FromLittle(b[offset + 1..offset + 1 + width]), offset + 1 + width))
  }

  lemma VarintRoundTrip(before: Bytes, n: nat, after: Bytes)
    requires n < 0x1_0000_0000_0000_0000
    ensures ReadVarint(before + Varint(n) + after, |before|) == Some((n, |before| + |Varint(n)|))
  {
    Powers();
    var b, v := before + Varint(n) + after, Varint(n);
    assert b[|before|] == v[0];
    if n >= 0xfd {
      LittleRoundTrip(n, |v| - 1);
      assert b[|before| + 1..|before| + |v|] == v[1..];
      assert v[1..] == Little(n, |v| - 1);
    }
  }

  // ---- witness UTXO records ----

  /** Eight bytes of value, then the script behind its length. */
  function WitnessUtxo(value: nat, script: Bytes): Bytes {
    Little(value, 8) + Varint(|script|) + script
  }

  /** What a reader of the record finds, `None` if the lengths do not add up. */
  function ReadWitnessUtxo(b: Bytes): Option<(nat, Bytes)> {
    if |b| < 9 then None
    else match ReadVarint(b, 8)
         case None => None
         case Some((length, offset)) =>
           if offset + length != |b| then None else Some((FromLittle(b[..8]), b[offset..]))
  }

  lemma WitnessUtxoRoundTrip(value: nat, script: Bytes)
    requires value < 0x1_0000_0000_0000_0000 && |script| < 0x1_0000_0000_0000_0000
    ensures ReadWitnessUtxo(WitnessUtxo(value, script)) == Some((value, script))
  {
    Powers();
    VarintRoundTrip(Little(value, 8), |script|, script);
    LittleRoundTrip(value, 8);
    var b := WitnessUtxo(value, script);
    assert b[..8] == Little(value, 8);
    assert b[8 + |Varint(|script|)|..] == script;
  }

  // ---- transaction ids ----

  function HexDigit(d: nat): char
    requires d < 16
  {
    "0123456789abcdef"[d]
  }

  function DigitOf(c: char): Option<nat> {
    if '0' <= c <= '9' then Some(c as int - '0' as int)
    else if 'a' <= c <= 'f' then Some(c as int - 'a' as int + 10)
    else if 'A' <= c <= 'F' then Some(c as int - 'A' as int + 10)
    else None
  }

  /** `bytes.hex()`. */
  function ToHex(b: Bytes): (r: string)
    ensures |r| == 2 * |b|
  {
    if b == [] then "" else [HexDigit(b[0] / 16), HexDigit(b[0] % 16)] + ToHex(b[1..])
  }

  /** `bytes.fromhex` on text without spaces. */
  function FromHex(s: string): Option<Bytes> {
    if s == "" then Some([])
    else if |s| == 1 then None
    else match (DigitOf(s[0]), DigitOf(s[1]), FromHex(s[2..]))
         case (Some(high), Some(low), Some(rest)) => Some([16 * high + low] + rest)
         case _ => None
  }

  lemma DigitRoundTrip(d: nat)
    requires d < 16
    ensures DigitOf(HexDigit(d)) == Some(d)
  {
  }

  lemma {:induction false} HexRoundTrip(b: Bytes)
    ensures FromHex(ToHex(b)) == Some(b)
  {
    if b != [] {
      DigitRoundTrip(b[0] / 16);
      DigitRoundTrip(b[0] % 16);
      HexRoundTrip(b[1..]);
      var s := ToHex(b);
      assert s[0] == HexDigit(b[0] / 16) && s[1] == HexDigit(b[0] % 16) && s[2..] == ToHex(b[1..]);
      assert b == [b[0]] + b[1..];
    }
  }
}
