/** UTF-8 as RFC 3629 section 3 defines it, between strings of Unicode scalar values and bytes. */
module Utf8 {
  import opened Common

  type byte = x: int | 0 <= x < 256

  function EncodeChar(c: char): (bytes: seq<byte>)
    ensures 1 <= |bytes| <= 4
  {
    var v := c as int;
    if v < 0x80 then [v]
    else if v < 0x800 then [0xC0 + v / 64, 0x80 + v % 64]
    else if v < 0x1_0000 then [0xE0 + v / 4096, 0x80 + v / 64 % 64, 0x80 + v % 64]
    else [0xF0 + v / 262144, 0x80 + v / 4096 % 64, 0x80 + v / 64 % 64, 0x80 + v % 64]
  }

  predicate IsContinuation(b: byte) {
    0x80 <= b < 0xC0
  }

  datatype Scalar = Scalar(c: char, length: nat)

  function Bits2(lead: int, b: int): int {
    lead * 64 + (b - 0x80)
  }

  function Bits3(lead: int, b: int, c: int): int {
    Bits2(Bits2(lead, b), c)
  }

  function Bits4(lead: int, b: int, c: int, d: int): int {
    Bits2(Bits3(lead, b, c), d)
  }

  /** The first character of some bytes; overlong forms, surrogates and large values are refused. */
  function DecodeChar(bytes: seq<byte>): Option<Scalar> {
    if bytes == [] then None
    else
      var lead: int := bytes[0];
      if lead < 0x80 then
        Some(Scalar(lead as char, 1))
      else if 0xC2 <= lead < 0xE0 && |bytes| >= 2 && IsContinuation(bytes[1]) then
        Some(Scalar(Bits2(lead - 0xC0, bytes[1]) as char, 2))
      else if 0xE0 <= lead < 0xF0 && |bytes| >= 3 && IsContinuation(bytes[1]) && IsContinuation(bytes[2]) then
        var v := Bits3(lead - 0xE0, bytes[1], bytes[2]);
        if 0x800 <= v && !(0xD800 <= v < 0xE000) then Some(Scalar(v as char, 3)) else None
      else if 0xF0 <= lead < 0xF5 && |bytes| >= 4
              && IsContinuation(bytes[1]) && IsContinuation(bytes[2]) && IsContinuation(bytes[3]) then
        var v := Bits4(lead - 0xF0, bytes[1], bytes[2], bytes[3]);
        if 0x1_0000 <= v < 0x11_0000 then Some(Scalar(v as char, 4)) else None
      else None
  }

  function Encode(s: string): seq<byte> {
    if s == "" then [] else EncodeChar(s[0]) + Encode(s[1..])
  }

  function Decode(bytes: seq<byte>): Option<string>
    decreases |bytes|
  {
    if bytes == [] then Some("")
    else
      var first := DecodeChar(bytes);
      if first.None? || first.value.length > |bytes| || first.value.length == 0 then None
      else
        var rest := Decode(bytes[first.value.length..]);
        if rest.None? then None else Some([first.value.c] + rest.value)
  }

  lemma SplitBits(v: nat)
    ensures v == v / 64 * 64 + v % 64
    ensures v / 64 == v / 4096 * 64 + v / 64 % 64
    ensures v / 4096 == v / 262144 * 64 + v / 4096 % 64
  {
  }

  lemma EncodedCharDecodes(c: char, rest: seq<byte>)
    ensures DecodeChar(EncodeChar(c) + rest) == Some(Scalar(c, |EncodeChar(c)|))
  {
    var v, code := c as int, EncodeChar(c);
    SplitBits(v);
    assert forall i | 0 <= i < |code| :: (code + rest)[i] == code[i];
  }

  lemma JoinBits(high: nat, low: nat)
    requires 0x80 <= low < 0xC0
    ensures Bits2(high, low) / 64 == high && Bits2(high, low) % 64 == low - 0x80
  {
  }

  lemma Join3Bits(lead: nat, b: nat, c: nat)
    requires 0x80 <= b < 0xC0 && 0x80 <= c < 0xC0
    ensures var v := Bits3(lead, b, c);
            v / 4096 == lead && v / 64 % 64 == b - 0x80 && v % 64 == c - 0x80
  {
    JoinBits(lead, b);
    JoinBits(Bits2(lead, b), c);
    var v := Bits3(lead, b, c);
    assert v / 64 == Bits2(lead, b);
    assert v / 4096 == v / 64 / 64;
  }

  lemma Join4Bits(lead: nat, b: nat, c: nat, d: nat)
    requires 0x80 <= b < 0xC0 && 0x80 <= c < 0xC0 && 0x80 <= d < 0xC0
    ensures var v := Bits4(lead, b, c, d);
            && v / 262144 == lead && v / 4096 % 64 == b - 0x80
            && v / 64 % 64 == c - 0x80 && v % 64 == d - 0x80
  {
    Join3Bits(lead, b, c);
    JoinBits(Bits3(lead, b, c), d);
    var v := Bits4(lead, b, c, d);
    assert v / 64 == Bits3(lead, b, c);
    assert v / 4096 == v / 64 / 64;
    assert v / 262144 == v / 64 / 4096;
  }

  lemma DecodedCharEncodes(bytes: seq<byte>)
    requires DecodeChar(bytes).Some?
    ensures var d := DecodeChar(bytes).value;
            0 < d.length <= |bytes| && bytes[..d.length] == EncodeChar(d.c)
  {
    var d := DecodeChar(bytes).value;
    if d.length == 2 {
      JoinBits(bytes[0] as int - 0xC0, bytes[1]);
    } else if d.length == 3 {
      Join3Bits(bytes[0] as int - 0xE0, bytes[1], bytes[2]);
    } else if d.length == 4 {
      Join4Bits(bytes[0] as int - 0xF0, bytes[1], bytes[2], bytes[3]);
    }
  }

  lemma DecodePrepended(bytes: seq<byte>, n: nat, c: char, s: string)
    requires 0 < n <= |bytes| && DecodeChar(bytes) == Some(Scalar(c, n)) && Decode(bytes[n..]) == Some(s)
    ensures Decode(bytes) == Some([c] + s)
  {
  }

  lemma Rejoin<T>(a: seq<T>, b: seq<T>)
    ensures (a + b)[|a|..] == b && |a| <= |a + b|
  {
  }

  lemma {:induction false} EncodedDecodes(s: string)
    ensures Decode(Encode(s)) == Some(s)
  {
    if s != "" {
      var code, rest := EncodeChar(s[0]), Encode(s[1..]);
      EncodedDecodes(s[1..]);
      EncodedCharDecodes(s[0], rest);
      Rejoin(code, rest);
      DecodePrepended(code + rest, |code|, s[0], s[1..]);
      assert s == [s[0]] + s[1..];
    }
  }

  lemma DecodedFront(bytes: seq<byte>)
    requires bytes != [] && Decode(bytes).Some?
    ensures DecodeChar(bytes).Some?
    ensures var d := DecodeChar(bytes).value;
            && 0 < d.length <= |bytes|
            && Decode(bytes[d.length..]).Some?
            && Decode(bytes).value == [d.c] + Decode(bytes[d.length..]).value
  {
  }

  lemma EncodePrepended(c: char, s: string, bytes: seq<byte>, n: nat)
    requires n <= |bytes| && bytes[..n] == EncodeChar(c) && bytes[n..] == Encode(s)
    ensures Encode([c] + s) == bytes
  {
    assert ([c] + s)[1..] == s;
    assert bytes == bytes[..n] + bytes[n..];
  }

  lemma {:induction false} DecodedEncodes(bytes: seq<byte>)
    requires Decode(bytes).Some?
    ensures Encode(Decode(bytes).value) == bytes
    decreases |bytes|
  {
    if bytes != [] {
      DecodedFront(bytes);
      var d := DecodeChar(bytes).value;
      DecodedCharEncodes(bytes);
      DecodedEncodes(bytes[d.length..]);
      EncodePrepended(d.c, Decode(bytes[d.length..]).value, bytes, d.length);
    }
  }

  /** Bytes decode to a string exactly when they are its encoding. */
  lemma DecodesIff(bytes: seq<byte>, s: string)
    ensures Decode(bytes) == Some(s) <==> bytes == Encode(s)
  {
    EncodedDecodes(s);
    if Decode(bytes).Some? { DecodedEncodes(bytes); }
  }

  lemma {:induction false} EncodeConcat(a: string, b: string)
    ensures Encode(a + b) == Encode(a) + Encode(b)
  {
    if a == "" {
      assert a + b == b;
    } else {
      assert (a + b)[1..] == a[1..] + b;
      EncodeConcat(a[1..], b);
    }
  }

  lemma {:induction false} EncodeBound(s: string)
    ensures |s| <= |Encode(s)| <= 4 * |s|
  {
    if s != "" { EncodeBound(s[1..]); }
  }

  /** A part of a string is no longer in bytes than the whole. */
  lemma PartIsNoLonger(s: string, lo: nat, hi: nat)
    requires lo <= hi <= |s|
    ensures |Encode(s[lo..hi])| <= |Encode(s)|
  {
    assert s == s[..lo] + (s[lo..hi] + s[hi..]);
    EncodeConcat(s[..lo], s[lo..hi] + s[hi..]);
    EncodeConcat(s[lo..hi], s[hi..]);
  }
}
