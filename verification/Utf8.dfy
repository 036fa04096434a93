/**
  UTF-8 as Go's decoder reads it: an ill-formed byte is the replacement rune of size one.
*/
module Utf8 {

  type byte = b: int | 0 <= b < 256

  const RUNE_ERROR := 0xFFFD

  datatype Rune = Rune(code: int, size: nat)

  predicate ValidCode(c: int) {
    0 <= c < 0xD800 || 0xE000 <= c < 0x110000
  }

  predicate Tail(b: byte) {
    0x80 <= b < 0xC0
  }

  predicate SecondOfThree(a: byte, b: byte) {
    (if a == 0xE0 then 0xA0 else 0x80) <= b < (if a == 0xED then 0xA0 else 0xC0)
  }

  predicate SecondOfFour(a: byte, b: byte) {
    (if a == 0xF0 then 0x90 else 0x80) <= b < (if a == 0xF4 then 0x90 else 0xC0)
  }

  /** Six more bits. */
  function Join(high: int, b: byte): int {
    64 * high + (b - 0x80)
  }

  function Decode(s: seq<byte>): (r: Rune)
    requires s != []
    ensures 1 <= r.size <= 4 && r.size <= |s|
    ensures ValidCode(r.code)
    ensures s[0] < 0x80 ==> r == Rune(s[0], 1)
    ensures s[0] >= 0x80 ==> r.code >= 0x80 && forall k :: 0 <= k < r.size ==> s[k] >= 0x80
  {
    var a := s[0];
    if a < 0x80 then
      Rune(a, 1)
    else if 0xC2 <= a < 0xE0 && |s| >= 2 && Tail(s[1]) then
      Rune(Join(a - 0xC0, s[1]), 2)
    else if 0xE0 <= a < 0xF0 && |s| >= 3 && SecondOfThree(a, s[1]) && Tail(s[2]) then
      Rune(Join(Join(a - 0xE0, s[1]), s[2]), 3)
    else if 0xF0 <= a < 0xF5 && |s| >= 4 && SecondOfFour(a, s[1]) && Tail(s[2]) && Tail(s[3]) then
      Rune(Join(Join(Join(a - 0xF0, s[1]), s[2]), s[3]), 4)
    else
      Rune(RUNE_ERROR, 1)
  }

  /** The decoder met a well-formed rune, not a stray byte. */
  predicate WellFormed(s: seq<byte>)
    requires s != []
  {
    s[0] < 0x80 || Decode(s).size > 1
  }

  function Encode(c: int): (e: seq<byte>)
    requires ValidCode(c)
    ensures 1 <= |e| <= 4
    ensures c < 0x80 ==> e == [c]
    ensures c >= 0x80 ==> |e| > 1 && forall k :: 0 <= k < |e| ==> e[k] >= 0x80
  {
    if c < 0x80 then
      [c]
    else if c < 0x800 then
      [0xC0 + c / 64, 0x80 + c % 64]
    else if c < 0x10000 then
      [0xE0 + c / 64 / 64, 0x80 + c / 64 % 64, 0x80 + c % 64]
    else
      [0xF0 + c / 64 / 64 / 64, 0x80 + c / 64 / 64 % 64, 0x80 + c / 64 % 64, 0x80 + c % 64]
  }

  /** Decoding undoes encoding, whatever follows. */
  lemma DecodeEncode(c: int, rest: seq<byte>)
    requires ValidCode(c)
    ensures Decode(Encode(c) + rest) == Rune(c, |Encode(c)|)
  {
  }

  lemma JoinSplit(high: int, b: byte)
    requires Tail(b)
    ensures Join(high, b) / 64 == high && 0x80 + Join(high, b) % 64 == b
  {
  }

  /** Encoding undoes decoding, except that a stray byte comes back as the replacement rune. */
  lemma EncodeDecode(s: seq<byte>)
    requires s != []
    ensures WellFormed(s) ==> Encode(Decode(s).code) == s[..Decode(s).size]
    ensures !WellFormed(s) ==> Decode(s) == Rune(RUNE_ERROR, 1)
  {
    var r := Decode(s);
    if r.size == 2 {
      JoinSplit(s[0] - 0xC0, s[1]);
    } else if r.size == 3 {
      EncodeThree(s);
    } else if r.size == 4 {
      EncodeFour(s);
    }
  }

  lemma EncodeThree(s: seq<byte>)
    requires s != [] && Decode(s).size == 3
    ensures Encode(Decode(s).code) == s[..3]
  {
    JoinSplit(s[0] - 0xE0, s[1]);
    JoinSplit(Join(s[0] - 0xE0, s[1]), s[2]);
  }

  lemma EncodeFour(s: seq<byte>)
    requires s != [] && Decode(s).size == 4
    ensures Encode(Decode(s).code) == s[..4]
  {
    JoinSplit(s[0] - 0xF0, s[1]);
    JoinSplit(Join(s[0] - 0xF0, s[1]), s[2]);
    JoinSplit(Join(Join(s[0] - 0xF0, s[1]), s[2]), s[3]);
  }
}
