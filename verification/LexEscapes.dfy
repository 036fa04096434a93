/**
  What the escapes of a string literal stand for, and what the kind of a token says of its text: stated on the bytes
  themselves.
*/
module LexEscapes {
  import opened Utf8
  import opened Lexemes
  import opened LexTheorems
  import opened LexRoundTrip

  // ---------- Escapes ----------

  /** A quote, a backslash, and the newline, tab and carriage return as \n, \t and \r; any other byte as it is. */
  function SpelledByte(b: byte): seq<byte> {
    if b == 34 then [92, 34]
    else if b == 92 then [92, 92]
    else if b == 10 then [92, 110]
    else if b == 9 then [92, 116]
    else if b == 13 then [92, 114]
    else [b]
  }

  function Spelled(text: seq<byte>): seq<byte> {
    if text == [] then [] else SpelledByte(text[0]) + Spelled(text[1..])
  }

  lemma {:induction false} SpelledHigh(e: seq<byte>, z: seq<byte>)
    requires forall k :: 0 <= k < |e| ==> e[k] >= 0x80
    ensures Spelled(e + z) == e + Spelled(z)
  {
    if e == [] {
      assert e + z == z;
    } else {
      SpelledHigh(e[1..], z);
      assert (e + z)[1..] == e[1..] + z && [e[0]] + e[1..] == e;
    }
  }

  function Lead(c: int): seq<byte>
    requires ValidCode(c)
  {
    if c < 0x80 then SpelledByte(c) else Encode(c)
  }

  lemma SpelledRune(c: int, z: seq<byte>)
    requires ValidCode(c)
    ensures Spelled(Encode(c) + z) == Lead(c) + Spelled(z)
  {
    if c >= 0x80 {
      SpelledHigh(Encode(c), z);
    } else {
      assert ([c as byte] + z)[1..] == z;
    }
  }

  /** One spelled rune is read as that rune. */
  lemma LeadReadsBack(c: int, tail: seq<byte>)
    requires ValidCode(c)
    ensures var y := StringBody(tail);
            StringBody(Lead(c) + tail) == Lexeme(Str, Encode(c) + y.literal, |Lead(c)| + y.size, y.faults)
  {
    if c in {34, 92, 10, 9, 13} {
      EscapeReadsAs(Lead(c)[1], tail);
    } else {
      BodyOfRune(c, tail);
    }
  }

  lemma EscapeReadsAs(e: byte, tail: seq<byte>)
    requires e in {34, 92, 110, 116, 114}
    ensures var y := StringBody(tail);
            var b := if e == 110 then 10 else if e == 116 then 9 else if e == 114 then 13 else e;
            StringBody([92, e] + tail) == Lexeme(Str, [b] + y.literal, 2 + y.size, y.faults)
  {
    var s := [92, e] + tail;
    assert s[1..] == [e] + tail && s[1..][1..] == tail;
  }

  /**
    Every well-formed text, its quotes, backslashes, newlines, tabs and carriage returns escaped, is read back as itself,
    up to exactly its closing quote and without a fault.
  */
  lemma {:induction false} SpelledReadsBack(text: seq<byte>, after: seq<byte>)
    requires ValidUtf8(text)
    ensures StringBody(Spelled(text) + [34] + after) == Lexeme(Str, text, |Spelled(text)| + 1, [])
    decreases |text|
  {
    if text == [] {
      assert Spelled(text) + [34] + after == [34] + after;
    } else {
      var c := Decode(text).code;
      var z := text[Decode(text).size..];
      TextSplits(text);
      hide StringBody, Spelled, Encode;
      SpelledReadsBack(z, after);
      OneMoreSpelled(c, z, after);
    }
  }

  lemma OneMoreSpelled(c: int, z: seq<byte>, after: seq<byte>)
    requires ValidCode(c)
    requires StringBody(Spelled(z) + [34] + after) == Lexeme(Str, z, |Spelled(z)| + 1, [])
    ensures var text := Encode(c) + z;
            StringBody(Spelled(text) + [34] + after) == Lexeme(Str, text, |Spelled(text)| + 1, [])
  {
    hide StringBody, Spelled, Encode, Lead;
    SpelledRune(c, z);
    LeadReadsBack(c, Spelled(z) + [34] + after);
    assert Lead(c) + Spelled(z) + [34] + after == Lead(c) + (Spelled(z) + [34] + after);
  }

  /** A backslash before any other rune stays in the literal, with that rune. */
  lemma OtherEscapeStays(c: int, tail: seq<byte>)
    requires ValidCode(c) && c !in {34, 92, 110, 116, 114}
    ensures var y := StringBody(tail);
            StringBody([92] + Encode(c) + tail) == Lexeme(Str, [92] + Encode(c) + y.literal, 1 + |Encode(c)| + y.size, y.faults)
  {
    var s := [92] + Encode(c) + tail;
    assert s[1..] == Encode(c) + tail;
    DecodeEncode(c, tail);
    assert s[1..][|Encode(c)|..] == tail;
  }

  /** A string without a closing quote takes the rest of the text, and is reported once. */
  lemma {:induction false} UnclosedIsReported(s: seq<byte>)
    ensures var x := StringBody(s);
            x.faults != [] ==> x.size == |s| && (x.faults == [UnterminatedString] || x.faults == [UnterminatedEscape])
    ensures StringBody(s).faults == [] ==> 0 < StringBody(s).size && s[StringBody(s).size - 1] == 34
    decreases |s|
  {
    if s != [] {
      var r := Decode(s);
      var rest := s[r.size..];
      if r.code == 92 && rest != [] {
        UnclosedIsReported(rest[Decode(rest).size..]);
      } else if r.code != 34 && r.code != 92 {
        UnclosedIsReported(rest);
      }
    }
  }

  // ---------- Kinds ----------

  predicate AllDigits(s: seq<byte>) {
    s != [] && forall k :: 0 <= k < |s| ==> 48 <= s[k] <= 57
  }

  predicate IsFloatText(s: seq<byte>) {
    exists k :: 0 < k < |s| - 1 && s[k] == 46 && AllDigits(s[..k]) && AllDigits(s[k + 1..])
  }

  /** Digits and one of the units d, h, m, s; then only digits and units. */
  predicate IsDurationText(s: seq<byte>) {
    exists k :: 0 < k < |s| && AllDigits(s[..k]) && s[k] in {100, 104, 109, 115}
                && forall j :: k < j < |s| ==> 48 <= s[j] <= 57 || s[j] in {100, 104, 109, 115}
  }

  const DOUBLES: set<seq<byte>> :=
    {[46, 46], [36, 123], [60, 61], [62, 61], [61, 61], [33, 61], [38, 38], [124, 124]}

  const SINGLES: set<byte> :=
    {123, 125, 40, 41, 91, 93, 44, 46, 58, 61, 33, 60, 62, 43, 45, 42, 47, 37}

  /** What the kind of a token says about the text it was read from. */
  predicate KindFits(t: Tables, kind: Kind, text: seq<byte>) {
    match kind
    case Eof => false
    case Str => text != [] && text[0] == 34
    case Int => AllDigits(text)
    case Float => IsFloatText(text)
    case Duration => IsDurationText(text)
    case Word => text != [] && StartsWord(t, text)
    case Operator => text in DOUBLES || (|text| == 1 && text[0] in SINGLES)
    case Illegal => text != [] && text[0] != 34 && !(48 <= text[0] <= 57) && text[0] !in SINGLES
  }

  lemma {:induction false} DigitsAreDigits(s: seq<byte>)
    ensures var n := DigitsLength(s); n > 0 ==> AllDigits(s[..n])
  {
    if s != [] && IsDigit(s[0]) {
      DigitsAreDigits(s[1..]);
      var n := DigitsLength(s);
      assert forall k :: 1 <= k < n ==> s[..n][k] == s[1..][..n - 1][k - 1];
    }
  }

  predicate DigitsAndUnits(s: seq<byte>) {
    forall j :: 0 <= j < |s| ==> 48 <= s[j] <= 57 || s[j] in {100, 104, 109, 115}
  }

  lemma {:induction false} CompoundIsDigitsAndUnits(s: seq<byte>)
    ensures DigitsAndUnits(s[..CompoundLength(s)])
    decreases |s|
  {
    var n := CompoundLength(s);
    if s != [] && IsDigit(s[0]) {
      var k := if |s| > 1 && IsUnit(s[1]) then 2 else 1;
      CompoundIsDigitsAndUnits(s[k..]);
      assert s[..n] == s[..k] + s[k..][..n - k];
    }
  }

  lemma NumberKind(t: Tables, s: seq<byte>)
    requires s != [] && IsDigit(s[0])
    ensures var x := NumberAt(t, s); KindFits(t, x.kind, s[..x.size]) && x.literal == s[..x.size]
  {
    var n, x := DigitsLength(s), NumberAt(t, s);
    DigitsAreDigits(s);
    var rest := s[n..];
    if x.kind == Float {
      DigitsAreDigits(rest[1..]);
      var text := s[..x.size];
      assert text[..n] == s[..n] && text[n + 1..] == rest[1..][..x.size - n - 1];
      assert text[n] == 46;
    } else if x.kind == Duration {
      CompoundIsDigitsAndUnits(rest[1..]);
      var text := s[..x.size];
      assert text[..n] == s[..n];
      forall j | n < j < |text|
        ensures 48 <= text[j] <= 57 || text[j] in {100, 104, 109, 115}
      {
        assert text[j] == rest[1..][..x.size - n - 1][j - n - 1];
      }
    }
  }

  lemma WordKind(t: Tables, s: seq<byte>)
    requires StartsWord(t, s) && !IsDigit(s[0]) && s[0] != QUOTE
    ensures var n := WordLength(t, s); n > 0 && StartsWord(t, s[..n])
  {
    var n := WordLength(t, s);
    assert ContinuesWord(t, s);
    assert n >= Decode(s).size;
    WordStart(t, s, n);
  }

  lemma WordStart(t: Tables, s: seq<byte>, n: nat)
    requires StartsWord(t, s) && Decode(s).size <= n <= |s|
    ensures StartsWord(t, s[..n])
  {
    EncodeDecode(s);
    if WellFormed(s) {
      DecodeEncode(Decode(s).code, s[..n][Decode(s).size..]);
      assert s[..n] == Encode(Decode(s).code) + s[..n][Decode(s).size..];
    }
  }

  /** Every token's kind fits the text it was read from. */
  lemma KindsFit(t: Tables, s: seq<byte>)
    requires s != []
    ensures var x := TokenAt(t, s); KindFits(t, x.kind, s[..x.size])
  {
    hide NumberAt, WordLength, StringBody, StartsWord, Decode, Encode;
    if s[0] == QUOTE {
    } else if IsDigit(s[0]) {
      NumberKind(t, s);
    } else if StartsWord(t, s) {
      WordKind(t, s);
    } else if |s| > 1 && IsDouble(s[0], s[1]) {
      assert s[..2] == [s[0], s[1]];
    }
  }
}
