/**
  Printing the tokens of any text, one blank between them, and lexing the result gives the same tokens again.
*/
module LexRoundTrip {
  import opened Utf8
  import opened Lexemes
  import opened LexTheorems

  // ---------- Printing ----------

  function QuotedByte(b: byte): seq<byte> {
    if b == QUOTE || b == BACKSLASH then [BACKSLASH, b] else [b]
  }

  function Quoted(text: seq<byte>): seq<byte> {
    if text == [] then [] else QuotedByte(text[0]) + Quoted(text[1..])
  }

  function Spelling(kind: Kind, literal: seq<byte>): seq<byte> {
    if kind == Str then [QUOTE] + Quoted(literal) + [QUOTE] else literal
  }

  function Print(items: seq<Item>): seq<byte> {
    if items == [] || items[0].kind == Eof then []
    else Spelling(items[0].kind, items[0].literal) + [BLANK] + Print(items[1..])
  }

  /** A token without its place. */
  datatype Sort = Sort(kind: Kind, literal: seq<byte>)

  function Sorts(items: seq<Item>): seq<Sort> {
    if items == [] then [] else [Sort(items[0].kind, items[0].literal)] + Sorts(items[1..])
  }

  // ---------- Runes in a new context ----------

  /** A well-formed rune is read the same whatever follows it. */
  lemma DecodeAgain(s: seq<byte>, z: seq<byte>)
    requires s != [] && WellFormed(s)
    ensures Decode(s[..Decode(s).size] + z) == Decode(s)
  {
    EncodeDecode(s);
    DecodeEncode(Decode(s).code, z);
  }

  predicate ValidUtf8(s: seq<byte>) {
    s == [] || (WellFormed(s) && ValidUtf8(s[Decode(s).size..]))
  }

  lemma OneMoreRune(c: int, z: seq<byte>)
    requires ValidCode(c) && ValidUtf8(z)
    ensures ValidUtf8(Encode(c) + z)
  {
    hide Encode, Decode;
    DecodeEncode(c, z);
    assert (Encode(c) + z)[|Encode(c)|..] == z;
  }

  // ---------- Strings ----------

  lemma {:induction false} QuotedJoin(a: seq<byte>, b: seq<byte>)
    ensures Quoted(a + b) == Quoted(a) + Quoted(b)
  {
    hide QuotedByte;
    if a == [] {
      assert a + b == b;
    } else {
      QuotedJoin(a[1..], b);
      assert (a + b)[1..] == a[1..] + b;
      assert Quoted(a + b) == QuotedByte(a[0]) + (Quoted(a[1..]) + Quoted(b));
    }
  }

  lemma {:induction false} QuotedPlain(e: seq<byte>)
    requires QUOTE !in e && BACKSLASH !in e
    ensures Quoted(e) == e
  {
    if e != [] {
      QuotedPlain(e[1..]);
    }
  }

  lemma QuotedRune(c: int, z: seq<byte>)
    requires ValidCode(c)
    ensures c == QUOTE as int || c == BACKSLASH as int ==> Quoted(Encode(c) + z) == [BACKSLASH, c] + Quoted(z)
    ensures c != QUOTE as int && c != BACKSLASH as int ==> Quoted(Encode(c) + z) == Encode(c) + Quoted(z)
  {
    QuotedJoin(Encode(c), z);
    if c == QUOTE as int || c == BACKSLASH as int {
      assert Quoted([c as byte]) == [BACKSLASH, c as byte];
    } else {
      QuotedPlain(Encode(c));
    }
  }

  lemma EscapedIsText(c: int, z: seq<byte>)
    requires ValidCode(c) && ValidUtf8(z)
    ensures ValidUtf8(Escaped(c) + z)
  {
    hide ValidUtf8;
    if |Escaped(c)| == 1 {
      OneMoreRune(Escaped(c)[0] as int, z);
    } else {
      OneMoreRune(c, z);
      OneMoreRune(BACKSLASH as int, Encode(c) + z);
      assert Escaped(c) + z == [BACKSLASH] + (Encode(c) + z);
    }
  }

  /** Whatever bytes a string was read from, its literal is well-formed text. */
  lemma {:induction false} LiteralsAreText(s: seq<byte>)
    ensures ValidUtf8(StringBody(s).literal)
    decreases |s|
  {
    if s != [] {
      var r := Decode(s);
      var rest := s[r.size..];
      if r.code == BACKSLASH as int && rest != [] {
        var e := Decode(rest);
        LiteralsAreText(rest[e.size..]);
        EscapedIsText(e.code, StringBody(rest[e.size..]).literal);
      } else if r.code != QUOTE as int && r.code != BACKSLASH as int {
        LiteralsAreText(rest);
        OneMoreRune(r.code, StringBody(rest).literal);
      }
    }
  }

  lemma BodyOfEscape(c: int, z: seq<byte>)
    requires c == QUOTE as int || c == BACKSLASH as int
    ensures var y := StringBody(z);
            StringBody([BACKSLASH, c] + z) == Lexeme(Str, [c as byte] + y.literal, 2 + y.size, y.faults)
  {
    var s := [BACKSLASH, c as byte] + z;
    assert s[1..] == [c as byte] + z && s[1..][1..] == z;
  }

  lemma BodyOfRune(c: int, z: seq<byte>)
    requires ValidCode(c) && c != QUOTE as int && c != BACKSLASH as int
    ensures var y := StringBody(z);
            StringBody(Encode(c) + z) == Lexeme(Str, Encode(c) + y.literal, |Encode(c)| + y.size, y.faults)
  {
    hide Encode, Decode;
    DecodeEncode(c, z);
    assert (Encode(c) + z)[|Encode(c)|..] == z;
  }

  /** Every well-formed text, quoted, is read back as itself, up to exactly its closing quote and without a fault. */
  lemma {:induction false} QuotedReadsBack(text: seq<byte>, after: seq<byte>)
    requires ValidUtf8(text)
    ensures StringBody(Quoted(text) + [QUOTE] + after) == Lexeme(Str, text, |Quoted(text)| + 1, [])
    decreases |text|
  {
    if text == [] {
      assert Quoted(text) + [QUOTE] + after == [QUOTE] + after;
    } else {
      var c := Decode(text).code;
      var z := text[Decode(text).size..];
      TextSplits(text);
      QuotedReadsBack(z, after);
      RuneReadsBack(c, z, after);
    }
  }

  lemma TextSplits(text: seq<byte>)
    requires text != [] && ValidUtf8(text)
    ensures text == Encode(Decode(text).code) + text[Decode(text).size..]
  {
    EncodeDecode(text);
  }

  lemma RuneReadsBack(c: int, z: seq<byte>, after: seq<byte>)
    requires ValidCode(c)
    requires StringBody(Quoted(z) + [QUOTE] + after) == Lexeme(Str, z, |Quoted(z)| + 1, [])
    ensures var text := Encode(c) + z;
            StringBody(Quoted(text) + [QUOTE] + after) == Lexeme(Str, text, |Quoted(text)| + 1, [])
  {
    hide StringBody, Quoted;
    var lead := if c == QUOTE as int || c == BACKSLASH as int then [BACKSLASH, c] else Encode(c);
    QuotedRune(c, z);
    assert Quoted(Encode(c) + z) == lead + Quoted(z);
    OneRuneBack(c, z, Quoted(z) + [QUOTE] + after);
    assert lead + Quoted(z) + [QUOTE] + after == lead + (Quoted(z) + [QUOTE] + after);
  }

  lemma OneRuneBack(c: int, z: seq<byte>, tail: seq<byte>)
    requires ValidCode(c) && StringBody(tail).literal == z
    ensures var escaped := c == QUOTE as int || c == BACKSLASH as int;
            var lead := if escaped then [BACKSLASH, c] else Encode(c);
            var y := StringBody(tail);
            StringBody(lead + tail) == Lexeme(Str, Encode(c) + z, |lead| + y.size, y.faults)
  {
    if c == QUOTE as int || c == BACKSLASH as int {
      BodyOfEscape(c, tail);
    } else {
      BodyOfRune(c, tail);
    }
  }

  // ---------- Numbers ----------

  lemma {:induction false} DigitsAgain(d: seq<byte>, after: seq<byte>)
    requires (forall k :: 0 <= k < |d| ==> IsDigit(d[k])) && (after == [] || !IsDigit(after[0]))
    ensures DigitsLength(d + after) == |d|
  {
    if d == [] {
      assert d + after == after;
    } else {
      DigitsAgain(d[1..], after);
      assert (d + after)[1..] == d[1..] + after;
    }
  }

  lemma CompoundGrows(s: seq<byte>, m: nat, tail: seq<byte>, p: seq<byte>)
    requires s != [] && IsDigit(s[0]) && m == if |s| > 1 && IsUnit(s[1]) then 2 else 1
    requires |p| > m && p[..m] == s[..m] && p[m..] == tail
    requires m == 1 && |s| > 1 ==> p[1] == s[1] || p[1] == BLANK
    requires m == 1 && |s| == 1 ==> p[1] == BLANK
    ensures CompoundLength(p) == m + CompoundLength(tail)
  {
    assert p[0] == p[..m][0] == s[0];
    assert m == 2 ==> p[1] == p[..m][1] == s[1];
  }

  lemma {:induction false} CompoundAgain(s: seq<byte>, after: seq<byte>)
    requires after != [] && after[0] == BLANK
    ensures CompoundLength(s[..CompoundLength(s)] + after) == CompoundLength(s)
    decreases |s|
  {
    var n := CompoundLength(s);
    var p := s[..n] + after;
    if s == [] || !IsDigit(s[0]) {
      assert p == after;
    } else {
      var m := if |s| > 1 && IsUnit(s[1]) then 2 else 1;
      CompoundAgain(s[m..], after);
      assert n == m + CompoundLength(s[m..]);
      CompoundGrows(s, m, s[m..][..n - m] + after, p);
    }
  }

  lemma IntAgain(t: Tables, s: seq<byte>, after: seq<byte>)
    requires after != [] && after[0] == BLANK
    ensures var d := s[..DigitsLength(s)];
            NumberAt(t, d + after) == Lexeme(Int, d, |d|, [])
  {
    var d := s[..DigitsLength(s)];
    DigitsStop(s);
    DigitsAgain(d, after);
    assert (d + after)[|d|..] == after && (d + after)[..|d|] == d;
  }

  lemma FloatAgain(t: Tables, s: seq<byte>, after: seq<byte>)
    requires after != [] && after[0] == BLANK && NumberAt(t, s).kind == Float
    ensures var x := NumberAt(t, s);
            NumberAt(t, x.literal + after) == x
  {
    hide StartsWord, CompoundLength;
    var n := DigitsLength(s);
    var m := DigitsLength(s[n..][1..]);
    var whole, fraction := s[..n], s[n..][1..][..m];
    DigitsStop(s);
    DigitsStop(s[n..][1..]);
    assert NumberAt(t, s).literal == whole + ([DOT] + fraction);
    FloatFrom(t, whole, fraction, after);
  }

  lemma FloatFrom(t: Tables, whole: seq<byte>, fraction: seq<byte>, after: seq<byte>)
    requires (forall k :: 0 <= k < |whole| ==> IsDigit(whole[k])) && (forall k :: 0 <= k < |fraction| ==> IsDigit(fraction[k]))
    requires fraction != [] && after != [] && after[0] == BLANK
    ensures var literal := whole + ([DOT] + fraction);
            NumberAt(t, literal + after) == Lexeme(Float, literal, |literal|, [])
  {
    hide DigitsLength, CompoundLength, StartsWord;
    var literal := whole + ([DOT] + fraction);
    var p := literal + after;
    assert p == whole + ([DOT] + (fraction + after));
    DigitsAgain(whole, [DOT] + (fraction + after));
    DigitsAgain(fraction, after);
    assert p[|whole|..] == [DOT] + (fraction + after) && p[|whole|..][1..] == fraction + after;
    assert p[..|literal|] == literal;
  }

  lemma DurationAgain(t: Tables, s: seq<byte>, after: seq<byte>)
    requires after != [] && after[0] == BLANK && NumberAt(t, s).kind == Duration
    ensures var x := NumberAt(t, s);
            NumberAt(t, x.literal + after) == x
  {
    hide StartsWord, CompoundLength, DigitsLength;
    var n := DigitsLength(s);
    var rest := s[n..];
    var m := CompoundLength(rest[1..]);
    DigitsStop(s);
    CompoundAgain(rest[1..], after);
    assert NumberAt(t, s).literal == s[..n] + ([rest[0]] + rest[1..][..m]);
    DurationFrom(t, s[..n], rest[0], rest[1..][..m], after);
  }

  lemma DurationFrom(t: Tables, digits: seq<byte>, unit: byte, more: seq<byte>, after: seq<byte>)
    requires (forall k :: 0 <= k < |digits| ==> IsDigit(digits[k])) && IsUnit(unit)
    requires after != [] && after[0] == BLANK && CompoundLength(more + after) == |more|
    ensures var literal := digits + ([unit] + more);
            NumberAt(t, literal + after) == Lexeme(Duration, literal, |literal|, [])
  {
    hide DigitsLength, CompoundLength;
    var literal := digits + ([unit] + more);
    var p := literal + after;
    assert p == digits + ([unit] + (more + after));
    DigitsAgain(digits, [unit] + (more + after));
    assert p[|digits|..] == [unit] + (more + after) && p[|digits|..][1..] == more + after;
    assert p[|literal|..] == after && p[..|literal|] == literal;
  }

  lemma NumberAgain(t: Tables, s: seq<byte>, after: seq<byte>)
    requires after != [] && after[0] == BLANK
    ensures var x := NumberAt(t, s);
            NumberAt(t, x.literal + after) == x
  {
    if NumberAt(t, s).kind == Float {
      FloatAgain(t, s, after);
    } else if NumberAt(t, s).kind == Duration {
      DurationAgain(t, s, after);
    } else {
      IntAgain(t, s, after);
    }
  }

  // ---------- Words ----------

  lemma {:induction false} WordAgain(t: Tables, s: seq<byte>, after: seq<byte>)
    requires after != [] && after[0] == BLANK
    ensures WordLength(t, s[..WordLength(t, s)] + after) == WordLength(t, s)
    decreases |s|
  {
    hide Decode, IsIdentContinue;
    if ContinuesWord(t, s) {
      var m := Decode(s).size;
      WordAgain(t, s[m..], after);
      RuneAgain(t, s, after, WordLength(t, s[m..]));
    } else {
      BlankEndsWord(t, after);
      assert s[..0] + after == after;
    }
  }

  lemma BlankEndsWord(t: Tables, after: seq<byte>)
    requires after != [] && after[0] == BLANK
    ensures WordLength(t, after) == 0
  {
  }

  /** One rune more in front of a word that is read again. */
  lemma RuneAgain(t: Tables, s: seq<byte>, after: seq<byte>, k: nat)
    requires ContinuesWord(t, s)
    requires var m := Decode(s).size;
             m + k <= |s| && WordLength(t, s[m..][..k] + after) == k
    ensures WordLength(t, s[..Decode(s).size + k] + after) == Decode(s).size + k
  {
    hide Decode, WordLength;
    var m := Decode(s).size;
    var tail := s[m..][..k] + after;
    EncodeDecode(s);
    DecodeAgain(s, tail);
    assert s[..m + k] + after == s[..m] + tail;
    WordGrows(t, s[..m] + tail, tail, m);
  }

  lemma WordGrows(t: Tables, p: seq<byte>, tail: seq<byte>, m: nat)
    requires ContinuesWord(t, p) && m == Decode(p).size && p[m..] == tail
    ensures WordLength(t, p) == m + WordLength(t, tail)
  {
  }

  // ---------- One token ----------

  predicate StartsToken(s: seq<byte>) {
    s != [] && !IsBlank(s[0]) && !OpensLine(s) && !OpensBlock(s)
  }

  /** The token of `s`, spelled out and followed by a blank, is the token of the spelling. */
  ghost predicate SpellsAgain(t: Tables, s: seq<byte>, after: seq<byte>)
    requires s != []
  {
    var x := TokenAt(t, s);
    var spelling := Spelling(x.kind, x.literal);
    var p := spelling + after;
    && StartsToken(p)
    && TokenAt(t, p).kind == x.kind && TokenAt(t, p).literal == x.literal && TokenAt(t, p).size == |spelling|
  }

  lemma StringAgain(t: Tables, s: seq<byte>, after: seq<byte>)
    requires s != [] && s[0] == QUOTE
    ensures SpellsAgain(t, s, after)
  {
    hide StringBody, Quoted, ValidUtf8, NumberAt, StartsWord;
    var x := StringBody(s[1..]);
    LiteralsAreText(s[1..]);
    QuotedReadsBack(x.literal, after);
    var p := [QUOTE] + Quoted(x.literal) + [QUOTE] + after;
    assert p[1..] == Quoted(x.literal) + [QUOTE] + after;
  }

  lemma NumberSpellsAgain(t: Tables, s: seq<byte>, after: seq<byte>)
    requires s != [] && IsDigit(s[0]) && after != [] && after[0] == BLANK
    ensures SpellsAgain(t, s, after)
  {
    hide NumberAt, Decode;
    NumberKinds(t, s);
    NumberAgain(t, s, after);
    NumberIsNotEmpty(t, s);
  }

  lemma NumberIsNotEmpty(t: Tables, s: seq<byte>)
    requires s != [] && IsDigit(s[0])
    ensures NumberAt(t, s).size > 0
  {
  }

  predicate StartsWordToken(t: Tables, s: seq<byte>) {
    s != [] && s[0] != QUOTE && !IsDigit(s[0]) && StartsWord(t, s)
  }

  lemma WordToken(t: Tables, s: seq<byte>)
    requires StartsWordToken(t, s)
    ensures WordLength(t, s) >= Decode(s).size
    ensures TokenAt(t, s) == Lexeme(Word, s[..WordLength(t, s)], WordLength(t, s), [])
  {
    hide Decode;
  }

  /** What starts a word also starts it with something else behind its first rune. */
  lemma WordStartsAgain(t: Tables, s: seq<byte>, p: seq<byte>)
    requires StartsWordToken(t, s) && StartsToken(s)
    requires |p| > Decode(s).size && p[..Decode(s).size] == s[..Decode(s).size]
    requires Decode(s).size == 1 ==> p[1] == BLANK || (|s| > 1 && p[1] == s[1])
    ensures StartsWordToken(t, p) && StartsToken(p)
  {
    hide Decode, WordLength;
    var m := Decode(s).size;
    EncodeDecode(s);
    DecodeAgain(s, p[m..]);
    assert p == s[..m] + p[m..];
    assert p[0] == p[..m][0] == s[0];
    assert m > 1 ==> p[1] == p[..m][1] == s[1];
  }

  lemma WordSpellsAgain(t: Tables, s: seq<byte>, after: seq<byte>)
    requires StartsWordToken(t, s) && StartsToken(s) && after != [] && after[0] == BLANK
    ensures SpellsAgain(t, s, after)
  {
    hide TokenAt, WordLength, Decode, StartsWordToken, StartsToken;
    var n := WordLength(t, s);
    var p := s[..n] + after;
    WordToken(t, s);
    assert p[..Decode(s).size] == s[..Decode(s).size];
    WordStartsAgain(t, s, p);
    WordToken(t, p);
    WordAgain(t, s, after);
    assert p[..n] == s[..n];
  }

  lemma OperatorSpellsAgain(t: Tables, s: seq<byte>, after: seq<byte>)
    requires StartsToken(s) && TokenAt(t, s).kind == Operator && after != [] && after[0] == BLANK
    ensures SpellsAgain(t, s, after)
  {
    NoOtherOperator(t, s);
    var x := TokenAt(t, s);
    var p := x.literal + after;
    assert p[0] == s[0] && p[..x.size] == x.literal;
    assert p[1] == if x.size == 2 then s[1] else BLANK;
  }

  /** An operator starts with an ASCII byte that is no quote, digit or letter. */
  lemma NoOtherOperator(t: Tables, s: seq<byte>)
    requires s != [] && TokenAt(t, s).kind == Operator
    ensures s[0] < 0x80 && s[0] != QUOTE && !IsDigit(s[0]) && !IsIdentStart(t, s[0] as int)
    ensures TokenAt(t, s).literal == s[..TokenAt(t, s).size]
    ensures TokenAt(t, s).size == (if |s| > 1 && IsDouble(s[0], s[1]) then 2 else 1)
  {
    if IsDigit(s[0]) {
      NumberKinds(t, s);
    }
  }

  lemma IllegalSpellsAgain(t: Tables, s: seq<byte>, after: seq<byte>)
    requires StartsToken(s) && TokenAt(t, s).kind == Illegal && after != [] && after[0] == BLANK
    ensures SpellsAgain(t, s, after)
  {
    NoOtherIllegal(t, s);
    var c := Decode(s).code;
    DecodeEncode(c, after);
  }

  lemma NoOtherIllegal(t: Tables, s: seq<byte>)
    requires s != [] && TokenAt(t, s).kind == Illegal
    ensures s[0] != QUOTE && !IsDigit(s[0]) && !IsSingle(s[0]) && !IsIdentStart(t, Decode(s).code)
    ensures TokenAt(t, s).literal == Encode(Decode(s).code)
  {
    if IsDigit(s[0]) {
      NumberKinds(t, s);
    }
  }

  lemma TokenSpellsAgain(t: Tables, s: seq<byte>, after: seq<byte>)
    requires StartsToken(s) && after != [] && after[0] == BLANK
    ensures SpellsAgain(t, s, after)
  {
    hide SpellsAgain;
    if s[0] == QUOTE {
      StringAgain(t, s, after);
    } else if IsDigit(s[0]) {
      NumberSpellsAgain(t, s, after);
    } else if StartsWord(t, s) {
      WordSpellsAgain(t, s, after);
    } else if TokenAt(t, s).kind == Operator {
      OperatorSpellsAgain(t, s, after);
    } else {
      IllegalSpellsAgain(t, s, after);
    }
  }

  // ---------- All tokens ----------

  lemma LexBlank(t: Tables, rest: seq<byte>, at: nat)
    ensures Lex(t, [BLANK] + rest, at) == Lex(t, rest, at + 1)
  {
    hide LexToken;
    var s := [BLANK] + rest;
    SkipBlank(rest);
    assert s[Skip(s)..] == rest[Skip(rest)..];
  }

  lemma SkipBlank(rest: seq<byte>)
    ensures Skip([BLANK] + rest) == 1 + Skip(rest)
  {
    assert ([BLANK] + rest)[1..] == rest;
  }

  lemma SpellingIsLexed(t: Tables, s: seq<byte>, rest: seq<byte>, at: nat)
    requires StartsToken(s) && SpellsAgain(t, s, [BLANK] + rest)
    ensures var x := TokenAt(t, s);
            var spelling := Spelling(x.kind, x.literal);
            Lex(t, spelling + [BLANK] + rest, at)
            == [Item(x.kind, x.literal, at, |spelling|)] + Lex(t, rest, at + |spelling| + 1)
  {
    hide TokenAt, Spelling, Lex, Skip;
    var x := TokenAt(t, s);
    var spelling := Spelling(x.kind, x.literal);
    var after := [BLANK] + rest;
    var p := spelling + after;
    assert spelling + [BLANK] + rest == p;
    StartIsNotSkipped(p);
    LexUnfold(t, p, at, 0);
    assert p[0..] == p && p[|spelling|..] == after;
    LexBlank(t, rest, at + |spelling|);
  }

  lemma StartIsNotSkipped(p: seq<byte>)
    requires StartsToken(p)
    ensures Skip(p) == 0
  {
  }

  lemma SortsJoin(x: Item, tail: seq<Item>)
    ensures Sorts([x] + tail) == [Sort(x.kind, x.literal)] + Sorts(tail)
  {
    assert ([x] + tail)[1..] == tail;
  }

  lemma PrintJoin(x: Item, tail: seq<Item>)
    requires x.kind != Eof
    ensures Print([x] + tail) == Spelling(x.kind, x.literal) + [BLANK] + Print(tail)
  {
    assert ([x] + tail)[1..] == tail;
  }

  /** For every text: its tokens, printed and lexed again, are the same tokens. */
  lemma {:induction false} PrintedTokensLexBack(t: Tables, src: seq<byte>, at: nat, again: nat)
    requires at <= |src|
    ensures Sorts(Lex(t, Print(Lex(t, src[at..], at)), again)) == Sorts(Lex(t, src[at..], at))
    decreases |src| - at
  {
    if at + Skip(src[at..]) == |src| {
      LastItem(t, src, at);
      NothingIsLexed(t, again, |src|);
    } else {
      NextSort(t, src, at, again);
    }
  }

  lemma NothingIsLexed(t: Tables, again: nat, end: nat)
    ensures Sorts(Lex(t, Print([Item(Eof, [], end, 0)]), again)) == Sorts([Item(Eof, [], end, 0)])
  {
  }

  lemma {:induction false} NextSort(t: Tables, src: seq<byte>, at: nat, again: nat)
    requires at <= |src| && at + Skip(src[at..]) < |src|
    ensures Sorts(Lex(t, Print(Lex(t, src[at..], at)), again)) == Sorts(Lex(t, src[at..], at))
    decreases |src| - at, 0
  {
    hide *;
    var n := Skip(src[at..]);
    var j := at + n;
    var x := ItemAt(t, src, j);
    ItemIsItsText(t, src, j);
    LexOnce(t, src, at, n);
    var e := j + x.size;
    var tail := Lex(t, src[e..], e);
    TokenStarts(src, at, n);
    TokenSpellsAgain(t, src[j..], [BLANK] + Print(tail));
    SpellingIsLexed(t, src[j..], Print(tail), again);
    ItemIsToken(t, src, j);
    var spelling := Spelling(x.kind, x.literal);
    PrintedTokensLexBack(t, src, e, again + |spelling| + 1);
    PrintJoin(x, tail);
    SortsJoin(x, tail);
    SortsJoin(Item(x.kind, x.literal, again, |spelling|), Lex(t, Print(tail), again + |spelling| + 1));
  }

  lemma ItemIsToken(t: Tables, src: seq<byte>, j: nat)
    requires j < |src|
    ensures ItemAt(t, src, j).kind == TokenAt(t, src[j..]).kind && ItemAt(t, src, j).literal == TokenAt(t, src[j..]).literal
  {
  }

  lemma TokenStarts(src: seq<byte>, at: nat, n: nat)
    requires at <= |src| && n == Skip(src[at..]) && at + n < |src|
    ensures StartsToken(src[at + n..])
  {
    NothingLeftToSkip(src[at..]);
    assert src[at..][n..] == src[at + n..];
  }
}
