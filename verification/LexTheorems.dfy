/**
  What the tokens of a text are: they lie in order with only blanks and comments between them, each legal token is
  the text it was read from, none is cut short, and printing them again gives them back.
*/
module LexTheorems {
  import opened Utf8
  import opened Lexemes

  // ---------- One step ----------

  lemma TokenIsItsText(t: Tables, s: seq<byte>)
    requires s != []
    ensures var x := TokenAt(t, s);
            && x.kind != Eof
            && (x.kind !in {Str, Illegal} ==> x.literal == s[..x.size])
            && (x.kind == Str ==> s[0] == QUOTE)
            && (x.kind == Illegal ==> x.literal == Encode(Decode(s).code))
  {
    if s[0] == QUOTE {
    } else if IsDigit(s[0]) {
      NumberKinds(t, s);
    }
  }

  lemma NumberKinds(t: Tables, s: seq<byte>)
    ensures NumberAt(t, s).kind in {Int, Duration, Float}
    ensures NumberAt(t, s).literal == s[..NumberAt(t, s).size]
  {
  }

  /** The token read at an offset, as an item of the whole text. */
  function ItemAt(t: Tables, src: seq<byte>, offset: nat): (x: Item)
    requires offset < |src|
    ensures x.offset == offset
  {
    var x := TokenAt(t, src[offset..]);
    Item(x.kind, x.literal, offset, x.size)
  }

  lemma ItemIsItsText(t: Tables, src: seq<byte>, offset: nat)
    requires offset < |src|
    ensures var x := ItemAt(t, src, offset);
            x.kind != Eof && x.size > 0 && IsItsText(src, x)
  {
    var rest := src[offset..];
    TokenIsItsText(t, rest);
    var x := ItemAt(t, src, offset);
    assert TextOf(src, x) == rest[..x.size];
  }

  lemma LexUnfold(t: Tables, s: seq<byte>, at: nat, n: nat)
    requires n == Skip(s) < |s|
    ensures var x := TokenAt(t, s[n..]);
            Lex(t, s, at) == [Item(x.kind, x.literal, at + n, x.size)] + Lex(t, s[n..][x.size..], at + n + x.size)
  {
    hide TokenAt, Skip;
  }

  lemma LexOnce(t: Tables, src: seq<byte>, at: nat, n: nat)
    requires at <= |src| && n == Skip(src[at..]) && at + n < |src|
    ensures var e := at + n + ItemAt(t, src, at + n).size;
            e <= |src| && Lex(t, src[at..], at) == [ItemAt(t, src, at + n)] + Lex(t, src[e..], e)
  {
    hide Lex, Skip, TokenAt;
    LexUnfold(t, src[at..], at, n);
    var rest := src[at + n..];
    assert src[at..][n..] == rest;
    var k := ItemAt(t, src, at + n).size;
    assert rest[k..] == src[at + n + k..];
  }

  /** Where the text after `at` holds another token, this is it, and lexing goes on at its end. */
  lemma NextItem(t: Tables, src: seq<byte>, at: nat) returns (x: Item, e: nat)
    requires at <= |src| && at + Skip(src[at..]) < |src|
    ensures x.kind != Eof && x.size > 0
    ensures x.offset == at + Skip(src[at..]) && e == x.offset + x.size <= |src|
    ensures Lex(t, src[at..], at) == [x] + Lex(t, src[e..], e)
    ensures IsItsText(src, x)
  {
    hide *;
    var n := Skip(src[at..]);
    ItemIsItsText(t, src, at + n);
    LexOnce(t, src, at, n);
    x := ItemAt(t, src, at + n);
    e := x.offset + x.size;
  }

  lemma LastItem(t: Tables, src: seq<byte>, at: nat)
    requires at <= |src| && at + Skip(src[at..]) == |src|
    ensures Lex(t, src[at..], at) == [Item(Eof, [], |src|, 0)]
  {
  }

  // ---------- Layout ----------

  /** The tokens from offset `from` on: only the last is Eof, at the end, and each starts at or after the end of the last. */
  ghost predicate InOrder(items: seq<Item>, from: nat, end: nat) {
    && items != []
    && (forall k :: 0 <= k < |items| ==> (items[k].kind == Eof <==> k == |items| - 1))
    && items[|items| - 1].offset == end
    && (forall k :: 0 <= k < |items| ==> from <= items[k].offset <= end)
    && (forall k :: 0 <= k < |items| - 1 ==> items[k].size > 0 && items[k].offset + items[k].size <= items[k + 1].offset)
  }

  lemma {:induction false} TokensAreInOrder(t: Tables, src: seq<byte>, at: nat)
    requires at <= |src|
    ensures InOrder(Lex(t, src[at..], at), at, |src|)
    decreases |src| - at
  {
    if at + Skip(src[at..]) == |src| {
      LastItem(t, src, at);
    } else {
      var x, e := NextItem(t, src, at);
      TokensAreInOrder(t, src, e);
      OneMoreInOrder(x, Lex(t, src[e..], e), at, |src|);
    }
  }

  lemma OneMoreInOrder(first: Item, tail: seq<Item>, from: nat, end: nat)
    requires first.kind != Eof && first.size > 0 && from <= first.offset && InOrder(tail, first.offset + first.size, end)
    ensures InOrder([first] + tail, from, end)
  {
    var items := [first] + tail;
    forall k | 0 <= k < |items| - 1
      ensures items[k].size > 0 && items[k].offset + items[k].size <= items[k + 1].offset
    {
      if k > 0 {
        assert items[k] == tail[k - 1] && items[k + 1] == tail[k];
      }
    }
  }

  // ---------- Each token is its text ----------

  /** The text of a token. */
  function TextOf(src: seq<byte>, x: Item): seq<byte>
    requires x.offset + x.size <= |src|
  {
    src[x.offset..x.offset + x.size]
  }

  ghost predicate IsItsText(src: seq<byte>, x: Item) {
    && x.offset + x.size <= |src|
    && match x.kind
       case Eof => x.size == 0
       case Str => TextOf(src, x) != [] && TextOf(src, x)[0] == QUOTE
       case Illegal => TextOf(src, x) != [] && x.literal == Encode(Decode(src[x.offset..]).code)
       case _ => x.literal == TextOf(src, x)
  }

  lemma {:induction false} TokensAreTheirText(t: Tables, src: seq<byte>, at: nat)
    requires at <= |src|
    ensures forall x :: x in Lex(t, src[at..], at) ==> IsItsText(src, x)
    decreases |src| - at
  {
    if at + Skip(src[at..]) == |src| {
      LastItem(t, src, at);
    } else {
      var x, e := NextItem(t, src, at);
      TokensAreTheirText(t, src, e);
      var tail := Lex(t, src[e..], e);
      assert forall y :: y in [x] + tail ==> y == x || y in tail;
    }
  }

  // ---------- Between tokens: blanks and comments ----------

  predicate IsLineComment(c: seq<byte>, after: seq<byte>) {
    && OpensLine(c) && NEWLINE !in c
    && (after == [] || after[0] == NEWLINE)
  }

  ghost predicate HasClose(s: seq<byte>, k: nat) {
    k + 2 <= |s| && s[k] == STAR && s[k + 1] == SLASH
  }

  /** A block comment runs to the first closing after its opening, or, for want of one, to the end of the text. */
  ghost predicate IsBlockComment(c: seq<byte>, after: seq<byte>) {
    && OpensBlock(c)
    && ((|c| >= 4 && HasClose(c, |c| - 2) && (forall k :: 2 <= k < |c| - 2 ==> !HasClose(c, k)))
        || (after == [] && (forall k :: 2 <= k < |c| ==> !HasClose(c, k))))
  }

  /** The gap is blanks and comments only. */
  ghost predicate IsGap(gap: seq<byte>, after: seq<byte>)
    decreases |gap|
  {
    || gap == []
    || (IsBlank(gap[0]) && IsGap(gap[1..], after))
    || exists n :: CommentThenGap(gap, after, n)
  }

  ghost predicate CommentThenGap(gap: seq<byte>, after: seq<byte>, n: nat)
    decreases |gap|, 0
  {
    && 0 < n <= |gap|
    && (IsLineComment(gap[..n], gap[n..] + after) || IsBlockComment(gap[..n], gap[n..] + after))
    && IsGap(gap[n..], after)
  }

  lemma {:induction false} FirstClose(s: seq<byte>)
    ensures var n := CommentLength(s);
            || (n >= 2 && HasClose(s, n - 2) && (forall k :: 0 <= k < n - 2 ==> !HasClose(s, k)))
            || (n == |s| && (forall k :: 0 <= k < |s| ==> !HasClose(s, k)))
  {
    if s != [] && !Closes(s) {
      FirstClose(s[1..]);
      assert forall k :: 1 <= k < |s| ==> (HasClose(s, k) <==> HasClose(s[1..], k - 1));
    }
  }

  lemma BlockCommentIsOne(s: seq<byte>)
    requires OpensBlock(s)
    ensures IsBlockComment(s[..2 + CommentLength(s[2..])], s[2 + CommentLength(s[2..])..])
  {
    var n := CommentLength(s[2..]);
    var c := s[..2 + n];
    FirstClose(s[2..]);
    assert forall k :: 2 <= k && k + 2 <= |c| ==> (HasClose(c, k) <==> HasClose(s[2..], k - 2));
  }

  lemma LineCommentIsOne(s: seq<byte>)
    requires OpensLine(s)
    ensures LineLength(s) > 0
    ensures IsLineComment(s[..LineLength(s)], s[LineLength(s)..])
  {
    if s[0] == SLASH {
      assert LineLength(s) == 1 + LineLength(s[1..]) && s[1..][0] == SLASH;
    }
  }

  lemma {:induction false} SkippedIsGap(s: seq<byte>)
    ensures IsGap(s[..Skip(s)], s[Skip(s)..])
    decreases |s|
  {
    var n := Skip(s);
    var gap, after := s[..n], s[n..];
    if s == [] {
    } else if IsBlank(s[0]) {
      SkippedIsGap(s[1..]);
      assert gap[1..] == s[1..][..n - 1] && after == s[1..][n - 1..];
    } else if OpensLine(s) {
      LineCommentIsOne(s);
      SkippedIsGap(s[LineLength(s)..]);
      CommentIsGap(s, LineLength(s), Skip(s[LineLength(s)..]));
    } else if OpensBlock(s) {
      var m := 2 + CommentLength(s[2..]);
      BlockCommentIsOne(s);
      SkippedIsGap(s[m..]);
      CommentIsGap(s, m, Skip(s[m..]));
    }
  }

  lemma CommentIsGap(s: seq<byte>, m: nat, k: nat)
    requires 0 < m <= m + k <= |s| && IsGap(s[m..][..k], s[m..][k..])
    requires IsLineComment(s[..m], s[m..]) || IsBlockComment(s[..m], s[m..])
    ensures IsGap(s[..m + k], s[m + k..])
  {
    var gap, after := s[..m + k], s[m + k..];
    assert gap[m..] == s[m..][..k] && after == s[m..][k..];
    assert gap[..m] == s[..m] && gap[m..] + after == s[m..];
    assert CommentThenGap(gap, after, m);
  }

  /** The skipping stops only where no blank and no comment starts. */
  lemma {:induction false} NothingLeftToSkip(s: seq<byte>)
    ensures var rest := s[Skip(s)..];
            rest == [] || (!IsBlank(rest[0]) && !OpensLine(rest) && !OpensBlock(rest))
    decreases |s|
  {
    if s == [] {
    } else if IsBlank(s[0]) {
      NothingLeftToSkip(s[1..]);
      assert s[Skip(s)..] == s[1..][Skip(s[1..])..];
    } else if OpensLine(s) {
      LineCommentIsOne(s);
      NothingLeftToSkip(s[LineLength(s)..]);
      assert s[Skip(s)..] == s[LineLength(s)..][Skip(s[LineLength(s)..])..];
    } else if OpensBlock(s) {
      var m := 2 + CommentLength(s[2..]);
      NothingLeftToSkip(s[m..]);
      assert s[Skip(s)..] == s[m..][Skip(s[m..])..];
    }
  }

  /** The gap before the k-th token. */
  function GapStart(items: seq<Item>, from: nat, k: nat): nat
    requires k < |items|
  {
    if k == 0 then from else items[k - 1].offset + items[k - 1].size
  }

  ghost predicate GapBefore(src: seq<byte>, items: seq<Item>, from: nat, k: nat) {
    && k < |items|
    && GapStart(items, from, k) <= items[k].offset <= |src|
    && IsGap(src[GapStart(items, from, k)..items[k].offset], src[items[k].offset..])
  }

  lemma {:induction false} GapsAreBlank(t: Tables, src: seq<byte>, at: nat)
    requires at <= |src|
    ensures forall k :: 0 <= k < |Lex(t, src[at..], at)| ==> GapBefore(src, Lex(t, src[at..], at), at, k)
    decreases |src| - at
  {
    hide Skip, IsGap, Lex;
    FirstGap(src, at);
    if at + Skip(src[at..]) == |src| {
      LastItem(t, src, at);
    } else {
      var x, e := NextItem(t, src, at);
      var tail := Lex(t, src[e..], e);
      GapsAreBlank(t, src, e);
      assert GapBefore(src, [x] + tail, at, 0);
      LaterGaps(src, x, tail, at, e);
    }
  }

  lemma FirstGap(src: seq<byte>, at: nat)
    requires at <= |src|
    ensures IsGap(src[at..at + Skip(src[at..])], src[at + Skip(src[at..])..])
  {
    var n := Skip(src[at..]);
    SkippedIsGap(src[at..]);
    assert src[at..at + n] == src[at..][..n] && src[at + n..] == src[at..][n..];
  }

  lemma LaterGaps(src: seq<byte>, x: Item, tail: seq<Item>, from: nat, e: nat)
    requires e == x.offset + x.size && GapBefore(src, [x] + tail, from, 0)
    requires forall k :: 0 <= k < |tail| ==> GapBefore(src, tail, e, k)
    ensures forall k :: 0 <= k < |tail| + 1 ==> GapBefore(src, [x] + tail, from, k)
  {
    var items := [x] + tail;
    forall k | 1 <= k < |items|
      ensures GapBefore(src, items, from, k)
    {
      assert GapBefore(src, tail, e, k - 1);
      assert items[k] == tail[k - 1] && (k > 1 ==> items[k - 1] == tail[k - 2]);
    }
  }

  // ---------- No token is cut short ----------

  lemma {:induction false} DigitsStop(s: seq<byte>)
    ensures forall k :: 0 <= k < DigitsLength(s) ==> IsDigit(s[k])
    ensures DigitsLength(s) < |s| ==> !IsDigit(s[DigitsLength(s)])
  {
    if s != [] && IsDigit(s[0]) {
      DigitsStop(s[1..]);
    }
  }

  lemma {:induction false} CompoundStops(s: seq<byte>)
    ensures CompoundLength(s) < |s| ==> !IsDigit(s[CompoundLength(s)])
    decreases |s|
  {
    if s != [] && IsDigit(s[0]) {
      CompoundStops(if |s| > 1 && IsUnit(s[1]) then s[2..] else s[1..]);
    }
  }

  lemma {:induction false} WordStops(t: Tables, s: seq<byte>)
    ensures !ContinuesWord(t, s[WordLength(t, s)..])
    decreases |s|
  {
    if ContinuesWord(t, s) {
      var n := Decode(s).size;
      WordStops(t, s[n..]);
      assert s[WordLength(t, s)..] == s[n..][WordLength(t, s[n..])..];
    } else {
      assert s[0..] == s;
    }
  }

  /** An integer ends before a unit letter exactly when what follows the unit made the lexer step back. */
  predicate SteppedBack(kind: Kind, after: seq<byte>) {
    kind == Int && after != [] && IsUnit(after[0])
  }

  /** A word stops at what cannot continue it, digits stop at a non-digit, and a duration at neither. */
  lemma NoTokenIsCutShort(t: Tables, s: seq<byte>)
    requires s != []
    ensures var x := TokenAt(t, s);
            var after := s[x.size..];
            && (x.kind == Word ==> !ContinuesWord(t, after))
            && (x.kind in {Int, Float, Duration} ==> after == [] || !IsDigit(after[0]))
            && (x.kind == Duration ==> !StartsWord(t, after))
            && (SteppedBack(x.kind, after) ==> StartsWord(t, after[1 + CompoundLength(after[1..])..]))
            && (x.kind == Int && !SteppedBack(x.kind, after) ==> !(|after| > 1 && after[0] == DOT && IsDigit(after[1])))
  {
    if s[0] == QUOTE {
    } else if IsDigit(s[0]) {
      NumberStops(t, s);
    } else if StartsWord(t, s) {
      WordStops(t, s);
    }
  }

  /** The number at `a` by absolute offsets. */
  lemma NumberParts(t: Tables, src: seq<byte>, a: nat)
    requires a <= |src|
    ensures
      var d := a + DigitsLength(src[a..]);
      var x := NumberAt(t, src[a..]);
      if d < |src| && IsUnit(src[d]) then
        var e := d + 1 + CompoundLength(src[d + 1..]);
        x == if StartsWord(t, src[e..]) then Lexeme(Int, src[a..d], d - a, []) else Lexeme(Duration, src[a..e], e - a, [])
      else if d + 1 < |src| && src[d] == DOT && IsDigit(src[d + 1]) then
        var e := d + 1 + DigitsLength(src[d + 1..]);
        x == Lexeme(Float, src[a..e], e - a, [])
      else
        x == Lexeme(Int, src[a..d], d - a, [])
  {
    hide DigitsLength, CompoundLength, StartsWord, IsUnit, IsDigit;
    var n := DigitsLength(src[a..]);
    var d := a + n;
    Slices(src, a, n);
    if d < |src| {
      Slices(src, d, 1);
      Slices(src, a, n + 1 + CompoundLength(src[d + 1..]));
      Slices(src, a, n + 1 + DigitsLength(src[d + 1..]));
    }
  }

  lemma Slices(src: seq<byte>, a: nat, i: nat)
    requires a + i <= |src|
    ensures src[a..][i..] == src[a + i..] && src[a..][..i] == src[a..a + i]
  {
  }

  lemma NumberStops(t: Tables, s: seq<byte>)
    ensures var x := NumberAt(t, s);
            var after := s[x.size..];
            && (after == [] || !IsDigit(after[0]))
            && (x.kind == Duration ==> !StartsWord(t, after))
            && (SteppedBack(x.kind, after) ==> StartsWord(t, after[1 + CompoundLength(after[1..])..]))
            && (x.kind == Int && !SteppedBack(x.kind, after) ==> !(|after| > 1 && after[0] == DOT && IsDigit(after[1])))
  {
    hide DigitsLength, CompoundLength, StartsWord, NumberAt;
    assert s[0..] == s;
    NumberParts(t, s, 0);
    DigitsStop(s);
    var n := DigitsLength(s);
    if n < |s| && IsUnit(s[n]) {
      DurationStops(s, n);
    } else if n + 1 < |s| && s[n] == DOT && IsDigit(s[n + 1]) {
      FractionStops(s, n);
    }
  }

  lemma DurationStops(s: seq<byte>, n: nat)
    requires n < |s|
    ensures var d := n + 1 + CompoundLength(s[n + 1..]);
            && d <= |s|
            && (d < |s| ==> !IsDigit(s[d]))
            && s[n..][1..] == s[n + 1..]
            && s[d..] == s[n..][1 + CompoundLength(s[n + 1..])..]
  {
    assert s[n..][1..] == s[n + 1..];
    CompoundStops(s[n + 1..]);
  }

  lemma FractionStops(s: seq<byte>, n: nat)
    requires n < |s|
    ensures var f := n + 1 + DigitsLength(s[n + 1..]);
            f <= |s| && (f < |s| ==> !IsDigit(s[f]))
  {
    DigitsStop(s[n + 1..]);
  }

  // ---------- A block comment left open ----------

  /** Whether stepping rune by rune meets the last byte as a rune of its own. */
  predicate LastRuneIsOneByte(s: seq<byte>) {
    s != [] && (|s| == 1 || LastRuneIsOneByte(s[Decode(s).size..]))
  }

  /** No closing starts within the first rune: it is no closing itself, and other bytes of a rune are not ASCII. */
  lemma CloseLater(s: seq<byte>, n: nat)
    requires s != [] && !Closes(s) && 1 <= n <= |s| && (n > 1 ==> forall k :: 0 <= k < n ==> s[k] >= 0x80)
    ensures (forall k :: 0 <= k < |s| ==> !HasClose(s, k)) <==> (forall k :: 0 <= k < |s[n..]| ==> !HasClose(s[n..], k))
  {
    assert forall k :: 0 <= k < n ==> !HasClose(s, k);
    assert forall k :: n <= k < |s| ==> (HasClose(s, k) <==> HasClose(s[n..], k - n));
    assert forall k :: 0 <= k < |s| - n ==> (HasClose(s[n..], k) <==> HasClose(s, k + n));
  }

  /** The missing end of a block comment is reported exactly when something follows its opening and the last rune is
      one byte long: an opening at the very end, or a long last rune, goes unreported. */
  lemma {:induction false} OpenCommentReportedIff(s: seq<byte>)
    ensures CommentReported(s) <==> LastRuneIsOneByte(s) && (forall k :: 0 <= k < |s| ==> !HasClose(s, k))
    decreases |s|
  {
    hide Decode;
    if s == [] {
    } else if Closes(s) {
      assert HasClose(s, 0);
    } else if |s| > 1 {
      var n := Decode(s).size;
      OpenCommentReportedIff(s[n..]);
      CloseLater(s, n);
    }
  }

  // ---------- Illegal tokens and their diagnostics ----------

  ghost predicate IllegalAt(items: seq<Item>, o: nat) {
    exists x :: x in items && x.kind == Illegal && x.offset == o
  }

  lemma {:induction false} SkippingReportsComments(s: seq<byte>, at: nat)
    ensures forall r :: r in SkipReports(s, at) ==> r.fault == UnterminatedComment
    decreases |s|
  {
    if s == [] {
    } else if IsBlank(s[0]) {
      SkippingReportsComments(s[1..], at + 1);
    } else if OpensLine(s) {
      LineCommentIsOne(s);
      SkippingReportsComments(s[LineLength(s)..], at + LineLength(s));
    } else if OpensBlock(s) {
      SkippingReportsComments(s[2 + CommentLength(s[2..])..], at + 2 + CommentLength(s[2..]));
    }
  }

  lemma {:induction false} StringFaults(s: seq<byte>)
    ensures StringBody(s).faults in {[], [UnterminatedString], [UnterminatedEscape]}
    decreases |s|
  {
    hide Escaped, Encode, Decode;
    if s != [] {
      var r := Decode(s);
      var rest := s[r.size..];
      if r.code == BACKSLASH as int && rest != [] {
        StringFaults(rest[Decode(rest).size..]);
      } else if r.code != QUOTE as int && r.code != BACKSLASH as int {
        StringFaults(rest);
      }
    }
  }

  lemma TokenFaults(t: Tables, s: seq<byte>, at: nat, o: nat)
    requires s != []
    ensures Report(UnexpectedCharacter, o) in ReportsAt(TokenAt(t, s).faults, at)
            <==> TokenAt(t, s).kind == Illegal && at == o
  {
    hide StringBody, NumberAt;
    if s[0] == QUOTE {
      StringFaults(s[1..]);
    } else if IsDigit(s[0]) {
      NumberKinds(t, s);
      PlainNumber(t, s);
    }
    FewFaults(TokenAt(t, s).faults, at);
  }

  lemma PlainNumber(t: Tables, s: seq<byte>)
    ensures NumberAt(t, s).faults == []
  {
  }

  lemma FewFaults(faults: seq<Fault>, at: nat)
    ensures |faults| == 0 ==> ReportsAt(faults, at) == []
    ensures |faults| == 1 ==> ReportsAt(faults, at) == [Report(faults[0], at)]
  {
  }

  /** An unexpected character is reported at an offset exactly when the token there is illegal. */
  lemma {:induction false} UnexpectedIffIllegal(t: Tables, src: seq<byte>, at: nat, o: nat)
    requires at <= |src|
    ensures Report(UnexpectedCharacter, o) in Reports(t, src[at..], at) <==> IllegalAt(Lex(t, src[at..], at), o)
    decreases |src| - at
  {
    hide TokenAt, Skip, SkipReports, ReportsAt, IsItsText, Lex, Reports, IllegalAt;
    SkippingReportsComments(src[at..], at);
    var n := Skip(src[at..]);
    var j := at + n;
    if j == |src| {
      LastItem(t, src, at);
      ReportsSplit(t, src, at, n);
      NoIllegal(o, |src|);
    } else {
      var x := ItemAt(t, src, j);
      var e := j + x.size;
      LexOnce(t, src, at, n);
      ReportsSplit(t, src, at, n);
      TokenFaults(t, src[j..], j, o);
      UnexpectedIffIllegal(t, src, e, o);
      IllegalJoin(x, Lex(t, src[e..], e), o);
    }
  }

  lemma ReportsSplit(t: Tables, src: seq<byte>, at: nat, n: nat)
    requires at <= |src| && n == Skip(src[at..])
    ensures var j := at + n;
            Reports(t, src[at..], at) == SkipReports(src[at..], at) +
              if j == |src| then []
              else ReportsAt(TokenAt(t, src[j..]).faults, j) + Reports(t, src[j + ItemAt(t, src, j).size..], j + ItemAt(t, src, j).size)
  {
    hide TokenAt, Skip, SkipReports, ReportsAt;
    var j := at + n;
    Slices(src, at, n);
    if j < |src| {
      Slices(src, j, ItemAt(t, src, j).size);
    }
  }

  lemma NoIllegal(o: nat, end: nat)
    ensures !IllegalAt([Item(Eof, [], end, 0)], o)
  {
  }

  lemma IllegalJoin(x: Item, tail: seq<Item>, o: nat)
    ensures IllegalAt([x] + tail, o) <==> (x.kind == Illegal && x.offset == o) || IllegalAt(tail, o)
  {
    assert x in [x] + tail;
  }
}
