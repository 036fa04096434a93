/**
  The lexer's loops, one rune at a time: how lines, columns and what is still to be read change with each step.
*/
module LexSteps {
  import opened Utf8
  import opened Lexemes
  import opened LexTheorems

  // ---------- Lines and columns ----------

  function LineAt(src: seq<byte>, i: nat): nat
    requires i <= |src|
  {
    if i == 0 then 1 else LineAt(src, i - 1) + (if src[i - 1] == NEWLINE then 1 else 0)
  }

  function ColAt(src: seq<byte>, i: nat): nat
    requires i <= |src|
  {
    if i == 0 || src[i - 1] == NEWLINE then 1 else ColAt(src, i - 1) + 1
  }

  predicate NewlineIn(src: seq<byte>, a: nat, b: nat)
    requires b <= |src|
  {
    exists k :: a <= k < b && src[k] == NEWLINE
  }

  /** By how much the column falls short at `b`, if it did so by `lag` at `a`. */
  function LagAfter(src: seq<byte>, a: nat, b: nat, lag: int): int
    requires b <= |src|
  {
    if NewlineIn(src, a, b) then 0 else lag
  }

  lemma {:induction false} SameLine(src: seq<byte>, a: nat, b: nat)
    requires a <= b <= |src| && !NewlineIn(src, a, b)
    ensures LineAt(src, b) == LineAt(src, a) && ColAt(src, b) == ColAt(src, a) + (b - a)
    decreases b
  {
    if a < b {
      assert src[b - 1] != NEWLINE;
      assert !NewlineIn(src, a, b - 1);
      SameLine(src, a, b - 1);
    }
  }

  lemma LagJoins(src: seq<byte>, a: nat, b: nat, c: nat, lag: int)
    requires a <= b <= c <= |src|
    ensures LagAfter(src, b, c, LagAfter(src, a, b, lag)) == LagAfter(src, a, c, lag)
  {
  }

  /** Only a newline of its own puts a newline in a rune. */
  lemma RuneNewline(src: seq<byte>, i: nat)
    requires i < |src|
    ensures var r := Decode(src[i..]);
            && (src[i] == NEWLINE <==> r.code == NEWLINE as int)
            && (src[i] == NEWLINE ==> r.size == 1)
            && (NewlineIn(src, i, i + r.size) <==> src[i] == NEWLINE)
  {
    var r := Decode(src[i..]);
    assert forall k :: 0 <= k < r.size ==> src[i..][k] == src[i + k];
    if src[i] >= 0x80 {
      assert forall k :: i <= k < i + r.size ==> src[i..][k - i] == src[k] && src[i..][k - i] >= 0x80;
    }
  }

  // ---------- Stepping through comments by runes ----------

  lemma {:induction false} LineStep(s: seq<byte>, n: nat)
    requires n <= |s| && (forall k :: 0 <= k < n ==> s[k] != NEWLINE)
    ensures LineLength(s) == n + LineLength(s[n..])
  {
    if n > 0 {
      LineStep(s[1..], n - 1);
      assert s[1..][n - 1..] == s[n..];
    } else {
      assert s[0..] == s;
    }
  }

  lemma {:induction false} CommentStep(s: seq<byte>, n: nat)
    requires n <= |s| && (forall k :: 0 <= k < n ==> !HasClose(s, k))
    ensures CommentLength(s) == n + CommentLength(s[n..])
  {
    if n > 0 {
      assert !HasClose(s, 0);
      assert forall k :: 0 <= k < n - 1 ==> (HasClose(s[1..], k) <==> HasClose(s, k + 1));
      CommentStep(s[1..], n - 1);
      assert s[1..][n - 1..] == s[n..];
    } else {
      assert s[0..] == s;
    }
  }

  lemma RuneIsNoClose(s: seq<byte>)
    requires s != [] && !Closes(s)
    ensures forall k :: 0 <= k < Decode(s).size ==> !HasClose(s, k)
  {
  }

  // ---------- Blanks and comments ----------

  lemma SkipsBlank(src: seq<byte>, i: nat)
    requires i < |src| && IsBlank(src[i])
    ensures Skip(src[i..]) == 1 + Skip(src[i + 1..]) && SkipReports(src[i..], i) == SkipReports(src[i + 1..], i + 1)
    ensures Decode(src[i..]).size == 1
  {
    assert src[i..][1..] == src[i + 1..];
  }

  lemma SkipsLine(src: seq<byte>, i: nat)
    requires i < |src| && (src[i] == HASH || (src[i] == SLASH && i + 1 < |src| && src[i + 1] == SLASH))
    ensures var n := LineLength(src[i..]);
            n > 0 && Skip(src[i..]) == n + Skip(src[i + n..]) && SkipReports(src[i..], i) == SkipReports(src[i + n..], i + n)
  {
    var s := src[i..];
    assert OpensLine(s);
    LineCommentIsOne(s);
    assert s[LineLength(s)..] == src[i + LineLength(s)..];
  }

  lemma OpeningOfLine(src: seq<byte>, i: nat)
    requires i + 1 < |src| && src[i] == SLASH && src[i + 1] == SLASH
    ensures LineLength(src[i..]) == 2 + LineLength(src[i + 2..])
    ensures Decode(src[i..]).size == 1 && Decode(src[i + 1..]).size == 1
  {
    LineStep(src[i..], 2);
    assert src[i..][2..] == src[i + 2..];
  }

  lemma OpeningOfBlock(src: seq<byte>, i: nat)
    requires i + 1 < |src| && src[i] == SLASH && src[i + 1] == STAR
    ensures Decode(src[i..]).size == 1 && Decode(src[i + 1..]).size == 1
  {
  }

  lemma SkipsBlock(src: seq<byte>, i: nat)
    requires i + 1 < |src| && src[i] == SLASH && src[i + 1] == STAR
    ensures var n := 2 + CommentLength(src[i + 2..]);
            && Skip(src[i..]) == n + Skip(src[i + n..])
            && SkipReports(src[i..], i) == (if CommentReported(src[i + 2..]) then [Report(UnterminatedComment, i)] else [])
                                           + SkipReports(src[i + n..], i + n)
  {
    hide CommentLength, CommentReported, LineLength;
    var n := 2 + CommentLength(src[i + 2..]);
    assert src[i..][2..] == src[i + 2..] && src[i..][n..] == src[i + n..];
  }

  lemma SkipsNothing(src: seq<byte>, i: nat)
    requires i <= |src|
    requires i < |src| ==> !IsBlank(src[i]) && src[i] != HASH
    requires i + 1 < |src| ==> !(src[i] == SLASH && (src[i + 1] == SLASH || src[i + 1] == STAR))
    ensures Skip(src[i..]) == 0 && SkipReports(src[i..], i) == []
  {
  }

  lemma LineIsOver(s: seq<byte>)
    requires s == [] || Decode(s).code == NEWLINE as int
    ensures LineLength(s) == 0
  {
  }

  lemma NothingOfComment(s: seq<byte>)
    requires s == []
    ensures CommentLength(s) == 0 && !CommentReported(s)
  {
  }

  lemma OneRuneOfLine(src: seq<byte>, i: nat)
    requires i < |src| && Decode(src[i..]).code != NEWLINE as int
    ensures var n := Decode(src[i..]).size;
            LineLength(src[i..]) == n + LineLength(src[i + n..])
  {
    var n := Decode(src[i..]).size;
    RuneNewline(src, i);
    assert forall k :: 0 <= k < n ==> src[i..][k] == src[i + k];
    LineStep(src[i..], n);
    assert src[i..][n..] == src[i + n..];
  }

  lemma CloseAhead(src: seq<byte>, i: nat)
    requires i + 1 < |src| && Decode(src[i..]).code == STAR as int && src[i + 1] == SLASH
    ensures CommentLength(src[i..]) == 2 && !CommentReported(src[i..])
    ensures Decode(src[i..]).size == 1 && Decode(src[i + 1..]) == Rune(SLASH as int, 1)
  {
    assert src[i..][1] == src[i + 1];
    assert src[i + 1..][0] == SLASH;
  }

  lemma OneRuneOfComment(src: seq<byte>, i: nat)
    requires i < |src| && !(Decode(src[i..]).code == STAR as int && i + 1 < |src| && src[i + 1] == SLASH)
    ensures var n := Decode(src[i..]).size;
            && CommentLength(src[i..]) == n + CommentLength(src[i + n..])
            && (CommentReported(src[i..]) <==> i == |src| - 1 || CommentReported(src[i + n..]))
  {
    var s := src[i..];
    var n := Decode(s).size;
    assert |s| > 1 ==> s[1] == src[i + 1];
    assert !Closes(s);
    RuneIsNoClose(s);
    CommentStep(s, n);
    assert s[n..] == src[i + n..];
  }

  // ---------- Strings ----------

  /** What was read of a string's body up to `i`, completed by what remains, is the body. */
  ghost predicate BodySoFar(src: seq<byte>, body: nat, literal: seq<byte>, i: nat)
    requires body <= i <= |src|
  {
    var y := StringBody(src[i..]);
    StringBody(src[body..]) == Lexeme(Str, literal + y.literal, i - body + y.size, y.faults)
  }

  lemma BodyStarts(src: seq<byte>, body: nat)
    requires body <= |src|
    ensures BodySoFar(src, body, [], body)
  {
    hide Decode, Encode, Escaped;
    StringKind(src[body..]);
  }

  lemma StringKind(s: seq<byte>)
    ensures StringBody(s).kind == Str
  {
    hide Decode, Encode, Escaped;
  }

  lemma BodyEnds(src: seq<byte>, body: nat, literal: seq<byte>, i: nat)
    requires body <= i <= |src| && BodySoFar(src, body, literal, i)
    ensures i == |src| ==> StringBody(src[body..]) == Lexeme(Str, literal, i - body, [UnterminatedString])
    ensures i < |src| && Decode(src[i..]).code == QUOTE as int ==>
      StringBody(src[body..]) == Lexeme(Str, literal, i - body + Decode(src[i..]).size, [])
    ensures i < |src| && Decode(src[i..]).code == BACKSLASH as int && i + Decode(src[i..]).size == |src| ==>
      StringBody(src[body..]) == Lexeme(Str, literal, i - body + Decode(src[i..]).size, [UnterminatedEscape])
  {
    hide Decode, Encode, Escaped;
    assert literal + [] == literal;
  }

  lemma BodyEscape(src: seq<byte>, body: nat, literal: seq<byte>, i: nat)
    requires body <= i < |src| && BodySoFar(src, body, literal, i) && Decode(src[i..]).code == BACKSLASH as int
    requires i + Decode(src[i..]).size < |src|
    ensures var j := i + Decode(src[i..]).size;
            var e := Decode(src[j..]);
            j == i + 1 && BodySoFar(src, body, literal + Escaped(e.code), j + e.size)
  {
    hide Decode, Encode, Escaped, StringBody;
    var j := i + 1;
    var e := Decode(src[j..]);
    EscapeAt(src, i);
    var z := StringBody(src[j + e.size..]);
    assert literal + (Escaped(e.code) + z.literal) == literal + Escaped(e.code) + z.literal;
  }

  lemma EscapeAt(src: seq<byte>, i: nat)
    requires i < |src| && Decode(src[i..]).code == BACKSLASH as int && i + Decode(src[i..]).size < |src|
    ensures Decode(src[i..]).size == 1
    ensures var e := Decode(src[i + 1..]);
            var z := StringBody(src[i + 1 + e.size..]);
            StringBody(src[i..]) == Lexeme(Str, Escaped(e.code) + z.literal, 1 + e.size + z.size, z.faults)
  {
    hide Decode, Encode, Escaped;
    var e := Decode(src[i + 1..]);
    assert src[i..][1..] == src[i + 1..] && src[i + 1..][e.size..] == src[i + 1 + e.size..];
  }

  lemma BodyRune(src: seq<byte>, body: nat, literal: seq<byte>, i: nat)
    requires body <= i < |src| && BodySoFar(src, body, literal, i)
    requires Decode(src[i..]).code != BACKSLASH as int && Decode(src[i..]).code != QUOTE as int
    ensures var r := Decode(src[i..]);
            BodySoFar(src, body, literal + Encode(r.code), i + r.size)
  {
    hide Decode, Encode, Escaped;
    var r := Decode(src[i..]);
    assert src[i..][r.size..] == src[i + r.size..];
    var z := StringBody(src[i + r.size..]);
    assert StringBody(src[i..]) == Lexeme(Str, Encode(r.code) + z.literal, r.size + z.size, z.faults);
    assert literal + (Encode(r.code) + z.literal) == literal + Encode(r.code) + z.literal;
  }

  // ---------- Numbers, words and operators ----------

  lemma OneDigit(src: seq<byte>, i: nat)
    requires i < |src| && IsDigit(src[i])
    ensures DigitsLength(src[i..]) == 1 + DigitsLength(src[i + 1..]) && Decode(src[i..]).size == 1
  {
    assert src[i..][1..] == src[i + 1..];
  }

  lemma NoDigit(src: seq<byte>, i: nat)
    requires i <= |src| && (i < |src| ==> !IsDigit(src[i]))
    ensures DigitsLength(src[i..]) == 0 && CompoundLength(src[i..]) == 0
  {
  }

  lemma OnePart(src: seq<byte>, i: nat)
    requires i < |src| && IsDigit(src[i])
    ensures Decode(src[i..]).size == 1
    ensures if i + 1 < |src| && IsUnit(src[i + 1])
            then CompoundLength(src[i..]) == 2 + CompoundLength(src[i + 2..]) && Decode(src[i + 1..]).size == 1
            else CompoundLength(src[i..]) == 1 + CompoundLength(src[i + 1..])
  {
    assert src[i..][1..] == src[i + 1..];
    if i + 1 < |src| {
      assert src[i..][2..] == src[i + 2..];
    }
  }

  lemma UnitIsByte(src: seq<byte>, i: nat)
    requires i < |src| && src[i] < 0x80
    ensures Decode(src[i..]).size == 1
  {
  }

  lemma NoRuneAcross(src: seq<byte>, i: nat, target: nat)
    requires i < target < |src| && src[target] < 0x80
    ensures i + Decode(src[i..]).size <= target
  {
    var n := Decode(src[i..]).size;
    if i + n > target {
      assert src[i..][target - i] == src[target];
    }
  }

  lemma DigitsAhead(src: seq<byte>, a: nat)
    requires a <= |src|
    ensures var n := DigitsLength(src[a..]);
            a + n <= |src| && forall k :: a <= k < a + n ==> IsDigit(src[k])
  {
    var n := DigitsLength(src[a..]);
    DigitsStop(src[a..]);
    assert forall k :: a <= k < a + n ==> src[a..][k - a] == src[k];
  }

  lemma OneWordRune(t: Tables, src: seq<byte>, i: nat)
    requires i < |src| && IsIdentContinue(t, Decode(src[i..]).code)
    ensures var n := Decode(src[i..]).size;
            WordLength(t, src[i..]) == n + WordLength(t, src[i + n..])
  {
    var n := Decode(src[i..]).size;
    assert src[i..][n..] == src[i + n..];
  }

  lemma NoWordRune(t: Tables, src: seq<byte>, i: nat)
    requires i <= |src| && (i < |src| ==> !IsIdentContinue(t, Decode(src[i..]).code))
    ensures WordLength(t, src[i..]) == 0
  {
  }

  lemma OperatorHere(t: Tables, src: seq<byte>, i: nat)
    requires i < |src| && src[i] != QUOTE && !IsDigit(src[i]) && !StartsWord(t, src[i..])
    ensures
      var x := TokenAt(t, src[i..]);
      var r := Decode(src[i..]);
      if i + 1 < |src| && IsDouble(src[i], src[i + 1])
      then x == Lexeme(Operator, src[i..i + 2], 2, []) && r.size == 1 && Decode(src[i + 1..]).size == 1
      else if IsSingle(src[i]) then x == Lexeme(Operator, [src[i]], 1, []) && r.size == 1
      else x == Lexeme(Illegal, Encode(r.code), r.size, [UnexpectedCharacter])
  {
    var s := src[i..];
    if i + 1 < |src| {
      assert s[1] == src[i + 1] && s[..2] == src[i..i + 2];
    }
    assert s[..1] == [src[i]];
  }
}
