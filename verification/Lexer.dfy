/**
  The lexer with its cursor. Lines are exact; a column falls short, after the lexer has stepped back from a duration,
  by the length of the number it stepped back to, until the next newline or the next step back.
*/
module Lexer {
  import opened Utf8
  import opened Lexemes
  import opened LexSteps
  import opened LexTheorems

  datatype Pos = Pos(line: nat, col: int, offset: nat)

  datatype Token = Token(kind: Kind, literal: seq<byte>, pos: Pos)

  datatype Diagnostic = Diagnostic(fault: Fault, pos: Pos)

  // ---------- Diagnostics and tokens without line and column ----------

  function ReportsOf(errors: seq<Diagnostic>): (r: seq<Report>)
    ensures |r| == |errors|
  {
    seq(|errors|, k requires 0 <= k < |errors| => Report(errors[k].fault, errors[k].pos.offset))
  }

  // ---------- The lexer ----------

  class Lexer {
    const t: Tables
    const src: seq<byte>
    var pos: nat
    var line: nat
    var col: int
    var tokens: seq<Token>
    var errors: seq<Diagnostic>

    constructor (t: Tables, src: seq<byte>)
      ensures this.t == t && this.src == src && pos == 0 && tokens == [] && errors == []
      ensures Placed() && Lag() == 0
    {
      this.t, this.src, pos, line, col, tokens, errors := t, src, 0, 1, 1, [], [];
    }

    /** The line is exact. */
    predicate Placed()
      reads this`pos, this`line, this`col
    {
      pos <= |src| && line == LineAt(src, pos)
    }

    function Lag(): int
      requires Placed()
      reads this`pos, this`line, this`col
    {
      ColAt(src, pos) - col
    }

    /** The cursor came here from `from`, where the column fell short by `lag`, without stepping back. */
    predicate CameFrom(from: nat, lag: int)
      reads this`pos, this`line, this`col
      ensures CameFrom(from, lag) ==> Placed()
    {
      Placed() && from <= pos && Lag() == LagAfter(src, from, pos, lag)
    }

    function Rest(): seq<byte>
      requires Placed()
      reads this`pos, this`line, this`col
    {
      src[pos..]
    }

    method Peek() returns (r: int)
      requires Placed()
      ensures r == if Rest() == [] then 0 else Decode(Rest()).code
    {
      r := if pos >= |src| then 0 else Decode(src[pos..]).code;
    }

    /** One rune on. The ghost parameters say where the cursor came from and how far short the column was there. */
    method Advance(ghost from: nat, ghost lag: int) returns (r: int)
      requires CameFrom(from, lag) && pos < |src|
      modifies this`pos, this`line, this`col
      ensures CameFrom(from, lag)
      ensures pos == old(pos) + Decode(old(Rest())).size && r == Decode(old(Rest())).code
    {
      ghost var before, lagBefore := pos, Lag();
      var rune := Decode(src[pos..]);
      RuneNewline(src, pos);
      if rune.code == NEWLINE as int {
        line, col := line + 1, 1;
      } else {
        SameLine(src, pos, pos + rune.size);
        col := col + rune.size;
      }
      pos := pos + rune.size;
      r := rune.code;
      assert Lag() == LagAfter(src, before, pos, lagBefore);
      LagJoins(src, from, before, pos, lag);
    }

    method CurPos() returns (p: Pos)
      requires Placed()
      ensures p == Pos(line, col, pos)
    {
      p := Pos(line, col, pos);
    }

    // ---------- Blanks and comments ----------

    /** To the end of the line. */
    method SkipLine(ghost from: nat, ghost lag: int)
      requires CameFrom(from, lag)
      modifies this`pos, this`line, this`col
      ensures CameFrom(from, lag) && pos == old(pos) + LineLength(old(Rest()))
    {
      hide Decode, LineLength;
      ghost var start := pos;
      while pos < |src| && Decode(src[pos..]).code != NEWLINE as int
        invariant CameFrom(from, lag) && start <= pos && LineLength(src[start..]) == pos - start + LineLength(src[pos..])
        decreases |src| - pos
      {
        OneRuneOfLine(src, pos);
        var _ := Advance(from, lag);
      }
      LineIsOver(src[pos..]);
    }

    /** After the opening of a block comment at `start`, to its closing or the end of the text. */
    method SkipBlock(start: Pos, ghost from: nat, ghost lag: int)
      requires CameFrom(from, lag)
      modifies this`pos, this`line, this`col, this`errors
      ensures CameFrom(from, lag) && pos == old(pos) + CommentLength(old(Rest()))
      ensures errors == old(errors) + if CommentReported(old(Rest())) then [Diagnostic(UnterminatedComment, start)] else []
    {
      hide Decode, CommentLength, CommentReported, CameFrom;
      ghost var open := pos;
      while pos < |src|
        invariant CameFrom(from, lag) && open <= pos <= |src| && errors == old(errors)
        invariant CommentLength(src[open..]) == pos - open + CommentLength(src[pos..])
        invariant CommentReported(src[open..]) == CommentReported(src[pos..])
        decreases |src| - pos
      {
        if Decode(src[pos..]).code == STAR as int && pos + 1 < |src| && src[pos + 1] == SLASH {
          CloseAhead(src, pos);
          var _ := Advance(from, lag);
          var _ := Advance(from, lag);
          return;
        }
        OneRuneOfComment(src, pos);
        if pos >= |src| - 1 {
          errors := errors + [Diagnostic(UnterminatedComment, start)];
          var _ := Advance(from, lag);
          NothingOfComment(src[pos..]);
          return;
        }
        var _ := Advance(from, lag);
      }
      NothingOfComment(src[pos..]);
    }

    /** A line comment that opens with two slashes. */
    method SlashComment(ghost from: nat, ghost lag: int)
      requires CameFrom(from, lag) && pos + 1 < |src| && src[pos] == SLASH && src[pos + 1] == SLASH
      modifies this`pos, this`line, this`col
      ensures CameFrom(from, lag) && pos == old(pos) + LineLength(old(Rest()))
    {
      hide Decode, CameFrom, LineLength;
      OpeningOfLine(src, pos);
      var _ := Advance(from, lag);
      var _ := Advance(from, lag);
      SkipLine(from, lag);
    }

    method BlockComment(ghost from: nat, ghost lag: int)
      requires CameFrom(from, lag) && pos + 1 < |src| && src[pos] == SLASH && src[pos + 1] == STAR
      modifies this`pos, this`line, this`col, this`errors
      ensures CameFrom(from, lag) && pos > old(pos) && pos + Skip(Rest()) == old(pos) + Skip(old(Rest()))
      ensures ReportsOf(errors) + SkipReports(Rest(), pos) == ReportsOf(old(errors)) + SkipReports(old(Rest()), old(pos))
    {
      hide Decode, CameFrom, CommentLength, CommentReported, ReportsOf, Skip, SkipReports;
      SkipsBlock(src, pos);
      OpeningOfBlock(src, pos);
      var start := CurPos();
      var _ := Advance(from, lag);
      var _ := Advance(from, lag);
      SkipBlock(start, from, lag);
      OneReportMore(old(errors), UnterminatedComment, start);
      assert old(errors) + [] == old(errors);
    }

    method SkipWhitespaceAndComments(ghost from: nat, ghost lag: int)
      requires CameFrom(from, lag)
      modifies this`pos, this`line, this`col, this`errors
      ensures CameFrom(from, lag) && pos == old(pos) + Skip(old(Rest()))
      ensures ReportsOf(errors) == ReportsOf(old(errors)) + SkipReports(old(Rest()), old(pos))
    {
      hide Decode, CameFrom, Skip, SkipReports, ReportsOf;
      ghost var reports := ReportsOf(errors) + SkipReports(src[pos..], pos);
      ghost var end := pos + Skip(src[pos..]);
      var more := true;
      while more
        invariant CameFrom(from, lag) && pos <= |src| && pos + Skip(src[pos..]) == end
        invariant ReportsOf(errors) + SkipReports(src[pos..], pos) == reports
        invariant !more ==> Skip(src[pos..]) == 0 && SkipReports(src[pos..], pos) == []
        decreases |src| - pos, more
      {
        more := SkipOne(from, lag);
      }
    }

    /** One round of the loop: one blank or one comment. */
    method SkipOne(ghost from: nat, ghost lag: int) returns (more: bool)
      requires CameFrom(from, lag)
      modifies this`pos, this`line, this`col, this`errors
      ensures CameFrom(from, lag) && old(pos) <= pos <= |src|
      ensures pos + Skip(Rest()) == old(pos) + Skip(old(Rest()))
      ensures ReportsOf(errors) + SkipReports(Rest(), pos) == ReportsOf(old(errors)) + SkipReports(old(Rest()), old(pos))
      ensures if more then pos > old(pos) else pos == old(pos) && Skip(Rest()) == 0 && SkipReports(Rest(), pos) == []
    {
      hide Decode, CameFrom, Skip, SkipReports, LineLength, ReportsOf;
      more := true;
      var r := Peek();
      if pos < |src| && (r == BLANK as int || r == 9 || r == 13 || r == NEWLINE as int) {
        SkipsBlank(src, pos);
        var _ := Advance(from, lag);
      } else if pos < |src| && r == HASH as int {
        SkipsLine(src, pos);
        SkipLine(from, lag);
      } else if r == SLASH as int && pos + 1 < |src| && src[pos + 1] == SLASH {
        SkipsLine(src, pos);
        SlashComment(from, lag);
      } else if r == SLASH as int && pos + 1 < |src| && src[pos + 1] == STAR {
        BlockComment(from, lag);
      } else {
        SkipsNothing(src, pos);
        more := false;
      }
    }

    // ---------- Tokens ----------

    method ReadString(start: Pos, ghost from: nat, ghost lag: int) returns (tok: Token)
      requires CameFrom(from, lag) && pos < |src| && src[pos] == QUOTE
      modifies this`pos, this`line, this`col, this`errors
      ensures CameFrom(from, lag)
      ensures var x := StringBody(src[old(pos) + 1..]);
              && tok == Token(Str, x.literal, start) && pos == old(pos) + 1 + x.size
              && errors == old(errors) + DiagnosticsAt(x.faults, start)
    {
      hide Decode, CameFrom, StringBody, BodySoFar, DiagnosticsAt;
      var _ := Advance(from, lag);
      var literal: seq<byte> := [];
      ghost var body := pos;
      BodyStarts(src, body);
      var open := true;
      while open
        invariant CameFrom(from, lag) && body <= pos <= |src|
        invariant open ==> errors == old(errors) && BodySoFar(src, body, literal, pos)
        invariant !open ==> var x := StringBody(src[body..]);
          literal == x.literal && pos == body + x.size && errors == old(errors) + DiagnosticsAt(x.faults, start)
        decreases |src| - pos, open
      {
        literal, open := ReadRune(start, literal, body, from, lag);
      }
      tok := Token(Str, literal, start);
    }

    /** One round of the string loop: `more` tells whether the string goes on. */
    method ReadRune(start: Pos, literal: seq<byte>, ghost body: nat, ghost from: nat, ghost lag: int)
      returns (read: seq<byte>, more: bool)
      requires CameFrom(from, lag) && body <= pos <= |src| && BodySoFar(src, body, literal, pos)
      modifies this`pos, this`line, this`col, this`errors
      ensures CameFrom(from, lag) && body <= old(pos) <= pos <= |src|
      ensures more ==> pos > old(pos) && errors == old(errors) && BodySoFar(src, body, read, pos)
      ensures !more ==> var x := StringBody(src[body..]);
        read == x.literal && pos == body + x.size && errors == old(errors) + DiagnosticsAt(x.faults, start)
    {
      hide Decode, CameFrom, StringBody, BodySoFar, DiagnosticsAt;
      BodyEnds(src, body, literal, pos);
      DiagnosticsOf(start);
      assert errors + [] == errors;
      if pos >= |src| {
        errors := errors + [Diagnostic(UnterminatedString, start)];
        return literal, false;
      }
      ghost var before := pos;
      var r := Advance(from, lag);
      if r == QUOTE as int {
        return literal, false;
      }
      if r == BACKSLASH as int {
        if pos >= |src| {
          errors := errors + [Diagnostic(UnterminatedEscape, start)];
          return literal, false;
        }
        BodyEscape(src, body, literal, before);
        var esc := Advance(from, lag);
        return literal + Escaped(esc), true;
      }
      BodyRune(src, body, literal, before);
      return literal + Encode(r), true;
    }

    method ReadDigits(ghost from: nat, ghost lag: int)
      requires CameFrom(from, lag)
      modifies this`pos, this`line, this`col
      ensures CameFrom(from, lag) && pos == old(pos) + DigitsLength(old(Rest()))
    {
      hide Decode, CameFrom, DigitsLength;
      ghost var start := pos;
      while pos < |src| && IsDigit(src[pos])
        invariant CameFrom(from, lag) && start <= pos <= |src|
        invariant DigitsLength(src[start..]) == pos - start + DigitsLength(src[pos..])
        decreases |src| - pos
      {
        OneDigit(src, pos);
        var _ := Advance(from, lag);
      }
      NoDigit(src, pos);
    }

    method ReadCompound(ghost from: nat, ghost lag: int)
      requires CameFrom(from, lag)
      modifies this`pos, this`line, this`col
      ensures CameFrom(from, lag) && pos == old(pos) + CompoundLength(old(Rest()))
    {
      hide Decode, CameFrom, CompoundLength;
      ghost var start := pos;
      while pos < |src| && IsDigit(src[pos])
        invariant CameFrom(from, lag) && start <= pos <= |src|
        invariant CompoundLength(src[start..]) == pos - start + CompoundLength(src[pos..])
        decreases |src| - pos
      {
        OnePart(src, pos);
        var _ := Advance(from, lag);
        if pos < |src| && IsUnit(src[pos]) {
          var _ := Advance(from, lag);
        }
      }
      NoDigit(src, pos);
    }

    /** Line and column at an offset where a rune starts, found by scanning from the beginning. */
    method RecalcLineCol(target: nat)
      requires target < |src| && src[target] < 0x80
      modifies this`line, this`col
      ensures line == LineAt(src, target) && col == ColAt(src, target)
    {
      hide Decode;
      line, col := 1, 1;
      var i := 0;
      while i < target
        invariant 0 <= i <= target && line == LineAt(src, i) && col == ColAt(src, i)
      {
        var rune := Decode(src[i..]);
        RuneNewline(src, i);
        NoRuneAcross(src, i, target);
        if rune.code == NEWLINE as int {
          line, col := line + 1, 1;
        } else {
          SameLine(src, i, i + rune.size);
          col := col + rune.size;
        }
        i := i + rune.size;
      }
    }

    /** After stepping back the cursor's column is that of the number's first digit. */
    method StepBack(numStart: nat, dStart: nat)
      requires numStart <= dStart < |src| && src[numStart] < 0x80
      requires forall k :: numStart <= k < dStart ==> IsDigit(src[k])
      modifies this`pos, this`line, this`col
      ensures Placed() && pos == dStart && Lag() == dStart - numStart
    {
      pos := dStart;
      RecalcLineCol(numStart);
      SameLine(src, numStart, dStart);
    }

    method ReadNumberOrDuration(start: Pos, ghost from: nat, ghost lag: int) returns (tok: Token)
      requires CameFrom(from, lag) && pos < |src| && IsDigit(src[pos])
      modifies this`pos, this`line, this`col
      ensures Placed()
      ensures var x := NumberAt(t, old(Rest()));
              && tok == Token(x.kind, x.literal, start) && pos == old(pos) + x.size
              && (if SteppedBack(x.kind, Rest()) then Lag() == x.size else CameFrom(from, lag))
    {
      hide Decode, CameFrom, NumberAt, CompoundLength, DigitsLength, StartsWord, LineAt, ColAt;
      var numStart := pos;
      ReadDigits(from, lag);
      NumberParts(t, src, numStart);
      if pos < |src| && IsUnit(src[pos]) {
        tok := ReadDuration(numStart, start, from, lag);
      } else if pos + 1 < |src| && src[pos] == DOT && IsDigit(src[pos + 1]) {
        UnitIsByte(src, pos);
        var _ := Advance(from, lag);
        ReadDigits(from, lag);
        tok := Token(Float, src[numStart..pos], start);
      } else {
        tok := Token(Int, src[numStart..pos], start);
      }
    }

    /** From the first unit letter on: a duration, unless a word follows it directly. */
    method ReadDuration(numStart: nat, start: Pos, ghost from: nat, ghost lag: int) returns (tok: Token)
      requires CameFrom(from, lag) && numStart <= pos < |src| && pos == numStart + DigitsLength(src[numStart..])
      requires IsDigit(src[numStart]) && IsUnit(src[pos])
      modifies this`pos, this`line, this`col
      ensures Placed()
      ensures
        var d := old(pos);
        var e := d + 1 + CompoundLength(src[d + 1..]);
        if StartsWord(t, src[e..])
        then tok == Token(Int, src[numStart..d], start) && pos == d && Lag() == d - numStart
        else tok == Token(Duration, src[numStart..e], start) && pos == e && CameFrom(from, lag)
    {
      hide Decode, CameFrom, CompoundLength, DigitsLength, IsIdentStart, LineAt, ColAt;
      var dStart := pos;
      UnitIsByte(src, pos);
      var _ := Advance(from, lag);
      ReadCompound(from, lag);
      if pos < |src| && IsIdentStart(t, Decode(src[pos..]).code) {
        DigitsAhead(src, numStart);
        StepBack(numStart, dStart);
        tok := Token(Int, src[numStart..dStart], start);
      } else {
        tok := Token(Duration, src[numStart..pos], start);
      }
    }

    method ReadIdentOrKeyword(start: Pos, ghost from: nat, ghost lag: int) returns (tok: Token)
      requires CameFrom(from, lag)
      modifies this`pos, this`line, this`col
      ensures CameFrom(from, lag)
      ensures var n := WordLength(t, old(Rest()));
              pos == old(pos) + n && tok == Token(Word, old(Rest())[..n], start)
    {
      hide Decode, CameFrom, WordLength;
      var idStart := pos;
      while pos < |src| && IsIdentContinue(t, Decode(src[pos..]).code)
        invariant CameFrom(from, lag) && idStart <= pos <= |src|
        invariant WordLength(t, src[idStart..]) == pos - idStart + WordLength(t, src[pos..])
        decreases |src| - pos
      {
        OneWordRune(t, src, pos);
        var _ := Advance(from, lag);
      }
      NoWordRune(t, src, pos);
      tok := Token(Word, src[idStart..pos], start);
    }

    /** Operators, and the report of any other character. */
    method ReadOperator(p: Pos, ghost from: nat, ghost lag: int) returns (tok: Token)
      requires CameFrom(from, lag) && pos < |src|
      requires src[pos] != QUOTE && !IsDigit(src[pos]) && !StartsWord(t, Rest())
      modifies this`pos, this`line, this`col, this`errors
      ensures CameFrom(from, lag)
      ensures var x := TokenAt(t, old(Rest()));
              && x.kind in {Operator, Illegal} && tok == Token(x.kind, x.literal, p) && pos == old(pos) + x.size
              && errors == old(errors) + DiagnosticsAt(x.faults, p)
    {
      hide Decode, Encode, CameFrom, TokenAt, DiagnosticsAt, IsSingle, IsDouble, StartsWord;
      DiagnosticsOf(p);
      assert errors + [] == errors;
      OperatorHere(t, src, pos);
      var at := pos;
      if pos + 1 < |src| && IsDouble(src[pos], src[pos + 1]) {
        var _ := Advance(from, lag);
        var _ := Advance(from, lag);
        return Token(Operator, src[at..at + 2], p);
      }
      var r := Advance(from, lag);
      if IsSingle(src[at]) {
        return Token(Operator, [src[at]], p);
      }
      errors := errors + [Diagnostic(UnexpectedCharacter, p)];
      tok := Token(Illegal, Encode(r), p);
    }

    method ReadToken(p: Pos) returns (tok: Token)
      requires Placed() && pos < |src|
      modifies this`pos, this`line, this`col, this`errors
      ensures Placed()
      ensures var x := TokenAt(t, old(Rest()));
              && tok == Token(x.kind, x.literal, p) && pos == old(pos) + x.size
              && errors == old(errors) + DiagnosticsAt(x.faults, p)
              && (if SteppedBack(x.kind, Rest()) then Lag() == x.size else CameFrom(old(pos), old(Lag())))
    {
      hide Decode, CameFrom, StringBody, NumberAt, WordLength, DiagnosticsAt, IsIdentStart, LineAt, ColAt;
      StillHere(src, pos, Lag());
      DiagnosticsOf(p);
      assert errors + [] == errors;
      ghost var from, lag := pos, Lag();
      assert CameFrom(from, lag) by { CameFromHere(this); }
      assert Rest()[1..] == src[pos + 1..];
      if src[pos] == QUOTE {
        tok := ReadString(p, from, lag);
      } else if IsDigit(src[pos]) {
        PlainNumber(t, Rest());
        tok := ReadNumberOrDuration(p, from, lag);
      } else if IsIdentStart(t, Decode(src[pos..]).code) {
        tok := ReadIdentOrKeyword(p, from, lag);
      } else {
        tok := ReadOperator(p, from, lag);
      }
    }

    method Next() returns (tok: Token)
      requires Placed()
      modifies this`pos, this`line, this`col, this`errors
      ensures Placed()
      ensures var j := old(pos) + Skip(old(Rest()));
              var lag := LagAfter(src, old(pos), j, old(Lag()));
              && tok.pos == Pos(LineAt(src, j), ColAt(src, j) - lag, j)
              && (j == |src| ==> tok.kind == Eof && tok.literal == [] && pos == j)
              && (j < |src| ==>
                    var x := ItemAt(t, src, j);
                    && tok.kind == x.kind && tok.literal == x.literal && pos == j + x.size
                    && Lag() == LagAtEnd(src, x, lag))
      ensures var j := old(pos) + Skip(old(Rest()));
              ReportsOf(errors) == ReportsOf(old(errors)) + SkipReports(old(Rest()), old(pos)) + ReportsOfToken(t, src, j)
    {
      hide Decode, TokenAt, Skip, SkipReports, LineAt, ColAt, NewlineIn, ReportsOf, ReportsAt, DiagnosticsAt;
      StillHere(src, pos, Lag());
      SkipWhitespaceAndComments(pos, Lag());
      var p := CurPos();
      if pos >= |src| {
        return Token(Eof, [], p);
      }
      ghost var before := errors;
      ghost var faults := TokenAt(t, src[pos..]).faults;
      tok := ReadToken(p);
      DiagnosticsReport(before, faults, p);
    }

    /** The tokens and the diagnostics still to come. */
    ghost function TokensAhead(): seq<Token>
      requires Placed() && InSource(src, Lex(t, Rest(), pos))
      reads this`pos, this`line, this`col
    {
      Place(src, Lex(t, Rest(), pos), pos, Lag())
    }

    ghost function ReportsAhead(): seq<Report>
      requires Placed()
      reads this`pos, this`line, this`col
    {
      Reports(t, Rest(), pos)
    }

    /** One round of the token loop: what it adds is the first of what was to come. */
    method ScanOne() returns (more: bool)
      requires Placed() && InSource(src, Lex(t, Rest(), pos))
      modifies this
      ensures Placed()
      ensures pos >= old(pos) && (more ==> pos > old(pos) && InSource(src, Lex(t, Rest(), pos)))
      ensures tokens + (if more then TokensAhead() else []) == old(tokens) + old(TokensAhead())
      ensures ReportsOf(errors) + (if more then ReportsAhead() else []) == ReportsOf(old(errors)) + old(ReportsAhead())
    {
      hide Decode, TokenAt, Lex, Skip, SkipReports, Reports, ReportsOf, ReportsOfToken, LineAt, ColAt, LagAfter, LagAtEnd, InSource, Place;
      PlaceNext(t, src, pos, Lag());
      ReportNext(t, src, pos);
      var tok := Next();
      tokens := tokens + [tok];
      more := tok.kind != Eof;
    }

    /** All tokens with their places, and all diagnostics; a column falls short by what `Place` says. */
    method Tokenize()
      requires Placed() && pos == 0 && Lag() == 0 && tokens == [] && errors == []
      modifies this
      ensures InSource(src, Lex(t, src, 0)) && tokens == Place(src, Lex(t, src, 0), 0, 0)
      ensures ReportsOf(errors) == Reports(t, src, 0)
    {
      hide Decode, Lex, Reports, ReportsOf, LineAt, ColAt, LagAfter, InSource, Place;
      WholeText(t, src);
      ghost var all, reports := TokensAhead(), ReportsAhead();
      var more := true;
      while more
        invariant Placed() && (more ==> InSource(src, Lex(t, Rest(), pos)))
        invariant tokens + (if more then TokensAhead() else []) == all
        invariant ReportsOf(errors) + (if more then ReportsAhead() else []) == reports
        decreases |src| - pos, more
      {
        more := ScanOne();
      }
    }
  }

  /** How far short the column falls at the end of a token. */
  function LagAtEnd(src: seq<byte>, x: Item, lag: int): int
    requires x.offset + x.size <= |src|
  {
    var e := x.offset + x.size;
    if SteppedBack(x.kind, src[e..]) then x.size else LagAfter(src, x.offset, e, lag)
  }

  ghost predicate InSource(src: seq<byte>, items: seq<Item>) {
    forall x :: x in items ==> x.offset + x.size <= |src|
  }

  /** The tokens' places, where at `from` the column fell short by `lag`. */
  function Place(src: seq<byte>, items: seq<Item>, from: nat, lag: int): (tokens: seq<Token>)
    requires InSource(src, items)
    ensures |tokens| == |items|
  {
    if items == [] then []
    else
      var x := items[0];
      var here := LagAfter(src, from, x.offset, lag);
      [Token(x.kind, x.literal, Pos(LineAt(src, x.offset), ColAt(src, x.offset) - here, x.offset))]
      + Place(src, items[1..], x.offset + x.size, LagAtEnd(src, x, here))
  }

  lemma WholeText(t: Tables, src: seq<byte>)
    ensures InSource(src, Lex(t, src, 0)) && src[0..] == src && ReportsOf([]) == []
  {
    assert src[0..] == src;
    TokensAreTheirText(t, src, 0);
  }

  lemma PlaceNext(t: Tables, src: seq<byte>, from: nat, lag: int)
    requires from <= |src| && InSource(src, Lex(t, src[from..], from))
    ensures
      var j := from + Skip(src[from..]);
      var here := LagAfter(src, from, j, lag);
      var p := Pos(LineAt(src, j), ColAt(src, j) - here, j);
      if j == |src| then Place(src, Lex(t, src[from..], from), from, lag) == [Token(Eof, [], p)]
      else
        var x := ItemAt(t, src, j);
        var e := j + x.size;
        && x.kind != Eof && e <= |src| && InSource(src, Lex(t, src[e..], e))
        && Place(src, Lex(t, src[from..], from), from, lag)
           == [Token(x.kind, x.literal, p)] + Place(src, Lex(t, src[e..], e), e, LagAtEnd(src, x, here))
  {
    hide Lex, Skip, LagAtEnd, LagAfter, LineAt, ColAt, IsItsText, ItemAt;
    var n := Skip(src[from..]);
    if from + n == |src| {
      LastItem(t, src, from);
    } else {
      var j := from + n;
      LexOnce(t, src, from, n);
      ItemIsItsText(t, src, j);
      var e := j + ItemAt(t, src, j).size;
      var items := Lex(t, src[from..], from);
      assert items[1..] == Lex(t, src[e..], e);
      assert forall y :: y in items[1..] ==> y in items;
    }
  }

  lemma ReportNext(t: Tables, src: seq<byte>, from: nat)
    requires from <= |src|
    ensures
      var j := from + Skip(src[from..]);
      var first := SkipReports(src[from..], from) + ReportsOfToken(t, src, j);
      Reports(t, src[from..], from)
      == if j == |src| then first else first + Reports(t, src[j + ItemAt(t, src, j).size..], j + ItemAt(t, src, j).size)
  {
    hide Skip, SkipReports, TokenAt, ReportsAt;
    var j := from + Skip(src[from..]);
    assert src[from..][Skip(src[from..])..] == src[j..];
    if j < |src| {
      var k := ItemAt(t, src, j).size;
      assert src[j..][k..] == src[j + k..];
    }
  }

  function ReportsOfToken(t: Tables, src: seq<byte>, j: nat): seq<Report>
    requires j <= |src|
  {
    if j == |src| then [] else ReportsAt(TokenAt(t, src[j..]).faults, j)
  }

  lemma StillHere(src: seq<byte>, i: nat, lag: int)
    requires i <= |src|
    ensures LagAfter(src, i, i, lag) == lag
  {
  }

  lemma CameFromHere(l: Lexer)
    requires l.Placed()
    ensures l.CameFrom(l.pos, l.Lag())
  {
  }

  function DiagnosticsAt(faults: seq<Fault>, p: Pos): seq<Diagnostic> {
    if faults == [] then [] else [Diagnostic(faults[0], p)] + DiagnosticsAt(faults[1..], p)
  }

  lemma DiagnosticsOf(p: Pos)
    ensures DiagnosticsAt([], p) == [] && forall f :: DiagnosticsAt([f], p) == [Diagnostic(f, p)]
  {
  }

  lemma {:induction false} DiagnosticsReport(before: seq<Diagnostic>, faults: seq<Fault>, p: Pos)
    ensures ReportsOf(before + DiagnosticsAt(faults, p)) == ReportsOf(before) + ReportsAt(faults, p.offset)
    decreases |faults|
  {
    if faults == [] {
      assert before + [] == before;
    } else {
      DiagnosticsReport(before + [Diagnostic(faults[0], p)], faults[1..], p);
      assert before + DiagnosticsAt(faults, p) == before + [Diagnostic(faults[0], p)] + DiagnosticsAt(faults[1..], p);
    }
  }

  lemma OneReportMore(before: seq<Diagnostic>, fault: Fault, p: Pos)
    ensures ReportsOf(before + [Diagnostic(fault, p)]) == ReportsOf(before) + [Report(fault, p.offset)]
  {
  }
}
