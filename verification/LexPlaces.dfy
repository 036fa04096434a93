/**
  The places of the tokens. Offsets and lines are exact. A column is exact until the lexer steps back from a duration;
  then it falls short by the length of the number it stepped back to, until the next newline or the next step back.
*/
module LexPlaces {
  import opened Utf8
  import opened Lexemes
  import opened LexSteps
  import opened LexTheorems
  import opened Lexer

  // ---------- Where the columns are wrong, and by how much ----------

  /** The lexer stepped back to the end of this token. */
  predicate StepsBack(src: seq<byte>, x: Item)
    requires x.offset + x.size <= |src|
  {
    SteppedBack(x.kind, src[x.offset + x.size..])
  }

  ghost predicate NoStepBack(src: seq<byte>, items: seq<Item>, a: nat, b: nat)
    requires InSource(src, items) && b <= |items|
  {
    forall j :: a <= j < b ==> !StepsBack(src, items[j])
  }

  /** By how much the column of token `k` falls short. */
  function Shortfall(src: seq<byte>, items: seq<Item>, from: nat, lag: int, k: nat): int
    requires InSource(src, items) && k < |items|
  {
    ColAt(src, items[k].offset) - Place(src, items, from, lag)[k].pos.col
  }

  lemma {:induction false} PlacedTokens(src: seq<byte>, items: seq<Item>, from: nat, lag: int, k: nat)
    requires InSource(src, items) && k < |items|
    ensures
      var tok := Place(src, items, from, lag)[k];
      && tok.kind == items[k].kind && tok.literal == items[k].literal
      && tok.pos.offset == items[k].offset && tok.pos.line == LineAt(src, items[k].offset)
    decreases |items|
  {
    hide LineAt, ColAt, LagAfter, LagAtEnd;
    if k > 0 {
      var here := LagAfter(src, from, items[0].offset, lag);
      PlacedTokens(src, items[1..], items[0].offset + items[0].size, LagAtEnd(src, items[0], here), k - 1);
    }
  }

  lemma ShortfallShifts(src: seq<byte>, items: seq<Item>, from: nat, lag: int, k: nat)
    requires InSource(src, items) && 0 < k < |items|
    ensures Shortfall(src, items, from, lag, k)
            == Shortfall(src, items[1..], items[0].offset + items[0].size,
                         LagAtEnd(src, items[0], LagAfter(src, from, items[0].offset, lag)), k - 1)
  {
    hide LineAt, ColAt, LagAfter, LagAtEnd;
  }

  lemma TailInOrder(items: seq<Item>, from: nat, end: nat)
    requires InOrder(items, from, end) && |items| > 1
    ensures InOrder(items[1..], items[0].offset + items[0].size, end)
  {
    var tail := items[1..];
    assert forall k :: 0 <= k < |tail| ==> tail[k] == items[k + 1];
    assert items[1].offset >= items[0].offset + items[0].size;
    OffsetsGrow(items, from, end);
  }

  lemma OffsetsGrow(items: seq<Item>, from: nat, end: nat)
    requires InOrder(items, from, end)
    ensures forall j, k :: 0 <= j < k < |items| ==> items[j].offset + items[j].size <= items[k].offset
  {
    forall j, k | 0 <= j < k < |items|
      ensures items[j].offset + items[j].size <= items[k].offset
    {
      OffsetGrows(items, from, end, j, k);
    }
  }

  lemma {:induction false} OffsetGrows(items: seq<Item>, from: nat, end: nat, j: nat, k: nat)
    requires InOrder(items, from, end) && j < k < |items|
    ensures items[j].offset + items[j].size <= items[k].offset
    decreases k
  {
    if k > j + 1 {
      OffsetGrows(items, from, end, j, k - 1);
    }
  }

  lemma TailStepsBack(src: seq<byte>, items: seq<Item>, a: nat, b: nat)
    requires InSource(src, items) && 0 < a <= b <= |items|
    ensures InSource(src, items[1..])
    ensures NoStepBack(src, items, a, b) ==> NoStepBack(src, items[1..], a - 1, b - 1)
    ensures a < |items| ==> items[1..][a - 1] == items[a]
  {
    hide StepsBack;
    assert forall i :: 0 <= i < |items| - 1 ==> items[1..][i] == items[i + 1];
    assert forall x :: x in items[1..] ==> x in items;
  }

  /** Over a token that is not stepped back to, the shortfall only changes at a newline. */
  lemma LagOverToken(src: seq<byte>, x: Item, from: nat, lag: int, to: nat)
    requires from <= x.offset <= x.offset + x.size <= to <= |src| && !StepsBack(src, x)
    ensures var e := x.offset + x.size;
            LagAfter(src, e, to, LagAtEnd(src, x, LagAfter(src, from, x.offset, lag))) == LagAfter(src, from, to, lag)
  {
    hide LagAfter;
    var e := x.offset + x.size;
    LagJoins(src, from, x.offset, e, lag);
    LagJoins(src, from, e, to, lag);
  }

  lemma {:induction false} ShortfallWithoutStepBack(src: seq<byte>, items: seq<Item>, from: nat, lag: int, k: nat)
    requires InSource(src, items) && InOrder(items, from, |src|) && k < |items| && NoStepBack(src, items, 0, k)
    ensures Shortfall(src, items, from, lag, k) == LagAfter(src, from, items[k].offset, lag)
    decreases |items|
  {
    hide *;
    if k == 0 {
      FirstShortfall(src, items, from, lag);
    } else {
      var x := items[0];
      FirstOfMany(src, items, from, k);
      ShortfallShifts(src, items, from, lag, k);
      LagOverToken(src, x, from, lag, items[k].offset);
      TailStepsBack(src, items, 1, k);
      TailInOrder(items, from, |src|);
      var end := LagAtEnd(src, x, LagAfter(src, from, x.offset, lag));
      ShortfallWithoutStepBack(src, items[1..], x.offset + x.size, end, k - 1);
    }
  }

  lemma FirstOfMany(src: seq<byte>, items: seq<Item>, from: nat, k: nat)
    requires InSource(src, items) && InOrder(items, from, |src|) && 0 < k < |items|
    ensures from <= items[0].offset && items[0].offset + items[0].size <= items[k].offset <= |src|
    ensures items[0].offset + items[0].size <= |src| && items[1..][k - 1] == items[k]
    ensures NoStepBack(src, items, 0, k) ==> !StepsBack(src, items[0]) && NoStepBack(src, items, 1, k)
  {
    hide StepsBack;
    OffsetGrows(items, from, |src|, 0, k);
  }

  lemma FirstShortfall(src: seq<byte>, items: seq<Item>, from: nat, lag: int)
    requires InSource(src, items) && items != []
    ensures Shortfall(src, items, from, lag, 0) == LagAfter(src, from, items[0].offset, lag)
  {
    hide LagAfter, LagAtEnd, LineAt, ColAt;
  }

  /** After a step back, until the next one, a column falls short by the length of the number, up to the next newline. */
  lemma {:induction false} ShortfallAfterStepBack(src: seq<byte>, items: seq<Item>, from: nat, lag: int, j: nat, k: nat)
    requires InSource(src, items) && InOrder(items, from, |src|)
    requires j < k < |items| && StepsBack(src, items[j]) && NoStepBack(src, items, j + 1, k)
    ensures Shortfall(src, items, from, lag, k)
            == LagAfter(src, items[j].offset + items[j].size, items[k].offset, items[j].size)
    decreases |items|
  {
    hide Shortfall, LagAfter, Place, NoStepBack, InOrder, InSource;
    var x := items[0];
    FirstOfMany(src, items, from, k);
    var end := LagAtEnd(src, x, LagAfter(src, from, x.offset, lag));
    ShortfallShifts(src, items, from, lag, k);
    TailInOrder(items, from, |src|);
    TailStepsBack(src, items, j + 1, k);
    assert items[1..][k - 1] == items[k];
    if j == 0 {
      ShortfallWithoutStepBack(src, items[1..], x.offset + x.size, end, k - 1);
    } else {
      assert items[1..][j - 1] == items[j];
      ShortfallAfterStepBack(src, items[1..], x.offset + x.size, end, j - 1, k - 1);
    }
  }

  /** The places `Tokenize` gives: exact offsets and lines, and columns short by the latest number stepped back to. */
  lemma TokenPlaces(t: Tables, src: seq<byte>, k: nat)
    requires k < |Lex(t, src, 0)|
    ensures InSource(src, Lex(t, src, 0)) && |Place(src, Lex(t, src, 0), 0, 0)| == |Lex(t, src, 0)|
    ensures
      var items := Lex(t, src, 0);
      var tok := Place(src, items, 0, 0)[k];
      && tok.kind == items[k].kind && tok.literal == items[k].literal
      && tok.pos.offset == items[k].offset && tok.pos.line == LineAt(src, items[k].offset)
      && (NoStepBack(src, items, 0, k) ==> tok.pos.col == ColAt(src, items[k].offset))
      && (forall j: nat :: j < k && StepsBack(src, items[j]) && NoStepBack(src, items, j + 1, k) ==>
            tok.pos.col == ColAt(src, items[k].offset)
                           - (if NewlineIn(src, items[j].offset + items[j].size, items[k].offset) then 0 else items[j].size))
  {
    hide Lex, LineAt, ColAt, InSource, InOrder, NoStepBack, StepsBack, Place;
    var items := Lex(t, src, 0);
    WholeText(t, src);
    TokensAreInOrder(t, src, 0);
    PlacedTokens(src, items, 0, 0, k);
    if NoStepBack(src, items, 0, k) {
      ShortfallWithoutStepBack(src, items, 0, 0, k);
    }
    forall j: nat | j < k && StepsBack(src, items[j]) && NoStepBack(src, items, j + 1, k)
      ensures Shortfall(src, items, 0, 0, k) == LagAfter(src, items[j].offset + items[j].size, items[k].offset, items[j].size)
    {
      ShortfallAfterStepBack(src, items, 0, 0, j, k);
    }
  }
}
