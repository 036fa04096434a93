/**
  When the parser never returns. Its only loop that may not end is the one over a list, after `tags`, or after
  `must_have [` or `must_not_have [`; whether it ends is decided by the first list that is reached.
*/
module BlockHangs {
  import opened Wrappers
  import ConditionParser
  import opened BlockGrammar
  import opened BlockTheorems

  /** The clause of `key` is a list, bracketed or not. */
  predicate IsListClause(b: Block, key: Token, rest: seq<Token>) {
    FormOf(b, key).List? || (FormOf(b, key).ListOrText? && Next(rest, LBracket))
  }

  lemma ListClause(b: Block, key: Token, rest: seq<Token>)
    requires IsListClause(b, key, rest)
    ensures !Ended(b, [key] + rest)
    ensures ParseClause(b, [key] + rest).hangs <==> !FlatList(rest)
    ensures Suffix(ParseClause(b, [key] + rest).rest, rest)
  {
    hide FormOf, ConditionParser.StringsAndCommas, ConditionParser.ParseElements, AsCondition;
    assert ([key] + rest)[1..] == rest;
    if Closes(b, key) {
      ClosingIsNoClause(b, key);
    }
  }

  /** A list reached after clauses without a report decides, if the lists behind it are flat. */
  lemma ListDecides(b: Block, xs: seq<Item>, key: Token, rest: seq<Token>)
    requires Grammatical(b, xs, [key] + rest) && IsListClause(b, key, rest) && ListsAreFlat(rest)
    ensures var r := ParseItems(b, PrintAll(xs) + ([key] + rest)); (r.hangs <==> !FlatList(rest)) && ListsAreFlat(r.rest)
  {
    hide Grammatical, PrintAll, ParseItems, ParseClause, FlatList, ListsAreFlat, IsListClause, Suffix;
    var ts := [key] + rest;
    var one := ParseClause(b, ts);
    PrintedItems(b, xs, ts);
    ListClause(b, key, rest);
    ItemsStep(b, ts);
    SuffixIsFlat(one.rest, rest);
    NeverHangs(b, one.rest);
    SuffixIsFlat(ParseItems(b, one.rest).rest, one.rest);
  }

  // ---------- Blocks still open ----------

  /** A block or loop that has been opened after some clauses of the block around it. */
  datatype Frame =
    | InSection(before: seq<Item>, key: Token, block: Block, head: seq<Token>)
    | InLoop(before: seq<Item>, head: seq<Token>, source: Item, block: Block)

  function FrameText(f: Frame): seq<Token> {
    match f
    case InSection(_, key, _, head) => [key] + head
    case InLoop(_, head, source, _) => [Key(For)] + (head + (Print(source) + [LBrace]))
  }

  function OpenText(frames: seq<Frame>, after: seq<Token>): seq<Token> {
    if frames == [] then after
    else PrintAll(frames[0].before) + (FrameText(frames[0]) + OpenText(frames[1..], after))
  }

  ghost predicate FrameOk(b: Block, f: Frame, after: seq<Token>) {
    && Grammatical(b, f.before, FrameText(f) + after)
    && match f
       case InSection(_, key, block, head) => FormOf(b, key) == Sub(block) && HeadOk(key, head)
       case InLoop(_, head, source, block) =>
         && FormOf(b, Key(For)) == Each(block) && |head| == 2 && NameLike(head[0]) && head[1] == Key(In)
         && SourceOk(source, [LBrace] + after)
  }

  ghost predicate FramesOk(b: Block, frames: seq<Frame>, after: seq<Token>)
    decreases |frames|
  {
    frames == [] || (FrameOk(b, frames[0], OpenText(frames[1..], after)) && FramesOk(frames[0].block, frames[1..], after))
  }

  function Innermost(b: Block, frames: seq<Frame>): Block {
    if frames == [] then b else frames[|frames| - 1].block
  }

  /** What opening a block hands over to the block's own loop. */
  lemma FrameOpens(b: Block, f: Frame, after: seq<Token>)
    requires FrameOk(b, f, after)
    ensures
      var ts := FrameText(f) + after;
      var inner := ParseItems(f.block, after);
      && !Ended(b, ts)
      && ParseClause(b, ts).hangs == inner.hangs && Suffix(ParseClause(b, ts).rest, inner.rest)
  {
    if f.InSection? {
      SectionOpens(b, f, after);
    } else {
      LoopOpens(b, f, after);
    }
  }

  lemma SectionOpens(b: Block, f: Frame, after: seq<Token>)
    requires FrameOk(b, f, after) && f.InSection?
    ensures
      var ts := FrameText(f) + after;
      var inner := ParseItems(f.block, after);
      !Ended(b, ts) && ParseClause(b, ts).hangs == inner.hangs && Suffix(ParseClause(b, ts).rest, inner.rest)
  {
    hide FormOf, HeadOk, TakeHead, ParseItems, Grammatical, Sound, Suffix;
    var ts := FrameText(f) + after;
    assert ts[0] == f.key && ts[1..] == f.head + after;
    HeadTakes(f.key, f.head, after);
    if Closes(b, f.key) {
      ClosingIsNoClause(b, f.key);
    }
  }

  lemma LoopReachesBody(block: Block, head: seq<Token>, source: Item, body: seq<Token>)
    requires |head| == 2 && NameLike(head[0]) && head[1] == Key(In) && SourceOk(source, body)
    ensures
      var r, inner := ParseFor(block, head + (Print(source) + body)), ParseForBody(block, head, source, body);
      r.hangs == inner.hangs && r.rest == inner.rest
  {
    hide Take, Fits, ParseSource, ParseForBody, SourceOk, Print, Sound, Suffix;
    TwoSlots(ForHead[0], ForHead[1], head, Print(source) + body);
    TakeFits(ForHead, head, Print(source) + body);
    PrintedSource(source, body);
  }

  lemma LoopBodyOpens(block: Block, head: seq<Token>, source: Item, after: seq<Token>)
    ensures
      var r, inner := ParseForBody(block, head, source, [LBrace] + after), ParseItems(block, after);
      r.hangs == inner.hangs && Suffix(r.rest, inner.rest)
  {
    hide Take, Fits, ParseItems, Sound, Suffix;
    OneSlot(Need(Exactly(LBrace)), [LBrace], after);
    TakeFits(OpenBrace, [LBrace], after);
  }

  lemma LoopOpens(b: Block, f: Frame, after: seq<Token>)
    requires FrameOk(b, f, after) && f.InLoop?
    ensures
      var ts := FrameText(f) + after;
      var inner := ParseItems(f.block, after);
      !Ended(b, ts) && ParseClause(b, ts).hangs == inner.hangs && Suffix(ParseClause(b, ts).rest, inner.rest)
  {
    hide FormOf, ParseItems, ParseClause, ParseFor, ParseForBody, Grammatical, SourceOk, Print, Sound, Suffix, Ended;
    LoopText(f, after);
    ForClause(b, f.block, f.head + (Print(f.source) + ([LBrace] + after)));
    LoopReachesBody(f.block, f.head, f.source, [LBrace] + after);
    LoopBodyOpens(f.block, f.head, f.source, after);
  }

  lemma LoopText(f: Frame, after: seq<Token>)
    requires f.InLoop?
    ensures FrameText(f) + after == [Key(For)] + (f.head + (Print(f.source) + ([LBrace] + after)))
  {
    hide Print;
  }

  lemma ForClause(b: Block, block: Block, rest: seq<Token>)
    requires FormOf(b, Key(For)) == Each(block)
    ensures !Ended(b, [Key(For)] + rest) && ParseClause(b, [Key(For)] + rest) == ParseFor(block, rest)
  {
    hide FormOf, ParseFor, Sound, Suffix;
    assert ([Key(For)] + rest)[1..] == rest;
    if Closes(b, Key(For)) {
      ClosingIsNoClause(b, Key(For));
    }
  }

  predicate HangsWith(b: Block, ts: seq<Token>, inner: Block, after: seq<Token>) {
    var r := ParseItems(b, ts);
    (r.hangs <==> ParseItems(inner, after).hangs) && ListsAreFlat(r.rest)
  }

  lemma OpenBlockHangsIff(b: Block, f: Frame, after: seq<Token>)
    requires FrameOk(b, f, after) && ListsAreFlat(ParseItems(f.block, after).rest)
    ensures HangsWith(b, PrintAll(f.before) + (FrameText(f) + after), f.block, after)
  {
    var ts := FrameText(f) + after;
    hide FrameOk, FrameText, PrintAll, ParseItems, ParseClause, ListsAreFlat, Suffix, Ended;
    FrameOpens(b, f, after);
    var one := ParseClause(b, ts);
    SuffixIsFlat(one.rest, ParseItems(f.block, after).rest);
    NeverHangs(b, one.rest);
    SuffixIsFlat(ParseItems(b, one.rest).rest, one.rest);
    ItemsStep(b, ts);
    FrameBefore(b, f, after);
    PrintedItems(b, f.before, ts);
  }

  lemma {:induction false} OpenBlocksHangIff(b: Block, frames: seq<Frame>, after: seq<Token>)
    requires FramesOk(b, frames, after) && ListsAreFlat(ParseItems(Innermost(b, frames), after).rest)
    ensures HangsWith(b, OpenText(frames, after), Innermost(b, frames), after)
    decreases |frames|
  {
    hide FrameOk, FrameText, PrintAll, ParseItems, ListsAreFlat, Grammatical;
    if frames != [] {
      OpenBlocksHangIff(frames[0].block, frames[1..], after);
      OpenBlockHangsIff(b, frames[0], OpenText(frames[1..], after));
    }
  }

  lemma FrameBefore(b: Block, f: Frame, after: seq<Token>)
    requires FrameOk(b, f, after)
    ensures Grammatical(b, f.before, FrameText(f) + after)
  {
  }

  lemma HungClauseHangs(b: Block, xs: seq<Item>, ts: seq<Token>)
    requires Grammatical(b, xs, ts) && !Ended(b, ts) && ParseClause(b, ts).hangs
    ensures ParseItems(b, PrintAll(xs) + ts).hangs
  {
    hide Grammatical, PrintAll, ParseItems, ParseClause, Ended;
    PrintedItems(b, xs, ts);
    ItemsStep(b, ts);
  }

  lemma {:induction false} HungInsideHangs(b: Block, frames: seq<Frame>, after: seq<Token>)
    requires FramesOk(b, frames, after) && ParseItems(Innermost(b, frames), after).hangs
    ensures ParseItems(b, OpenText(frames, after)).hangs
    decreases |frames|
  {
    hide FrameOk, FrameText, PrintAll, ParseItems, ParseClause, Grammatical, Ended;
    if frames != [] {
      var f, inner := frames[0], OpenText(frames[1..], after);
      HungInsideHangs(f.block, frames[1..], after);
      FrameOpens(b, f, inner);
      FrameBefore(b, f, inner);
      HungClauseHangs(b, f.before, FrameText(f) + inner);
    }
  }

  /** After any text without a report, however deep in blocks and loops: a list that is not flat is never left. */
  lemma NonFlatListHangs(frames: seq<Frame>, xs: seq<Item>, key: Token, rest: seq<Token>)
    requires FramesOk(Script, frames, PrintAll(xs) + ([key] + rest))
    requires Grammatical(Innermost(Script, frames), xs, [key] + rest)
    requires IsListClause(Innermost(Script, frames), key, rest) && !FlatList(rest)
    ensures ParseItems(Script, OpenText(frames, PrintAll(xs) + ([key] + rest))).hangs
  {
    hide FramesOk, Grammatical, PrintAll, ParseItems, ParseClause, FlatList, IsListClause, OpenText, Ended;
    var inner := Innermost(Script, frames);
    ListClause(inner, key, rest);
    HungClauseHangs(inner, xs, [key] + rest);
    HungInsideHangs(Script, frames, PrintAll(xs) + ([key] + rest));
  }

  /**
    If all the lists behind it are flat, the first list that is reached decides: the parser never returns exactly when
    this one is not flat.
  */
  lemma ScriptHangsIff(frames: seq<Frame>, xs: seq<Item>, key: Token, rest: seq<Token>)
    requires FramesOk(Script, frames, PrintAll(xs) + ([key] + rest))
    requires Grammatical(Innermost(Script, frames), xs, [key] + rest)
    requires IsListClause(Innermost(Script, frames), key, rest) && ListsAreFlat(rest)
    ensures ParseItems(Script, OpenText(frames, PrintAll(xs) + ([key] + rest))).hangs <==> !FlatList(rest)
  {
    hide FramesOk, Grammatical, PrintAll, ParseItems, FlatList, ListsAreFlat, IsListClause, OpenText;
    ListDecides(Innermost(Script, frames), xs, key, rest);
    OpenBlocksHangIff(Script, frames, PrintAll(xs) + ([key] + rest));
  }

  /** Only these three words can make the parser hang. */
  lemma OnlyListsCanHang(b: Block, ts: seq<Token>)
    requires ParseItems(b, ts).hangs
    ensures exists k :: 0 <= k < |ts| && ts[k] in {Key(Tags), Key(MustHave), Key(MustNotHave)} && !FlatList(ts[k + 1..])
  {
    hide ParseItems, FlatList;
    if ListsAreFlat(ts) {
      NeverHangs(b, ts);
    } else {
      var k := SomeListIsNotFlat(ts);
      assert !FlatList(ts[k + 1..]);
    }
  }

  lemma {:induction false} SomeListIsNotFlat(ts: seq<Token>) returns (k: nat)
    requires !ListsAreFlat(ts)
    ensures k < |ts| && ts[k] in {Key(Tags), Key(MustHave), Key(MustNotHave)} && !FlatList(ts[k + 1..])
    decreases |ts|
  {
    hide FlatList;
    if ListsAreFlat(ts[1..]) {
      k := 0;
    } else {
      k := SomeListIsNotFlat(ts[1..]);
      k := k + 1;
      assert ts[1..][k..] == ts[k + 1..];
    }
  }
}
