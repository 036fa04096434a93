/**
  The parser's cursor, its condition grammar and its string lists. A parse is described as a function of the
  tokens that remain; the class below runs the same parse with a cursor, as the program does.
*/
module ConditionParser {
  import opened Wrappers
  import opened Conditions

  /** The end of the stream is the end of the sequence; a token of any other kind is `Other`. */
  datatype Token =
    | TokHasBadge | TokNotHasBadge | TokHasTag | TokNotHasTag
    | TokAnd | TokOr | TokNot | TokLBrace | TokRBrace
    | TokLBracket | TokRBracket | TokComma | TokString(literal: string) | Other

  /** What a parse returns: the node, the tokens left, and the number of diagnostics it reported. */
  datatype Parsed<T> = Parsed(value: T, rest: seq<Token>, errs: nat)

  predicate Next(ts: seq<Token>, t: Token) {
    ts != [] && ts[0] == t
  }

  /** Reports a mismatch without moving, and yields the empty literal. */
  function ExpectString(ts: seq<Token>): (r: Parsed<string>)
    ensures |r.rest| <= |ts|
  {
    if ts != [] && ts[0].TokString? then Parsed(ts[0].literal, ts[1..], 0) else Parsed("", ts, 1)
  }

  function Expect(ts: seq<Token>, t: Token): (r: Parsed<bool>)
    ensures |r.rest| <= |ts|
  {
    if Next(ts, t) then Parsed(true, ts[1..], 0) else Parsed(false, ts, 1)
  }

  function ParseCond(ts: seq<Token>): (r: Parsed<Option<Cond>>)
    ensures |r.rest| <= |ts| && (ts != [] ==> |r.rest| < |ts|)
    ensures r.value.None? ==> r.errs > 0
    decreases |ts|, 2
  {
    var head := ParseHead(ts);
    if head.value.None? then head else Chain(head.value.value, head.rest, head.errs, |ts|)
  }

  /** A leaf, a block, or a negation. An unexpected token is reported and skipped. */
  function ParseHead(ts: seq<Token>): (r: Parsed<Option<Cond>>)
    ensures |r.rest| <= |ts| && (ts != [] ==> |r.rest| < |ts|)
    ensures ts == [] ==> r.value.None?
    ensures r.value.None? ==> r.errs > 0
    decreases |ts|, 1
  {
    if ts == [] then Parsed(None, ts, 1)
    else
      match ts[0]
      case TokHasBadge => var s := ExpectString(ts[1..]); Parsed(Some(HasBadge(s.value)), s.rest, s.errs)
      case TokNotHasBadge => var s := ExpectString(ts[1..]); Parsed(Some(NotHasBadge(s.value)), s.rest, s.errs)
      case TokHasTag => var s := ExpectString(ts[1..]); Parsed(Some(HasTag(s.value)), s.rest, s.errs)
      case TokNotHasTag => var s := ExpectString(ts[1..]); Parsed(Some(NotHasTag(s.value)), s.rest, s.errs)
      case TokAnd => var b := ParseBlock(ts[1..]); Parsed(Some(And(b.value)), b.rest, b.errs)
      case TokOr => var b := ParseBlock(ts[1..]); Parsed(Some(Or(b.value)), b.rest, b.errs)
      case TokNot => var c := ParseCond(ts[1..]); Parsed(Some(Not(OptSeq(c.value))), c.rest, c.errs)
      case _ => Parsed(None, ts[1..], 1)
  }

  function OptSeq(c: Option<Cond>): seq<Cond> {
    if c.Some? then [c.value] else []
  }

  function ParseBlock(ts: seq<Token>): (r: Parsed<seq<Cond>>)
    ensures |r.rest| <= |ts|
    decreases |ts|, 4
  {
    if Next(ts, TokLBrace) then
      var kids := ParseKids(ts[1..]);
      var close := Expect(kids.rest, TokRBrace);
      Parsed(kids.value, close.rest, kids.errs + close.errs)
    else Parsed([], ts, 0)
  }

  function ParseKids(ts: seq<Token>): (r: Parsed<seq<Cond>>)
    ensures |r.rest| <= |ts|
    decreases |ts|, 3
  {
    if ts == [] || Next(ts, TokRBrace) then Parsed([], ts, 0)
    else
      var c := ParseCond(ts);
      var more := ParseKids(c.rest);
      Parsed(OptSeq(c.value) + more.value, more.rest, c.errs + more.errs)
  }

  /** A following `and` or `or` of the other kind takes everything parsed so far as its first operand. */
  function Chain(node: Cond, ts: seq<Token>, errs: nat, bound: nat): (r: Parsed<Option<Cond>>)
    requires |ts| < bound
    ensures |r.rest| <= |ts| && r.value.Some? && r.errs >= errs
    decreases bound, 0
  {
    if Next(ts, TokAnd) && !node.And? then
      var right := ParseCond(ts[1..]);
      Parsed(Some(And([node] + OptSeq(right.value))), right.rest, errs + right.errs)
    else if Next(ts, TokOr) && !node.Or? then
      var right := ParseCond(ts[1..]);
      Parsed(Some(Or([node] + OptSeq(right.value))), right.rest, errs + right.errs)
    else Parsed(Some(node), ts, errs)
  }

  /** What the first child contributes to a block's children. */
  lemma KidsUnfold(ts: seq<Token>)
    requires ts != [] && ts[0] != TokRBrace
    ensures var first := ParseCond(ts);
            var more := ParseKids(first.rest);
            ParseKids(ts) == Parsed(OptSeq(first.value) + more.value, more.rest, first.errs + more.errs)
  {
  }

  lemma KidsEnd(ts: seq<Token>)
    requires ts == [] || ts[0] == TokRBrace
    ensures ParseKids(ts) == Parsed([], ts, 0)
  {
  }

  // ---------- Printing, and when it can be read back ----------

  function Print(c: Cond): (ts: seq<Token>)
    ensures ts != []
    decreases c, 0
  {
    match c
    case HasBadge(n) => [TokHasBadge, TokString(n)]
    case NotHasBadge(n) => [TokNotHasBadge, TokString(n)]
    case HasTag(n) => [TokHasTag, TokString(n)]
    case NotHasTag(n) => [TokNotHasTag, TokString(n)]
    case And(cs) => [TokAnd, TokLBrace] + PrintAll(cs) + [TokRBrace]
    case Or(cs) => [TokOr, TokLBrace] + PrintAll(cs) + [TokRBrace]
    case Not(cs) => if cs == [] then [TokNot] else [TokNot] + Print(cs[0])
  }

  function PrintAll(cs: seq<Cond>): seq<Token>
    decreases cs, 0
  {
    if cs == [] then [] else Print(cs[0]) + PrintAll(cs[1..])
  }

  /** Parsing `c` would go on at token `t` instead of stopping before it. */
  predicate Continues(c: Cond, t: Token)
    decreases c
  {
    || (t == TokAnd && !c.And?)
    || (t == TokOr && !c.Or?)
    || (c.Not? && c.children != [] && Continues(c.children[0], t))
  }

  predicate StopsBefore(c: Cond, ts: seq<Token>) {
    ts == [] || !Continues(c, ts[0])
  }

  /** Every negation negates one condition, and no child of a block runs on into its next sibling. */
  predicate Readable(c: Cond)
    decreases c, 0
  {
    match c
    case And(cs) => ReadableAll(cs)
    case Or(cs) => ReadableAll(cs)
    case Not(cs) => |cs| == 1 && Readable(cs[0])
    case _ => true
  }

  predicate ReadableAll(cs: seq<Cond>)
    decreases cs, 0
  {
    cs == [] || (Readable(cs[0]) && StopsBefore(cs[0], PrintAll(cs[1..])) && ReadableAll(cs[1..]))
  }

  lemma PrintIsNotClose(c: Cond)
    ensures Print(c)[0] != TokRBrace
  {
  }

  /** A readable condition is read back as itself, with no diagnostic, up to exactly its last token. */
  lemma {:induction false} ParsePrint(c: Cond, rest: seq<Token>)
    requires Readable(c) && StopsBefore(c, rest)
    ensures ParseCond(Print(c) + rest) == Parsed(Some(c), rest, 0)
    decreases c, 1
  {
    HeadPrint(c, rest);
  }

  lemma {:induction false} HeadPrint(c: Cond, rest: seq<Token>)
    requires Readable(c) && StopsBefore(c, rest)
    ensures ParseHead(Print(c) + rest) == Parsed(Some(c), rest, 0)
    decreases c, 0
  {
    hide ParseBlock, ParseCond, PrintAll, ReadableAll;
    match c
    case And(cs) =>
      HeadOfBlock(c, cs, rest);
    case Or(cs) =>
      HeadOfBlock(c, cs, rest);
    case Not(cs) =>
      assert (Print(c) + rest)[1..] == Print(cs[0]) + rest;
      ParsePrint(cs[0], rest);
      assert [cs[0]] == cs;
    case _ =>
      LeafPrint(c, rest);
  }

  lemma LeafPrint(c: Cond, rest: seq<Token>)
    requires !c.And? && !c.Or? && !c.Not?
    ensures ParseHead(Print(c) + rest) == Parsed(Some(c), rest, 0)
  {
    var ts := Print(c) + rest;
    assert ts[1..] == [TokString(c.name)] + rest;
    assert ([TokString(c.name)] + rest)[1..] == rest;
  }

  lemma HeadOfBlock(c: Cond, cs: seq<Cond>, rest: seq<Token>)
    requires (c == And(cs) || c == Or(cs)) && ReadableAll(cs)
    ensures ParseHead(Print(c) + rest) == Parsed(Some(c), rest, 0)
    decreases c, 0, |cs| + 2
  {
    hide ParseBlock, PrintAll, ReadableAll;
    var ts := Print(c) + rest;
    assert ts[1..] == [TokLBrace] + (PrintAll(cs) + ([TokRBrace] + rest));
    BlockPrint(c, cs, rest);
  }

  lemma {:induction false} BlockPrint(parent: Cond, cs: seq<Cond>, rest: seq<Token>)
    requires (parent == And(cs) || parent == Or(cs)) && ReadableAll(cs)
    ensures ParseBlock([TokLBrace] + (PrintAll(cs) + ([TokRBrace] + rest))) == Parsed(cs, rest, 0)
    decreases parent, 0, |cs| + 1
  {
    var body := PrintAll(cs) + ([TokRBrace] + rest);
    assert ([TokLBrace] + body)[1..] == body;
    assert ([TokRBrace] + rest)[1..] == rest;
    KidsPrint(parent, cs, rest);
  }

  lemma {:induction false} KidsPrint(parent: Cond, cs: seq<Cond>, rest: seq<Token>)
    requires (forall k :: 0 <= k < |cs| ==> cs[k] < parent) && ReadableAll(cs)
    ensures ParseKids(PrintAll(cs) + ([TokRBrace] + rest)) == Parsed(cs, [TokRBrace] + rest, 0)
    decreases parent, 0, |cs|
  {
    var close := [TokRBrace] + rest;
    if cs == [] {
      assert PrintAll(cs) + close == close;
    } else {
      var after := PrintAll(cs[1..]) + close;
      assert PrintAll(cs) + close == Print(cs[0]) + after;
      StopsBeforeClose(cs, close);
      PrintIsNotClose(cs[0]);
      ParsePrint(cs[0], after);
      KidsPrint(parent, cs[1..], rest);
      assert [cs[0]] + cs[1..] == cs;
    }
  }

  lemma {:induction false} NeverContinuesAtClose(c: Cond)
    ensures !Continues(c, TokRBrace)
    decreases c
  {
    if c.Not? && c.children != [] {
      NeverContinuesAtClose(c.children[0]);
    }
  }

  lemma StopsBeforeClose(cs: seq<Cond>, close: seq<Token>)
    requires cs != [] && ReadableAll(cs) && Next(close, TokRBrace)
    ensures StopsBefore(cs[0], PrintAll(cs[1..]) + close)
  {
    NeverContinuesAtClose(cs[0]);
    if cs[1..] == [] {
      assert PrintAll(cs[1..]) + close == close;
    }
  }

  // ---------- The other direction: nothing else is read back ----------

  predicate ReadBack(r: Parsed<Option<Cond>>, c: Cond) {
    r.value == Some(c) && r.errs == 0
  }

  lemma {:induction false} NotReadBack(c: Cond, rest: seq<Token>)
    requires !(Readable(c) && StopsBefore(c, rest))
    ensures !ReadBack(ParseCond(Print(c) + rest), c)
    decreases c, 1
  {
    match c
    case And(cs) => BlockNotReadBack(c, cs, rest);
    case Or(cs) => BlockNotReadBack(c, cs, rest);
    case Not(cs) => NotNotReadBack(c, rest);
    case _ => LeafPrint(c, rest);
  }

  lemma {:induction false} NotNotReadBack(c: Cond, rest: seq<Token>)
    requires c.Not? && !(Readable(c) && StopsBefore(c, rest))
    ensures !ReadBack(ParseCond(Print(c) + rest), c)
    decreases c, 0
  {
    var ts, cs := Print(c) + rest, c.children;
    if cs == [] {
      assert ts[1..] == rest;
    } else {
      assert ts[1..] == Print(cs[0]) + rest;
      if Readable(cs[0]) && StopsBefore(cs[0], rest) {
        ParsePrint(cs[0], rest);
        assert |cs| == 1 ==> [cs[0]] == cs;
      } else {
        NotReadBack(cs[0], rest);
      }
    }
  }

  lemma {:induction false} BlockNotReadBack(c: Cond, cs: seq<Cond>, rest: seq<Token>)
    requires (c == And(cs) || c == Or(cs)) && !(Readable(c) && StopsBefore(c, rest))
    ensures !ReadBack(ParseCond(Print(c) + rest), c)
    decreases c, 0, |cs| + 1
  {
    hide ParseKids, PrintAll, ReadableAll;
    var ts := Print(c) + rest;
    var body := PrintAll(cs) + ([TokRBrace] + rest);
    assert ts[1..] == [TokLBrace] + body;
    assert ([TokLBrace] + body)[1..] == body;
    if ReadableAll(cs) {
      HeadOfBlock(c, cs, rest);
    } else {
      KidsNotReadBack(c, cs, rest);
      var kids := ParseKids(body);
      assert ParseBlock(ts[1..]).value == kids.value && ParseBlock(ts[1..]).errs >= kids.errs;
      var head := ParseHead(ts);
      assert head.value == Some(if c.And? then And(kids.value) else Or(kids.value)) && head.errs >= kids.errs;
      assert ParseCond(ts) == Chain(head.value.value, head.rest, head.errs, |ts|);
    }
  }

  lemma {:induction false} KidsNotReadBack(parent: Cond, cs: seq<Cond>, rest: seq<Token>)
    requires (forall k :: 0 <= k < |cs| ==> cs[k] < parent) && !ReadableAll(cs)
    ensures
      var kids := ParseKids(PrintAll(cs) + ([TokRBrace] + rest));
      !(kids.value == cs && kids.errs == 0)
    decreases parent, 0, |cs|
  {
    hide ParseCond, ParseKids, Print, Readable, Continues;
    var close := [TokRBrace] + rest;
    var after := PrintAll(cs[1..]) + close;
    var all := PrintAll(cs) + close;
    assert all == Print(cs[0]) + after;
    PrintIsNotClose(cs[0]);
    KidsUnfold(all);
    if Readable(cs[0]) && StopsBefore(cs[0], after) {
      ParsePrint(cs[0], after);
      assert StopsBefore(cs[0], PrintAll(cs[1..]));
      KidsNotReadBack(parent, cs[1..], rest);
    } else {
      NotReadBack(cs[0], after);
    }
  }

  /** Reading back a printed condition gives the same condition exactly when it is readable. */
  lemma RoundTripIff(c: Cond)
    ensures ParseCond(Print(c)) == Parsed(Some(c), [], 0) <==> Readable(c)
  {
    assert Print(c) + [] == Print(c);
    if Readable(c) {
      ParsePrint(c, []);
    } else {
      NotReadBack(c, []);
    }
  }

  // ---------- Negation binds the whole chain ----------

  function NotAndTokens(a: string, b: string): seq<Token> {
    [TokNot, TokHasBadge, TokString(a), TokAnd, TokHasBadge, TokString(b)]
  }

  function Pair(a: string, b: string): Cond {
    And([HasBadge(a), HasBadge(b)])
  }

  lemma NegatedChainParse(a: string, b: string)
    ensures ParseCond(NotAndTokens(a, b)) == Parsed(Some(Not([Pair(a, b)])), [], 0)
  {
    var ts := NotAndTokens(a, b);
    var right := [TokHasBadge, TokString(b)];
    assert Print(HasBadge(b)) + [] == right;
    ParsePrint(HasBadge(b), []);
    var left := [TokAnd] + right;
    assert left[1..] == right;
    LeafPrint(HasBadge(a), left);
    assert ts[1..] == Print(HasBadge(a)) + left;
    assert [HasBadge(a)] + [HasBadge(b)] == [HasBadge(a), HasBadge(b)];
    assert ParseCond(ts[1..]) == Parsed(Some(Pair(a, b)), [], 0);
    assert ParseHead(ts) == Parsed(Some(Not([Pair(a, b)])), [], 0);
  }

  lemma PairCompiles(a: string, b: string, known: set<string>)
    requires a in known && b in known
    ensures Compile(Pair(a, b), known) == Guard([a, b], [])
  {
    CompileAllSnoc([], HasBadge(a), known);
    CompileAllSnoc([HasBadge(a)], HasBadge(b), known);
    assert [] + [HasBadge(a)] == [HasBadge(a)];
    assert [HasBadge(a)] + [HasBadge(b)] == [HasBadge(a), HasBadge(b)];
  }

  /**
    "not has_badge a and has_badge b" is read as the negation of both, and the compiled guard then demands
    both: it lets in contacts who hold a, whom either reading of the text keeps out.
  */
  lemma NegatedChainDemandsBoth(a: string, b: string, known: set<string>)
    requires a in known && b in known
    ensures ParseCond(NotAndTokens(a, b)) == Parsed(Some(Not([Pair(a, b)])), [], 0)
    ensures Compile(Not([Pair(a, b)]), known) == Guard([a, b], [])
    ensures Satisfied(Guard([a, b], []), {a, b})
    ensures !Holds(Not([Pair(a, b)]), {a, b}, {})
    ensures !Holds(And([Not([HasBadge(a)]), HasBadge(b)]), {a, b}, {})
  {
    NegatedChainParse(a, b);
    PairCompiles(a, b, known);
    NegatedBlockIsNotNegated([HasBadge(a), HasBadge(b)], known);
    assert Plain(Pair(a, b), known);
    NegatedBlockIsUnsound([HasBadge(a), HasBadge(b)], known, {a, b}, {});
    var other := And([Not([HasBadge(a)]), HasBadge(b)]);
    assert other.children[0] == Not([HasBadge(a)]);
    assert Not([HasBadge(a)]).children[0] == HasBadge(a);
  }

  // ---------- String lists ----------

  predicate ListEnds(ts: seq<Token>) {
    ts == [] || ts[0] == TokRBracket
  }

  /** One round of the list loop: a string, if there is one, then a comma, if there is one. */
  function ListRound(ts: seq<Token>): (r: seq<Token>)
    ensures |r| <= |ts|
  {
    var s := ExpectString(ts);
    if Next(s.rest, TokComma) then s.rest[1..] else s.rest
  }

  function ListRounds(ts: seq<Token>, n: nat): seq<Token> {
    if n == 0 then ts else ListRounds(ListRound(ts), n - 1)
  }

  /** The loop leaves after some number of rounds, none of which started at the end. */
  ghost predicate ListTerminates(ts: seq<Token>) {
    exists n: nat :: ListEnds(ListRounds(ts, n))
  }

  predicate StringsAndCommas(ts: seq<Token>)
    decreases |ts|
  {
    ListEnds(ts) || ((ts[0].TokString? || ts[0] == TokComma) && StringsAndCommas(ts[1..]))
  }

  lemma RoundKeepsShape(ts: seq<Token>)
    requires !ListEnds(ts) && (ts[0].TokString? || ts[0] == TokComma)
    ensures |ListRound(ts)| < |ts| && StringsAndCommas(ListRound(ts)) == StringsAndCommas(ts)
  {
  }

  lemma {:induction false} StuckForever(ts: seq<Token>, n: nat)
    requires ListRound(ts) == ts
    ensures ListRounds(ts, n) == ts
  {
    if n > 0 {
      StuckForever(ts, n - 1);
    }
  }

  lemma {:induction false} NeverEnds(ts: seq<Token>, n: nat)
    requires !StringsAndCommas(ts)
    ensures !ListEnds(ListRounds(ts, n))
    decreases |ts|, n
  {
    if ts[0].TokString? || ts[0] == TokComma {
      RoundKeepsShape(ts);
      if n > 0 {
        NeverEnds(ListRound(ts), n - 1);
      }
    } else {
      StuckForever(ts, n);
    }
  }

  lemma {:induction false} EventuallyEnds(ts: seq<Token>) returns (n: nat)
    requires StringsAndCommas(ts)
    ensures ListEnds(ListRounds(ts, n))
    decreases |ts|
  {
    if ListEnds(ts) {
      n := 0;
    } else {
      RoundKeepsShape(ts);
      var m := EventuallyEnds(ListRound(ts));
      n := m + 1;
    }
  }

  /** The list loop terminates exactly when everything up to the closing bracket is a string or a comma. */
  lemma ListTerminatesIff(ts: seq<Token>)
    ensures ListTerminates(ts) <==> StringsAndCommas(ts)
  {
    if StringsAndCommas(ts) {
      var n := EventuallyEnds(ts);
      assert ListEnds(ListRounds(ts, n));
    } else {
      forall n: nat
        ensures !ListEnds(ListRounds(ts, n))
      {
        NeverEnds(ts, n);
      }
    }
  }

  /** What the loop collects. A comma where a string is due reports an error and adds an empty string. */
  function ParseElements(ts: seq<Token>): (r: Parsed<seq<string>>)
    requires StringsAndCommas(ts)
    ensures |r.rest| <= |ts| && ListEnds(r.rest)
    decreases |ts|
  {
    if ListEnds(ts) then Parsed([], ts, 0)
    else
      RoundKeepsShape(ts);
      var s := ExpectString(ts);
      var more := ParseElements(ListRound(ts));
      Parsed([s.value] + more.value, more.rest, s.errs + more.errs)
  }

  lemma ElementsStep(ts: seq<Token>, done: seq<string>)
    requires StringsAndCommas(ts) && !ListEnds(ts)
    ensures |ListRound(ts)| < |ts| && StringsAndCommas(ListRound(ts))
    ensures done + ParseElements(ts).value == done + [ExpectString(ts).value] + ParseElements(ListRound(ts)).value
    ensures ParseElements(ts).rest == ParseElements(ListRound(ts)).rest
    ensures ParseElements(ts).errs == ExpectString(ts).errs + ParseElements(ListRound(ts)).errs
  {
    RoundKeepsShape(ts);
  }

  function PrintList(xs: seq<string>): seq<Token> {
    if xs == [] then []
    else if |xs| == 1 then [TokString(xs[0])]
    else [TokString(xs[0]), TokComma] + PrintList(xs[1..])
  }

  lemma {:induction false} PrintedListShape(xs: seq<string>, rest: seq<Token>)
    requires Next(rest, TokRBracket)
    ensures StringsAndCommas(PrintList(xs) + rest)
    decreases |xs|
  {
    var ts := PrintList(xs) + rest;
    if xs == [] {
      assert ts == rest;
    } else if |xs| == 1 {
      assert ts[1..] == rest;
    } else {
      PrintedListShape(xs[1..], rest);
      var tail := PrintList(xs[1..]) + rest;
      assert ts[1..] == [TokComma] + tail && ts[1..][1..] == tail;
    }
  }

  lemma PrintedRound(xs: seq<string>, rest: seq<Token>)
    requires xs != [] && Next(rest, TokRBracket)
    ensures var ts := PrintList(xs) + rest;
            !ListEnds(ts) && ListRound(ts) == PrintList(xs[1..]) + rest && ExpectString(ts) == Parsed(xs[0], ts[1..], 0)
  {
    var tail := PrintList(xs[1..]) + rest;
    var after := if |xs| == 1 then rest else [TokComma] + tail;
    var ts := [TokString(xs[0])] + after;
    PrintedHead(xs, rest, after);
    assert ts[1..] == after;
    RoundOfElement(ts, after);
    assert |xs| == 1 ==> tail == rest;
    assert |xs| > 1 ==> after[1..] == tail;
  }

  lemma PrintedHead(xs: seq<string>, rest: seq<Token>, after: seq<Token>)
    requires xs != [] && after == if |xs| == 1 then rest else [TokComma] + (PrintList(xs[1..]) + rest)
    ensures PrintList(xs) + rest == [TokString(xs[0])] + after
  {
  }

  lemma RoundOfElement(ts: seq<Token>, after: seq<Token>)
    requires ts != [] && ts[0].TokString? && ts[1..] == after && after != []
    ensures ListRound(ts) == if after[0] == TokComma then after[1..] else after
  {
  }

  /** A printed list is read back element by element, without a diagnostic, up to its bracket. */
  lemma {:induction false} ListRoundTrip(xs: seq<string>, rest: seq<Token>)
    requires Next(rest, TokRBracket)
    ensures StringsAndCommas(PrintList(xs) + rest)
    ensures ParseElements(PrintList(xs) + rest) == Parsed(xs, rest, 0)
    decreases |xs|
  {
    hide StringsAndCommas;
    PrintedListShape(xs, rest);
    if xs == [] {
      assert PrintList(xs) + rest == rest;
    } else {
      var tail := PrintList(xs[1..]) + rest;
      ListRoundTrip(xs[1..], rest);
      PrintedRound(xs, rest);
      ElementsStep(PrintList(xs) + rest, []);
      assert [xs[0]] + xs[1..] == xs;
    }
  }

  // ---------- The parser with its cursor ----------

  class Parser {
    const tokens: seq<Token>
    var pos: nat
    var errors: nat

    constructor (tokens: seq<Token>)
      ensures this.tokens == tokens && Valid() && Left() == tokens && errors == 0
    {
      this.tokens, pos, errors := tokens, 0, 0;
    }

    predicate Valid()
      reads this
    {
      pos <= |tokens|
    }

    function Left(): seq<Token>
      requires Valid()
      reads this
    {
      tokens[pos..]
    }

    predicate AtEnd()
      reads this
    {
      pos >= |tokens|
    }

    predicate Check(t: Token)
      reads this
    {
      pos < |tokens| && tokens[pos] == t
    }

    method Advance()
      requires Valid()
      modifies this`pos
      ensures Valid() && Left() == if old(Left()) == [] then [] else old(Left())[1..]
      ensures pos == if old(AtEnd()) then old(pos) else old(pos) + 1
    {
      if !AtEnd() {
        pos := pos + 1;
      }
    }

    method ExpectToken(t: Token)
      requires Valid()
      modifies this`pos, this`errors
      ensures Valid() && pos >= old(pos)
      ensures Left() == Expect(old(Left()), t).rest && errors == old(errors) + Expect(old(Left()), t).errs
    {
      if Check(t) {
        Advance();
      } else {
        errors := errors + 1;
      }
    }

    method ExpectStringToken() returns (literal: string)
      requires Valid()
      modifies this`pos, this`errors
      ensures Valid() && pos >= old(pos)
      ensures literal == ExpectString(old(Left())).value && Left() == ExpectString(old(Left())).rest
      ensures errors == old(errors) + ExpectString(old(Left())).errs
    {
      if !AtEnd() && tokens[pos].TokString? {
        literal := tokens[pos].literal;
        Advance();
      } else {
        errors := errors + 1;
        literal := "";
      }
    }

    /** Every call on a nonempty rest consumes a token, so the recursion ends on every token stream. */
    method ParseCondition() returns (c: Option<Cond>)
      requires Valid()
      modifies this`pos, this`errors
      ensures Valid() && pos >= old(pos) && (!old(AtEnd()) ==> pos > old(pos))
      ensures c == ParseCond(old(Left())).value && Left() == ParseCond(old(Left())).rest
      ensures errors == old(errors) + ParseCond(old(Left())).errs
      decreases |tokens| - pos, 2
    {
      var node := ParseConditionHead();
      if node.None? {
        return None;
      }
      c := node;
      if Check(TokAnd) && !node.value.And? {
        Advance();
        var right := ParseCondition();
        c := Some(And([node.value] + OptSeq(right)));
      } else if Check(TokOr) && !node.value.Or? {
        Advance();
        var right := ParseCondition();
        c := Some(Or([node.value] + OptSeq(right)));
      }
    }

    method ParseConditionHead() returns (c: Option<Cond>)
      requires Valid()
      modifies this`pos, this`errors
      ensures Valid() && pos >= old(pos) && (!old(AtEnd()) ==> pos > old(pos)) && (old(AtEnd()) ==> c.None?)
      ensures c == ParseHead(old(Left())).value && Left() == ParseHead(old(Left())).rest
      ensures errors == old(errors) + ParseHead(old(Left())).errs
      decreases |tokens| - pos, 1
    {
      if AtEnd() {
        errors := errors + 1;
        return None;
      }
      var t := tokens[pos];
      Advance();
      match t {
        case TokHasBadge => var n := ExpectStringToken(); c := Some(HasBadge(n));
        case TokNotHasBadge => var n := ExpectStringToken(); c := Some(NotHasBadge(n));
        case TokHasTag => var n := ExpectStringToken(); c := Some(HasTag(n));
        case TokNotHasTag => var n := ExpectStringToken(); c := Some(NotHasTag(n));
        case TokAnd => var cs := ParseConditionBlock(); c := Some(And(cs));
        case TokOr => var cs := ParseConditionBlock(); c := Some(Or(cs));
        case TokNot => var child := ParseCondition(); c := Some(Not(OptSeq(child)));
        case _ =>
          errors := errors + 1;
          c := None;
      }
    }

    method ParseConditionBlock() returns (cs: seq<Cond>)
      requires Valid()
      modifies this`pos, this`errors
      ensures Valid() && pos >= old(pos)
      ensures cs == ParseBlock(old(Left())).value && Left() == ParseBlock(old(Left())).rest
      ensures errors == old(errors) + ParseBlock(old(Left())).errs
      decreases |tokens| - pos, 4
    {
      if Check(TokLBrace) {
        ExpectToken(TokLBrace);
        cs := ParseChildren();
        ExpectToken(TokRBrace);
      } else {
        cs := [];
      }
    }

    /** The loop over a block's children: each round consumes a token, even where it reports one. */
    method ParseChildren() returns (cs: seq<Cond>)
      requires Valid()
      modifies this`pos, this`errors
      ensures Valid() && pos >= old(pos)
      ensures cs == ParseKids(old(Left())).value && Left() == ParseKids(old(Left())).rest
      ensures errors == old(errors) + ParseKids(old(Left())).errs
      decreases |tokens| - pos, 3
    {
      hide ParseCond, ParseKids;
      cs := [];
      ghost var all := ParseKids(Left());
      while !Check(TokRBrace) && !AtEnd()
        invariant Valid() && pos >= old(pos)
        invariant cs + ParseKids(Left()).value == all.value && ParseKids(Left()).rest == all.rest
        invariant errors + ParseKids(Left()).errs == old(errors) + all.errs
        decreases |tokens| - pos
      {
        KidsUnfold(Left());
        var child := ParseCondition();
        if child.Some? {
          cs := cs + [child.value];
        }
      }
      KidsEnd(Left());
    }

    method ListElement() returns (s: string)
      requires Valid()
      modifies this`pos, this`errors
      ensures Valid() && s == ExpectString(old(Left())).value && Left() == ListRound(old(Left()))
    {
      s := ExpectStringToken();
      if Check(TokComma) {
        Advance();
      }
    }

    /** The list loop makes progress only on strings and commas: that is what its termination needs. */
    method ListLoop() returns (list: seq<string>)
      requires Valid() && StringsAndCommas(Left())
      modifies this`pos, this`errors
      ensures Valid() && list == ParseElements(old(Left())).value && Left() == ParseElements(old(Left())).rest
    {
      list := [];
      ghost var all, ts := ParseElements(Left()), Left();
      while !Check(TokRBracket) && !AtEnd()
        invariant Valid() && Left() == ts && StringsAndCommas(ts)
        invariant list + ParseElements(ts).value == all.value && ParseElements(ts).rest == all.rest
        decreases |ts|
      {
        ElementsStep(ts, list);
        var s := ListElement();
        list, ts := list + [s], ListRound(ts);
      }
      assert ListEnds(ts);
    }

    method ParseStringList() returns (list: seq<string>)
      requires Valid() && StringsAndCommas(Expect(Left(), TokLBracket).rest)
      modifies this`pos, this`errors
      ensures Valid()
      ensures var r := ParseElements(Expect(old(Left()), TokLBracket).rest);
              list == r.value && Left() == Expect(r.rest, TokRBracket).rest
    {
      ExpectToken(TokLBracket);
      list := ListLoop();
      ExpectToken(TokRBracket);
    }
  }
}
