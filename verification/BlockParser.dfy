/** The block parser with its cursor: one loop per block, recursion through nested blocks, recovery by skipping. */
module BlockParser {
  import opened Wrappers
  import opened BlockGrammar
  import opened BlockTheorems

  /** The same parse with earlier reports counted in. */
  function Shift<T>(r: Parsed<T>, errs: nat): Parsed<T> {
    r.(errs := errs + r.errs)
  }

  // ---------- What one round of a loop adds ----------

  lemma NothingMore(r: Taken)
    ensures More([], 0, r) == r
  {
    assert r.value.Some? ==> [] + r.value.value == r.value.value;
  }

  lemma MoreMore(words: seq<Token>, errs: nat, word: seq<Token>, err: nat, r: Taken)
    ensures More(words, errs, More(word, err, r)) == More(words + word, errs + err, r)
  {
    assert r.value.Some? ==> words + (word + r.value.value) == (words + word) + r.value.value;
  }

  lemma MoreEnds(words: seq<Token>, errs: nat, rest: seq<Token>)
    ensures More(words, errs, Parsed(Some([]), rest, 0, false)) == Parsed(Some(words), rest, errs, false)
  {
    assert words + [] == words;
  }

  /** What one slot adds to the words and reports made before it. */
  lemma WordsRound(slots: seq<Slot>, ts: seq<Token>, words: seq<Token>, errs: nat)
    requires slots != []
    ensures Starts(slots[0].what, ts) ==>
      More(words, errs, Take(slots, ts)) == More(words + [ts[0]], errs, Take(slots[1..], ts[1..]))
    ensures !Starts(slots[0].what, ts) ==>
      More(words, errs, Take(slots, ts)) ==
      match slots[0]
      case Want(_) => More(words, errs, Take(slots[1..], ts))
      case Need(c) => More(words, errs + Cost(c), Take(slots[1..], ts))
      case Skip(_) => More(words, errs + 1, Take(slots[1..], Tail(ts)))
      case Stop(_) => Parsed(None, ts, errs + 1, false)
      case SkipStop(_) => Parsed(None, Tail(ts), errs + 1, false)
  {
    hide Is, Sound;
    assert words + [] == words;
    if Starts(slots[0].what, ts) {
      hide More;
      MoreMore(words, errs, [ts[0]], 0, Take(slots[1..], ts[1..]));
    } else {
      MissedSlot(slots, ts, words, errs);
    }
  }

  lemma MissedSlot(slots: seq<Slot>, ts: seq<Token>, words: seq<Token>, errs: nat)
    requires slots != [] && !Starts(slots[0].what, ts) && words + [] == words
    ensures
      More(words, errs, Take(slots, ts)) ==
      match slots[0]
      case Want(_) => More(words, errs, Take(slots[1..], ts))
      case Need(c) => More(words, errs + Cost(c), Take(slots[1..], ts))
      case Skip(_) => More(words, errs + 1, Take(slots[1..], Tail(ts)))
      case Stop(_) => Parsed(None, ts, errs + 1, false)
      case SkipStop(_) => Parsed(None, Tail(ts), errs + 1, false)
  {
    hide Is, Sound;
    if slots[0].Want? || slots[0].Need? {
      hide More;
      MoreMore(words, errs, [], if slots[0].Need? then Cost(slots[0].what) else 0, Take(slots[1..], ts));
    } else if slots[0].Skip? {
      hide More;
      MoreMore(words, errs, [], 1, Take(slots[1..], Tail(ts)));
    }
  }

  lemma ParamsRound(ts: seq<Token>, words: seq<Token>, errs: nat)
    requires ts != [] && ts[0] != RParen
    ensures NameLike(ts[0]) || ts[0] == Comma ==>
      More(words, errs, TakeParams(ts)) == More(words + [ts[0]], errs, TakeParams(ts[1..]))
    ensures !NameLike(ts[0]) && ts[0] != Comma ==>
      More(words, errs, TakeParams(ts)) == More(words, errs + 1, TakeParams(ts[1..]))
  {
    hide More, Sound, NameLike;
    assert words + [] == words && ts[..1] == [ts[0]] && ts[..0] == [];
    MoreMore(words, errs, [ts[0]], 0, TakeParams(ts[1..]));
    MoreMore(words, errs, [], 1, TakeParams(ts[1..]));
  }

  lemma ArgsRound(ts: seq<Token>, words: seq<Token>, errs: nat)
    requires ts != [] && ts[0] != RParen
    ensures NameLike(ts[0]) ==>
      More(words, errs, TakeArgs(ts)) == More(words + [ts[0]], errs, TakeDots(ts[1..]))
    ensures !NameLike(ts[0]) && (ts[0].Str? || ts[0] == Comma) ==>
      More(words, errs, TakeArgs(ts)) == More(words + [ts[0]], errs, TakeArgs(ts[1..]))
    ensures !NameLike(ts[0]) && !ts[0].Str? && ts[0] != Comma ==>
      More(words, errs, TakeArgs(ts)) == More(words, errs + 1, TakeArgs(ts[1..]))
  {
    hide TakeDots, More, Sound, NameLike;
    assert words + [] == words && ts[..1] == [ts[0]] && ts[..0] == [];
    MoreMore(words, errs, [ts[0]], 0, TakeDots(ts[1..]));
    MoreMore(words, errs, [ts[0]], 0, TakeArgs(ts[1..]));
    MoreMore(words, errs, [], 1, TakeArgs(ts[1..]));
  }

  lemma ParamsEnd(ts: seq<Token>)
    requires ts == [] || ts[0] == RParen
    ensures TakeParams(ts) == Parsed(Some([]), ts, 0, false)
  {
  }

  lemma ArgsEnd(ts: seq<Token>)
    requires ts == [] || ts[0] == RParen
    ensures TakeArgs(ts) == Parsed(Some([]), ts, 0, false)
  {
  }

  lemma DotsRound(ts: seq<Token>, words: seq<Token>, errs: nat)
    requires ts != [] && ts[0] == Dot
    ensures |ts| > 1 && NameLike(ts[1]) ==>
      More(words, errs, TakeDots(ts)) == More(words + [Dot, ts[1]], errs, TakeDots(ts[2..]))
    ensures !(|ts| > 1 && NameLike(ts[1])) ==>
      More(words, errs, TakeDots(ts)) == More(words, errs + 1, TakeArgs(ts[1..]))
  {
    hide TakeArgs, TakeDots, More, Sound, NameLike, Next;
    assert words + [] == words;
    if |ts| > 1 && NameLike(ts[1]) {
      DottedField(ts);
      MoreMore(words, errs, [Dot, ts[1]], 0, TakeDots(ts[2..]));
    } else {
      DotAlone(ts);
      MoreMore(words, errs, [], 1, TakeArgs(ts[1..]));
    }
  }

  lemma DottedField(ts: seq<Token>)
    requires |ts| > 1 && ts[0] == Dot && NameLike(ts[1])
    ensures TakeDots(ts) == More([Dot, ts[1]], 0, TakeDots(ts[2..]))
  {
    hide TakeArgs, More, Sound, NameLike;
    assert ts[..2] == [Dot, ts[1]];
  }

  lemma DotAlone(ts: seq<Token>)
    requires ts != [] && ts[0] == Dot && !(|ts| > 1 && NameLike(ts[1]))
    ensures TakeDots(ts) == More([], 1, TakeArgs(ts[1..]))
  {
    hide TakeArgs, More, Sound, NameLike;
  }

  lemma NoDots(ts: seq<Token>)
    requires !Next(ts, Dot)
    ensures TakeDots(ts) == TakeArgs(ts)
  {
    hide TakeArgs;
  }

  lemma BlockRound(b: Block, ts: seq<Token>, done: seq<Item>)
    requires !Ended(b, ts)
    ensures
      var one, all := ParseClause(b, ts), ParseItems(b, ts);
      var more := ParseItems(b, one.rest);
      && done + all.value == (done + OptSeq(one.value)) + more.value
      && all.rest == more.rest && all.errs == one.errs + more.errs && all.hangs == (one.hangs || more.hangs)
  {
    hide ParseItems, ParseClause;
    ItemsStep(b, ts);
    var one := ParseClause(b, ts);
    assert done + (OptSeq(one.value) + ParseItems(b, one.rest).value) == (done + OptSeq(one.value)) + ParseItems(b, one.rest).value;
  }

  class Parser {
    const tokens: seq<Token>
    var pos: nat
    var errors: nat

    constructor (tokens: seq<Token>)
      ensures this.tokens == tokens && Valid() && Left() == tokens && errors == 0
    {
      this.tokens, pos, errors := tokens, 0, 0;
    }

    predicate Valid()
      reads this`pos
    {
      pos <= |tokens|
    }

    function Left(): (ts: seq<Token>)
      requires Valid()
      reads this`pos
      ensures |ts| == |tokens| - pos
    {
      tokens[pos..]
    }

    predicate AtEnd()
      reads this`pos
    {
      pos >= |tokens|
    }

    predicate Check(t: Token)
      requires Valid()
      reads this`pos
      ensures Check(t) <==> Next(Left(), t)
    {
      pos < |tokens| && tokens[pos] == t
    }

    method Advance()
      requires Valid() && !AtEnd()
      modifies this`pos
      ensures Valid() && Left() == old(Left())[1..] && pos == old(pos) + 1
    {
      pos := pos + 1;
    }

    // ---------- Words ----------

    /** The parse `r` has been made up to here, after `errs` reports. */
    predicate At<T>(r: Parsed<T>, errs: nat)
      requires Valid()
      reads this
    {
      Left() == r.rest && errors == errs + r.errs && !r.hangs
    }

    /** A fixed sequence of words. */
    method Words(slots: seq<Slot>) returns (w: Option<seq<Token>>)
      requires Valid()
      modifies this`pos, this`errors
      ensures Valid() && pos >= old(pos) && At(Take(slots, old(Left())), old(errors)) && w == Take(slots, old(Left())).value
    {
      hide Is, Sound, More;
      ghost var all := Take(slots, Left());
      var words, k := [], 0;
      NothingMore(all);
      while k < |slots|
        invariant Valid() && k <= |slots| && pos >= old(pos) && errors >= old(errors)
        invariant all == More(words, errors - old(errors), Take(slots[k..], Left()))
      {
        var slot := slots[k];
        assert slots[k..][1..] == slots[k + 1..];
        WordsRound(slots[k..], Left(), words, errors - old(errors));
        if !AtEnd() && Is(slot.what, tokens[pos]) {
          words := words + [tokens[pos]];
          Advance();
        } else if !slot.Want? {
          errors := errors + if slot.Need? then Cost(slot.what) else 1;
          if (slot.Skip? || slot.SkipStop?) && !AtEnd() {
            Advance();
          }
          if slot.Stop? || slot.SkipStop? {
            return None;
          }
        }
        k := k + 1;
      }
      MoreEnds(words, errors - old(errors), Left());
      w := Some(words);
    }

    /** The loop over the parameters of a pattern or policy. */
    method Params() returns (words: seq<Token>)
      requires Valid()
      modifies this`pos, this`errors
      ensures Valid() && pos >= old(pos) && At(TakeParams(old(Left())), old(errors)) && words == TakeParams(old(Left())).value.value
    {
      hide NameLike, Sound, More, TakeParams;
      ghost var all := TakeParams(Left());
      words := [];
      NothingMore(all);
      while !Check(RParen) && !AtEnd()
        invariant Valid() && pos >= old(pos) && errors >= old(errors)
        invariant all == More(words, errors - old(errors), TakeParams(Left()))
        decreases |tokens| - pos
      {
        ParamsRound(Left(), words, errors - old(errors));
        if NameLike(tokens[pos]) || Check(Comma) {
          words := words + [tokens[pos]];
        } else {
          errors := errors + 1;
        }
        Advance();
      }
      ParamsEnd(Left());
      MoreEnds(words, errors - old(errors), Left());
    }

    /** The fields behind a name. */
    method Fields() returns (words: seq<Token>)
      requires Valid()
      modifies this`pos, this`errors
      ensures Valid() && pos >= old(pos) && errors >= old(errors)
      ensures TakeDots(old(Left())) == More(words, errors - old(errors), TakeArgs(Left()))
    {
      hide NameLike, Sound, More, TakeArgs, TakeDots;
      ghost var all := TakeDots(Left());
      words := [];
      NothingMore(all);
      while Check(Dot)
        invariant Valid() && pos >= old(pos) && errors >= old(errors)
        invariant all == More(words, errors - old(errors), TakeDots(Left()))
        decreases |tokens| - pos
      {
        DotsRound(Left(), words, errors - old(errors));
        Advance();
        if !AtEnd() && NameLike(tokens[pos]) {
          words := words + [Dot, tokens[pos]];
          Advance();
        } else {
          errors := errors + 1;
          return;
        }
      }
      NoDots(Left());
    }

    /** The loop over the arguments of a use. */
    method Args() returns (words: seq<Token>)
      requires Valid()
      modifies this`pos, this`errors
      ensures Valid() && pos >= old(pos) && At(TakeArgs(old(Left())), old(errors)) && words == TakeArgs(old(Left())).value.value
    {
      hide NameLike, Sound, More, TakeArgs, TakeDots;
      ghost var all := TakeArgs(Left());
      words := [];
      NothingMore(all);
      while !Check(RParen) && !AtEnd()
        invariant Valid() && pos >= old(pos) && errors >= old(errors)
        invariant all == More(words, errors - old(errors), TakeArgs(Left()))
        decreases |tokens| - pos
      {
        ArgsRound(Left(), words, errors - old(errors));
        if NameLike(tokens[pos]) {
          words := words + [tokens[pos]];
          Advance();
          ghost var before := errors;
          var fields := Fields();
          MoreMore(words, before - old(errors), fields, errors - before, TakeArgs(Left()));
          words := words + fields;
        } else if tokens[pos].Str? || Check(Comma) {
          words := words + [tokens[pos]];
          Advance();
        } else {
          errors := errors + 1;
          Advance();
        }
      }
      ArgsEnd(Left());
      MoreEnds(words, errors - old(errors), Left());
    }

    method ParseArgList() returns (w: Option<seq<Token>>)
      requires Valid()
      modifies this`pos, this`errors
      ensures Valid() && pos >= old(pos) && At(TakeArgList(old(Left())), old(errors)) && w == TakeArgList(old(Left())).value
    {
      hide Take, TakeArgs, Sound;
      w := Some([]);
      if Check(LParen) {
        assert Left()[..1] == [LParen];
        Advance();
        var args := Args();
        NeverGivesUp(CloseParen, Left());
        var close := Words(CloseParen);
        w := Some([LParen] + (args + close.value));
      }
    }

    method ParseUse() returns (w: Option<seq<Token>>)
      requires Valid()
      modifies this`pos, this`errors
      ensures Valid() && pos >= old(pos) && At(TakeUse(old(Left())), old(errors)) && w == TakeUse(old(Left())).value
    {
      hide Take, TakeArgList, Sound;
      if Check(Key(Sender)) {
        w := Words(SenderSlots(Left()));
      } else {
        w := Words([SkipStop(AUseKind), Stop(ANameLike)]);
        if w.Some? {
          var args := ParseArgList();
          w := if args.Some? then Some(w.value + args.value) else None;
        }
      }
    }

    method ParseTemplate() returns (w: Option<seq<Token>>)
      requires Valid()
      modifies this`pos, this`errors
      ensures Valid() && pos >= old(pos) && At(TakeTemplate(old(Left())), old(errors)) && w == TakeTemplate(old(Left())).value
    {
      hide Sound, Suffix, Take, TakeParams;
      w := Words([Stop(AName), Need(Exactly(LParen))]);
      if w.Some? {
        var params := Params();
        NeverGivesUp([Need(Exactly(RParen)), Need(Exactly(LBrace))], Left());
        var close := Words([Need(Exactly(RParen)), Need(Exactly(LBrace))]);
        w := Some(w.value + (params + close.value));
      }
    }

    method ParseHead(key: Token) returns (w: Option<seq<Token>>)
      requires Valid()
      modifies this`pos, this`errors
      ensures Valid() && pos >= old(pos) && At(TakeHead(key, old(Left())), old(errors)) && w == TakeHead(key, old(Left())).value
    {
      hide Sound, Suffix, Take, TakeTemplate;
      if key == Key(Pattern) || key == Key(Policy) {
        w := ParseTemplate();
      } else {
        w := Words(HeadSlots(key, Left()));
      }
    }

    /** The words of a clause. Lists, conditions and actions have parsers of their own, whose specification is used. */
    method ParseOperand(f: Form, key: Token) returns (w: Option<seq<Token>>)
      requires Valid() && !f.Sub? && !f.Each? && !TakeOperand(f, key, Left()).hangs
      modifies this`pos, this`errors
      ensures Valid() && pos >= old(pos) && At(TakeOperand(f, key, old(Left())), old(errors)) && w == TakeOperand(f, key, old(Left())).value
    {
      hide Take, TakeUse;
      if f.Words? {
        w := Words(f.slots);
      } else if f.NumberOrRef? {
        w := Words(NumberOrRefSlots(Left()));
      } else if f.Using? {
        w := ParseUse();
      } else {
        hide TakeOperand;
        var r := TakeOperand(f, key, Left());
        pos, errors, w := |tokens| - |r.rest|, errors + r.errs, r.value;
      }
    }

    // ---------- Blocks ----------

    method ExpectClose(b: Block)
      requires Valid()
      modifies this`pos, this`errors
      ensures Valid() && pos >= old(pos)
      ensures Left() == (if Next(old(Left()), Close(b)) then old(Left())[1..] else old(Left()))
      ensures errors == old(errors) + if Next(old(Left()), Close(b)) then 0 else 1
    {
      if Check(Close(b)) {
        Advance();
      } else {
        errors := errors + 1;
      }
    }

    /** The loop of a block. Each round consumes a token, even where it makes a report. */
    method ParseBlock(b: Block) returns (items: seq<Item>)
      requires Valid() && !ParseItems(b, Left()).hangs
      modifies this`pos, this`errors
      ensures Valid() && pos >= old(pos)
      ensures Parsed(items, Left(), errors, false) == Shift(ParseItems(b, old(Left())), old(errors))
      decreases |tokens| - pos, 2
    {
      hide ParseItems, ParseClause, Suffix;
      items := [];
      ghost var all := ParseItems(b, Left());
      while !AtEnd() && !(b != Script && Check(Close(b)))
        invariant Valid() && pos >= old(pos) && !ParseItems(b, Left()).hangs
        invariant items + ParseItems(b, Left()).value == all.value && ParseItems(b, Left()).rest == all.rest
        invariant errors + ParseItems(b, Left()).errs == old(errors) + all.errs
        decreases |tokens| - pos
      {
        BlockRound(b, Left(), items);
        var item := ParseClauseNode(b);
        items := items + OptSeq(item);
      }
      NothingLeft(b, Left());
      assert items + [] == items;
    }

    method ParseClauseNode(b: Block) returns (i: Option<Item>)
      requires Valid() && !AtEnd() && !ParseClause(b, Left()).hangs
      modifies this`pos, this`errors
      ensures Valid() && pos > old(pos)
      ensures Parsed(i, Left(), errors, false) == Shift(ParseClause(b, old(Left())), old(errors))
      decreases |tokens| - pos, 1
    {
      hide Sound, Suffix, FormOf, TakeOperand, ParseSection, ParseFor;
      var key := tokens[pos];
      var f := FormOf(b, key);
      Advance();
      if f.Sub? {
        i := ParseSectionNode(key, f.inner);
      } else if f.Each? {
        i := ParseForNode(f.inner);
      } else {
        var w := ParseOperand(f, key);
        i := if w.Some? then Some(Clause(key, w.value)) else None;
      }
    }

    /** A block after its first token. */
    method ParseSectionNode(key: Token, inner: Block) returns (i: Option<Item>)
      requires Valid() && !ParseSection(key, inner, Left()).hangs
      modifies this`pos, this`errors
      ensures Valid() && pos >= old(pos)
      ensures Parsed(i, Left(), errors, false) == Shift(ParseSection(key, inner, old(Left())), old(errors))
      decreases |tokens| - pos, 3
    {
      hide Sound, Suffix, TakeHead, ParseItems;
      var head := ParseHead(key);
      if head.None? {
        return None;
      }
      var items := ParseBlock(inner);
      ExpectClose(inner);
      i := Some(Section(key, inner, head.value, items));
    }

    method ParseForNode(inner: Block) returns (i: Option<Item>)
      requires Valid() && !ParseFor(inner, Left()).hangs
      modifies this`pos, this`errors
      ensures Valid() && pos >= old(pos)
      ensures Parsed(i, Left(), errors, false) == Shift(ParseFor(inner, old(Left())), old(errors))
      decreases |tokens| - pos, 5
    {
      hide Sound, Suffix, Take, ParseSource, ParseForBody;
      var head := Words(ForHead);
      if head.None? {
        return None;
      }
      var source := ParseSourceNode();
      if source.None? {
        return None;
      }
      i := ParseForBodyNode(inner, head.value, source.value);
    }

    method ParseForBodyNode(inner: Block, head: seq<Token>, source: Item) returns (i: Option<Item>)
      requires Valid() && !ParseForBody(inner, head, source, Left()).hangs
      modifies this`pos, this`errors
      ensures Valid() && pos >= old(pos)
      ensures Parsed(i, Left(), errors, false) == Shift(ParseForBody(inner, head, source, old(Left())), old(errors))
      decreases |tokens| - pos, 3
    {
      hide Take, ParseItems, Suffix, Sound, Close;
      var open := Words(OpenBrace);
      var items := ParseBlock(inner);
      ExpectClose(inner);
      i := Some(ForLoop(head, source, inner, items));
    }

    method ParseSourceNode() returns (i: Option<Item>)
      requires Valid() && !ParseSource(Left()).hangs
      modifies this`pos, this`errors
      ensures Valid() && pos >= old(pos)
      ensures Parsed(i, Left(), errors, false) == Shift(ParseSource(old(Left())), old(errors))
      decreases |tokens| - pos, 4
    {
      hide Sound, Suffix, ParseSection;
      if Check(LBracket) {
        Advance();
        i := ParseSectionNode(LBracket, InlineArray);
      } else if !AtEnd() && NameLike(tokens[pos]) {
        i := Some(Clause(tokens[pos], []));
        Advance();
      } else {
        errors := errors + 1;
        i := None;
      }
    }
  }

  /**
    Parses a whole script. It ends on every stream whose lists are flat, having read all of it, and makes no report
    exactly on the texts of the grammar, whose one reading it then returns.
  */
  method ParseScript(tokens: seq<Token>) returns (items: seq<Item>, reports: nat)
    requires ListsAreFlat(tokens)
    ensures Parsed(items, [], reports, false) == ParseItems(Script, tokens)
    ensures reports == 0 <==> tokens == PrintAll(items) && Grammatical(Script, items, [])
    ensures forall read :: Grammatical(Script, read, []) && tokens == PrintAll(read) ==> reports == 0 && items == read
  {
    hide ParseItems, Grammatical, PrintAll, ListsAreFlat;
    NeverHangs(Script, tokens);
    WholeStreamIsRead(tokens);
    var parser := new Parser(tokens);
    items := parser.ParseBlock(Script);
    reports := parser.errors;
    forall read
      ensures Parsed(items, [], reports, false) == Parsed(read, [], 0, false) <==> tokens == PrintAll(read) && Grammatical(Script, read, [])
    {
      ScriptIff(tokens, read);
    }
  }
}
