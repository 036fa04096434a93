/**
  Trigger conditions: their meaning in the script, and the guard the compiler turns them into, which is a
  list of badges that must be held and a list of badges that must not.
*/
module Conditions {

  /** `Not` holds the list the parser fills; only its first child counts. */
  datatype Cond =
    | HasBadge(name: string)
    | NotHasBadge(name: string)
    | HasTag(name: string)
    | NotHasTag(name: string)
    | And(children: seq<Cond>)
    | Or(children: seq<Cond>)
    | Not(children: seq<Cond>)

  /** What the author wrote, for a contact holding the given badges and tags. */
  predicate Holds(c: Cond, badges: set<string>, tags: set<string>) {
    match c
    case HasBadge(n) => n in badges
    case NotHasBadge(n) => n !in badges
    case HasTag(n) => n in tags
    case NotHasTag(n) => n !in tags
    case And(cs) => forall k :: 0 <= k < |cs| ==> Holds(cs[k], badges, tags)
    case Or(cs) => exists k :: 0 <= k < |cs| && Holds(cs[k], badges, tags)
    case Not(cs) => cs != [] ==> !Holds(cs[0], badges, tags)
  }

  datatype Guard = Guard(must: seq<string>, mustNot: seq<string>)

  const NO_GUARD := Guard([], [])

  function Both(g: Guard, h: Guard): Guard {
    Guard(g.must + h.must, g.mustNot + h.mustNot)
  }

  predicate Satisfied(g: Guard, badges: set<string>) {
    (forall n :: n in g.must ==> n in badges) && (forall n :: n in g.mustNot ==> n !in badges)
  }

  /** The compiler's translation. `known` are the badges that were created; any other name is dropped. */
  function Compile(c: Cond, known: set<string>): Guard
    decreases c, 0
  {
    match c
    case HasBadge(n) => if n in known then Guard([n], []) else NO_GUARD
    case NotHasBadge(n) => if n in known then Guard([], [n]) else NO_GUARD
    case HasTag(_) => NO_GUARD
    case NotHasTag(_) => NO_GUARD
    case And(cs) => CompileAll(cs, known)
    case Or(cs) => CompileAll(cs, known)
    case Not(cs) =>
      if cs == [] then NO_GUARD
      else if cs[0].HasBadge? then (if cs[0].name in known then Guard([], [cs[0].name]) else NO_GUARD)
      else if cs[0].NotHasBadge? then (if cs[0].name in known then Guard([cs[0].name], []) else NO_GUARD)
      else Compile(cs[0], known)
  }

  function CompileAll(cs: seq<Cond>, known: set<string>): Guard
    decreases cs, 0
  {
    if cs == [] then NO_GUARD else Both(Compile(cs[0], known), CompileAll(cs[1..], known))
  }

  lemma {:induction false} CompileAllSnoc(cs: seq<Cond>, c: Cond, known: set<string>)
    ensures CompileAll(cs + [c], known) == Both(CompileAll(cs, known), Compile(c, known))
  {
    hide Compile;
    if cs == [] {
      assert [c][1..] == [];
      assert CompileAll([c], known) == Both(Compile(c, known), NO_GUARD);
      assert [] + [c] == [c];
    } else {
      CompileAllSnoc(cs[1..], c, known);
      assert (cs + [c])[1..] == cs[1..] + [c];
    }
  }

  lemma NoChildren(g: Guard, known: set<string>)
    ensures Both(g, CompileAll([], known)) == g
  {
  }

  lemma ChildAdded(g: Guard, cs: seq<Cond>, k: nat, known: set<string>)
    requires k < |cs|
    ensures Both(Both(g, CompileAll(cs[..k], known)), Compile(cs[k], known)) == Both(g, CompileAll(cs[..k + 1], known))
  {
    hide Compile, CompileAll;
    CompileAllSnoc(cs[..k], cs[k], known);
    assert cs[..k + 1] == cs[..k] + [cs[k]];
  }

  /** The trigger's two lists, extended in place by the recursive walk over the condition. */
  class Trigger {
    var mustHave: seq<string>
    var mustNotHave: seq<string>

    constructor ()
      ensures Built() == NO_GUARD
    {
      mustHave, mustNotHave := [], [];
    }

    function Built(): Guard
      reads this
    {
      Guard(mustHave, mustNotHave)
    }

    method ApplyCondition(c: Cond, known: set<string>)
      modifies this
      ensures Built() == Both(old(Built()), Compile(c, known))
      decreases c, 1
    {
      match c {
        case HasBadge(n) =>
          if n in known {
            mustHave := mustHave + [n];
          }
        case NotHasBadge(n) =>
          if n in known {
            mustNotHave := mustNotHave + [n];
          }
        case And(cs) => ApplyChildren(c, cs, known);
        case Or(cs) => ApplyChildren(c, cs, known);
        case Not(cs) =>
          if cs != [] {
            match cs[0] {
              case HasBadge(n) =>
                if n in known {
                  mustNotHave := mustNotHave + [n];
                }
              case NotHasBadge(n) =>
                if n in known {
                  mustHave := mustHave + [n];
                }
              case _ => ApplyCondition(cs[0], known);
            }
          }
        case _ =>
      }
    }

    method ApplyChildren(ghost parent: Cond, cs: seq<Cond>, known: set<string>)
      requires parent == And(cs) || parent == Or(cs)
      modifies this
      ensures Built() == Both(old(Built()), CompileAll(cs, known))
      decreases parent, 0
    {
      hide Compile, CompileAll, Both;
      NoChildren(Built(), known);
      var k := 0;
      while k < |cs|
        invariant 0 <= k <= |cs|
        invariant Built() == Both(old(Built()), CompileAll(cs[..k], known))
      {
        ApplyCondition(cs[k], known);
        ChildAdded(old(Built()), cs, k, known);
        k := k + 1;
      }
      assert cs[..k] == cs;
    }
  }

  // ---------- Soundness ----------

  predicate BadgeLeaf(c: Cond, known: set<string>) {
    (c.HasBadge? || c.NotHasBadge?) && c.name in known
  }

  /** And/or trees over known badges, `not` over a badge only, and no `or` without alternatives. */
  predicate Plain(c: Cond, known: set<string>) {
    match c
    case HasBadge(n) => n in known
    case NotHasBadge(n) => n in known
    case And(cs) => forall k :: 0 <= k < |cs| ==> Plain(cs[k], known)
    case Or(cs) => cs != [] && forall k :: 0 <= k < |cs| ==> Plain(cs[k], known)
    case Not(cs) => cs != [] && BadgeLeaf(cs[0], known)
    case _ => false
  }

  /** No `or` offers more than one alternative. */
  predicate NoChoice(c: Cond) {
    match c
    case And(cs) => forall k :: 0 <= k < |cs| ==> NoChoice(cs[k])
    case Or(cs) => |cs| <= 1 && forall k :: 0 <= k < |cs| ==> NoChoice(cs[k])
    case _ => true
  }

  lemma {:induction false} SatisfiedAll(cs: seq<Cond>, known: set<string>, badges: set<string>)
    ensures Satisfied(CompileAll(cs, known), badges)
            <==> forall k :: 0 <= k < |cs| ==> Satisfied(Compile(cs[k], known), badges)
  {
    if cs != [] {
      SatisfiedAll(cs[1..], known, badges);
      var g, h := Compile(cs[0], known), CompileAll(cs[1..], known);
      assert Satisfied(Both(g, h), badges) <==> Satisfied(g, badges) && Satisfied(h, badges) by {
        assert forall n :: n in g.must + h.must <==> n in g.must || n in h.must;
        assert forall n :: n in g.mustNot + h.mustNot <==> n in g.mustNot || n in h.mustNot;
      }
      assert forall k :: 0 < k < |cs| ==> cs[k] == cs[1..][k - 1];
    }
  }

  /** A contact that passes the compiled guard satisfies the written condition. */
  lemma {:induction false} GuardIsSound(c: Cond, known: set<string>, badges: set<string>, tags: set<string>)
    requires Plain(c, known) && Satisfied(Compile(c, known), badges)
    ensures Holds(c, badges, tags)
  {
    match c
    case And(cs) =>
      SatisfiedAll(cs, known, badges);
      forall k | 0 <= k < |cs|
        ensures Holds(cs[k], badges, tags)
      {
        GuardIsSound(cs[k], known, badges, tags);
      }
    case Or(cs) =>
      SatisfiedAll(cs, known, badges);
      GuardIsSound(cs[0], known, badges, tags);
    case HasBadge(n) =>
      assert n in Compile(c, known).must;
    case NotHasBadge(n) =>
      assert n in Compile(c, known).mustNot;
    case Not(cs) =>
      assert cs[0].HasBadge? ==> cs[0].name in Compile(c, known).mustNot;
      assert cs[0].NotHasBadge? ==> cs[0].name in Compile(c, known).must;
  }

  /** Without a real choice, the guard lets through exactly the contacts the author meant. */
  lemma {:induction false} GuardIsExactWithoutChoice(c: Cond, known: set<string>, badges: set<string>, tags: set<string>)
    requires Plain(c, known) && NoChoice(c)
    ensures Satisfied(Compile(c, known), badges) <==> Holds(c, badges, tags)
  {
    match c
    case And(cs) =>
      SatisfiedAll(cs, known, badges);
      forall k | 0 <= k < |cs|
        ensures Satisfied(Compile(cs[k], known), badges) <==> Holds(cs[k], badges, tags)
      {
        GuardIsExactWithoutChoice(cs[k], known, badges, tags);
      }
    case Or(cs) =>
      SatisfiedAll(cs, known, badges);
      GuardIsExactWithoutChoice(cs[0], known, badges, tags);
    case _ =>
      if Satisfied(Compile(c, known), badges) {
        GuardIsSound(c, known, badges, tags);
      }
  }

  // ---------- Where the guard is not what was written ----------

  predicate Leaves(cs: seq<Cond>, known: set<string>) {
    forall k :: 0 <= k < |cs| ==> BadgeLeaf(cs[k], known)
  }

  /** The guard lets through exactly the contacts the author meant. */
  ghost predicate IsExact(c: Cond, known: set<string>) {
    forall badges, tags: set<string> :: Satisfied(Compile(c, known), badges) <==> Holds(c, badges, tags)
  }

  lemma ChoiceMeans(cs: seq<Cond>, known: set<string>, badges: set<string>, tags: set<string>)
    requires Leaves(cs, known)
    ensures Satisfied(Compile(Or(cs), known), badges) <==> forall k :: 0 <= k < |cs| ==> Holds(cs[k], badges, tags)
    ensures Holds(Or(cs), badges, tags) <==> exists k :: 0 <= k < |cs| && Holds(cs[k], badges, tags)
  {
    SatisfiedAll(cs, known, badges);
    forall k | 0 <= k < |cs|
      ensures Satisfied(Compile(cs[k], known), badges) <==> Holds(cs[k], badges, tags)
    {
      LeafIsExact(cs[k], known, badges, tags);
    }
  }

  /**
    A choice between badges compiles to all of them: exact only if it is no choice, that is, if there is an alternative
    and all the alternatives are the same.
  */
  lemma ChoiceIsExactIff(cs: seq<Cond>, known: set<string>)
    requires Leaves(cs, known)
    ensures IsExact(Or(cs), known) <==> cs != [] && forall k :: 0 <= k < |cs| ==> cs[k] == cs[0]
  {
    if cs == [] {
      ChoiceMeans(cs, known, {}, {});
    } else if forall k :: 0 <= k < |cs| ==> cs[k] == cs[0] {
      forall badges, tags: set<string>
        ensures Satisfied(Compile(Or(cs), known), badges) <==> Holds(Or(cs), badges, tags)
      {
        ChoiceMeans(cs, known, badges, tags);
        assert Holds(cs[0], badges, tags) ==> forall k :: 0 <= k < |cs| ==> Holds(cs[k], badges, tags);
      }
    } else {
      var k :| 0 <= k < |cs| && cs[k] != cs[0];
      var badges := Separating(cs[0], cs[k]);
      ChoiceMeans(cs, known, badges, {});
      assert Holds(cs[0], badges, {}) && !Holds(cs[k], badges, {});
      assert Holds(Or(cs), badges, {}) && !Satisfied(Compile(Or(cs), known), badges);
    }
  }

  lemma LeafIsExact(c: Cond, known: set<string>, badges: set<string>, tags: set<string>)
    requires BadgeLeaf(c, known)
    ensures Satisfied(Compile(c, known), badges) <==> Holds(c, badges, tags)
  {
    GuardIsExactWithoutChoice(c, known, badges, tags);
  }

  /** Badges under which the first of two different leaves holds and the second does not. */
  function Separating(a: Cond, b: Cond): set<string>
    requires (a.HasBadge? || a.NotHasBadge?) && (b.HasBadge? || b.NotHasBadge?)
  {
    (if a.HasBadge? then {a.name} else {}) + (if b.NotHasBadge? then {b.name} else {})
  }

  /** `not` over a block is ignored: the guard of the block itself is what is compiled. */
  lemma NegatedBlockIsNotNegated(cs: seq<Cond>, known: set<string>)
    ensures Compile(Not([And(cs)]), known) == Compile(And(cs), known)
    ensures Compile(Not([Or(cs)]), known) == Compile(Or(cs), known)
  {
  }

  /** Everyone the guard lets through satisfies the condition. */
  ghost predicate IsSound(c: Cond, known: set<string>) {
    forall badges, tags: set<string> :: Satisfied(Compile(c, known), badges) ==> Holds(c, badges, tags)
  }

  /** A badge is demanded and forbidden at once, so nobody passes. */
  predicate Contradictory(g: Guard) {
    exists n :: n in g.must && n in g.mustNot
  }

  lemma SatisfiableIff(g: Guard)
    ensures (exists badges :: Satisfied(g, badges)) <==> !Contradictory(g)
  {
    if !Contradictory(g) {
      assert Satisfied(g, set n | n in g.must);
    }
  }

  /** Every leaf that counts is a declared badge. */
  predicate Declared(c: Cond, known: set<string>) {
    match c
    case And(cs) => forall k :: 0 <= k < |cs| ==> Declared(cs[k], known)
    case Or(cs) => forall k :: 0 <= k < |cs| ==> Declared(cs[k], known)
    case Not(cs) => cs != [] ==> Declared(cs[0], known)
    case _ => BadgeLeaf(c, known)
  }

  /** What the condition is worth to a contact who passes its guard, and so has what every leaf asks for. */
  predicate Value(c: Cond) {
    match c
    case And(cs) => forall k :: 0 <= k < |cs| ==> Value(cs[k])
    case Or(cs) => exists k :: 0 <= k < |cs| && Value(cs[k])
    case Not(cs) => cs == [] || cs[0].HasBadge? || cs[0].NotHasBadge? || !Value(cs[0])
    case _ => true
  }

  lemma {:induction false} PassingDecides(c: Cond, known: set<string>, badges: set<string>, tags: set<string>)
    requires Declared(c, known) && Satisfied(Compile(c, known), badges)
    ensures Holds(c, badges, tags) <==> Value(c)
    decreases c, 1
  {
    match c
    case And(cs) => PassingDecidesAll(c, cs, known, badges, tags);
    case Or(cs) => PassingDecidesAll(c, cs, known, badges, tags);
    case Not(cs) =>
      if cs != [] {
        if cs[0].HasBadge? || cs[0].NotHasBadge? {
          GuardIsSound(c, known, badges, tags);
        } else {
          PassingDecides(cs[0], known, badges, tags);
        }
      }
    case _ => LeafIsExact(c, known, badges, tags);
  }

  lemma {:induction false} PassingDecidesAll(parent: Cond, cs: seq<Cond>, known: set<string>, badges: set<string>, tags: set<string>)
    requires parent == And(cs) || parent == Or(cs)
    requires Declared(parent, known) && Satisfied(CompileAll(cs, known), badges)
    ensures forall k :: 0 <= k < |cs| ==> (Holds(cs[k], badges, tags) <==> Value(cs[k]))
    decreases parent, 0
  {
    SatisfiedAll(cs, known, badges);
    forall k | 0 <= k < |cs|
      ensures Holds(cs[k], badges, tags) <==> Value(cs[k])
    {
      PassingDecides(cs[k], known, badges, tags);
    }
  }

  /**
    Exactly when the guard of a condition over declared badges is sound, however `and`, `or` and `not` are nested: nobody
    passes it, or the condition holds once every leaf has what it asks for.
  */
  lemma SoundIff(c: Cond, known: set<string>)
    requires Declared(c, known)
    ensures IsSound(c, known) <==> Contradictory(Compile(c, known)) || Value(c)
  {
    SatisfiableIff(Compile(c, known));
    if badges :| Satisfied(Compile(c, known), badges) {
      var none: set<string> := {};
      PassingDecides(c, known, badges, none);
    }
    forall badges, tags: set<string> | Satisfied(Compile(c, known), badges)
      ensures Holds(c, badges, tags) <==> Value(c)
    {
      PassingDecides(c, known, badges, tags);
    }
  }

  lemma {:induction false} PlainIsWorthIt(c: Cond, known: set<string>)
    requires Plain(c, known)
    ensures Declared(c, known) && Value(c)
  {
    match c
    case And(cs) =>
      forall k | 0 <= k < |cs|
        ensures Declared(cs[k], known) && Value(cs[k])
      {
        PlainIsWorthIt(cs[k], known);
      }
    case Or(cs) =>
      forall k | 0 <= k < |cs|
        ensures Declared(cs[k], known) && Value(cs[k])
      {
        PlainIsWorthIt(cs[k], known);
      }
      assert Value(cs[0]);
    case _ =>
  }

  /** For instance, a negated block is compiled like the block, so its guard is sound exactly if nobody passes it. */
  lemma NegatedBlockIsSoundIff(block: Cond, known: set<string>)
    requires (block.And? || block.Or?) && Plain(block, known)
    ensures IsSound(Not([block]), known) <==> Contradictory(Compile(block, known))
  {
    var c := Not([block]);
    assert c.children[0] == block;
    PlainIsWorthIt(block, known);
    SoundIff(c, known);
    NegatedBlockIsNotNegated(block.children, known);
  }

  /** So for a consistent block the compiled guard admits a contact the author excluded. */
  lemma NegatedBlockIsUnsound(cs: seq<Cond>, known: set<string>, badges: set<string>, tags: set<string>)
    requires Plain(And(cs), known) && Satisfied(Compile(And(cs), known), badges)
    ensures Satisfied(Compile(Not([And(cs)]), known), badges) && !Holds(Not([And(cs)]), badges, tags)
  {
    GuardIsSound(And(cs), known, badges, tags);
    assert Not([And(cs)]).children[0] == And(cs);
  }

  predicate Leaf(c: Cond) {
    c.HasBadge? || c.NotHasBadge? || c.HasTag? || c.NotHasTag?
  }

  /** A leaf is compiled soundly exactly if it names a declared badge: tags and undeclared badges guard nothing. */
  lemma LeafIsSoundIff(c: Cond, known: set<string>)
    requires Leaf(c)
    ensures IsSound(c, known) <==> BadgeLeaf(c, known)
  {
    if BadgeLeaf(c, known) {
      forall badges, tags: set<string> | Satisfied(Compile(c, known), badges)
        ensures Holds(c, badges, tags)
      {
        LeafIsExact(c, known, badges, tags);
      }
    } else {
      var none: set<string> := {};
      assert Satisfied(Compile(c, known), {c.name}) && Satisfied(Compile(c, known), none);
      assert !Holds(c, none, none) || !Holds(c, {c.name}, {c.name});
    }
  }

  // ---------- Who passes ----------

  /**
    Who is let through, said without the guard: only declared badges are asked for, tags and empty lists ask for nothing,
    `or` asks for as much as `and`, and `not` turns round a single badge and leaves anything else as it is.
  */
  predicate Passes(c: Cond, known: set<string>, badges: set<string>) {
    match c
    case HasBadge(n) => n in known ==> n in badges
    case NotHasBadge(n) => n in known ==> n !in badges
    case And(cs) => forall k :: 0 <= k < |cs| ==> Passes(cs[k], known, badges)
    case Or(cs) => forall k :: 0 <= k < |cs| ==> Passes(cs[k], known, badges)
    case Not(cs) =>
      cs != [] ==>
        if cs[0].HasBadge? then cs[0].name in known ==> cs[0].name !in badges
        else if cs[0].NotHasBadge? then cs[0].name in known ==> cs[0].name in badges
        else Passes(cs[0], known, badges)
    case _ => true
  }

  /** The guard of any condition lets through exactly these. */
  lemma {:induction false} PassesIff(c: Cond, known: set<string>, badges: set<string>)
    ensures Satisfied(Compile(c, known), badges) <==> Passes(c, known, badges)
    decreases c, 1
  {
    match c
    case And(cs) => PassAllIff(c, known, badges);
    case Or(cs) => PassAllIff(c, known, badges);
    case Not(cs) =>
      if cs != [] && !cs[0].HasBadge? && !cs[0].NotHasBadge? {
        PassesIff(cs[0], known, badges);
      }
    case _ =>
  }

  lemma {:induction false} PassAllIff(c: Cond, known: set<string>, badges: set<string>)
    requires c.And? || c.Or?
    ensures Satisfied(Compile(c, known), badges) <==> Passes(c, known, badges)
    decreases c, 0
  {
    SatisfiedAll(c.children, known, badges);
    forall k | 0 <= k < |c.children|
      ensures Satisfied(Compile(c.children[k], known), badges) <==> Passes(c.children[k], known, badges)
    {
      PassesIff(c.children[k], known, badges);
    }
  }
}
