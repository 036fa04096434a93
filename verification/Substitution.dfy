/**
  Parameter substitution in templates. The program replaces the placeholders of one parameter after the
  other, walking a map whose order is unspecified. Exactly when the result does not depend on that order; it is
  the simultaneous substitution then.
*/
module Substitution {

  /** Replacement of every non-overlapping occurrence, left to right. */
  function ReplaceAll(s: string, old_: string, new_: string): string
    requires old_ != ""
    decreases |s|
  {
    if |s| < |old_| then s
    else if s[..|old_|] == old_ then new_ + ReplaceAll(s[|old_|..], old_, new_)
    else [s[0]] + ReplaceAll(s[1..], old_, new_)
  }

  function Placeholder(name: string): (p: string)
    ensures p != ""
  {
    "${" + name + "}"
  }

  // ---------- Templates ----------

  datatype Seg = Lit(text: string) | Ref(name: string)

  predicate PlainName(name: string) {
    '$' !in name && '{' !in name && '}' !in name
  }

  predicate WellFormed(segs: seq<Seg>) {
    forall k :: 0 <= k < |segs| ==>
      match segs[k] case Lit(t) => '$' !in t case Ref(n) => PlainName(n)
  }

  function RenderSeg(seg: Seg): string {
    match seg case Lit(t) => t case Ref(n) => Placeholder(n)
  }

  function Render(segs: seq<Seg>): string {
    if segs == [] then "" else RenderSeg(segs[0]) + Render(segs[1..])
  }

  /** The dollar sign at `i` opens a placeholder that closes at `j`. */
  predicate OpensAt(s: string, i: int, j: int) {
    && 0 <= i && i + 2 <= j < |s| && s[i] == '$' && s[i + 1] == '{' && s[j] == '}'
    && PlainName(s[i + 2..j])
  }

  ghost predicate EveryDollarOpens(s: string) {
    forall i :: 0 <= i < |s| && s[i] == '$' ==> exists j :: OpensAt(s, i, j)
  }

  lemma DollarsOfSuffix(s: string, n: nat)
    requires n <= |s| && EveryDollarOpens(s)
    ensures EveryDollarOpens(s[n..])
  {
    forall i | 0 <= i < |s[n..]| && s[n..][i] == '$'
      ensures exists j :: OpensAt(s[n..], i, j)
    {
      assert s[n + i] == '$';
      var j :| OpensAt(s, n + i, j);
      assert s[n..][i + 2..j - n] == s[n + i + 2..j];
      assert OpensAt(s[n..], i, j - n);
    }
  }

  lemma OneMoreRef(s: string, j: nat, rest: seq<Seg>)
    requires OpensAt(s, 0, j) && WellFormed(rest) && Render(rest) == s[j + 1..]
    ensures WellFormed([Ref(s[2..j])] + rest) && Render([Ref(s[2..j])] + rest) == s
  {
    assert s == Placeholder(s[2..j]) + s[j + 1..];
  }

  lemma OneMoreLit(s: string, rest: seq<Seg>)
    requires s != "" && s[0] != '$' && WellFormed(rest) && Render(rest) == s[1..]
    ensures WellFormed([Lit(s[..1])] + rest) && Render([Lit(s[..1])] + rest) == s
  {
    assert s == s[..1] + s[1..];
  }

  /** Every string whose dollar signs all open a placeholder is a well-formed template. */
  lemma {:induction false} TemplateOf(s: string) returns (segs: seq<Seg>)
    requires EveryDollarOpens(s)
    ensures WellFormed(segs) && Render(segs) == s
    decreases |s|
  {
    if s == "" {
      segs := [];
    } else if s[0] == '$' {
      var j :| OpensAt(s, 0, j);
      DollarsOfSuffix(s, j + 1);
      var rest := TemplateOf(s[j + 1..]);
      segs := [Ref(s[2..j])] + rest;
      OneMoreRef(s, j, rest);
    } else {
      DollarsOfSuffix(s, 1);
      var rest := TemplateOf(s[1..]);
      segs := [Lit(s[..1])] + rest;
      OneMoreLit(s, rest);
    }
  }

  // ---------- One replacement ----------

  function FillOne(segs: seq<Seg>, name: string, value: string): (r: seq<Seg>)
    ensures |r| == |segs|
    ensures forall k :: 0 <= k < |segs| ==> r[k] == if segs[k] == Ref(name) then Lit(value) else segs[k]
  {
    seq(|segs|, k requires 0 <= k < |segs| => if segs[k] == Ref(name) then Lit(value) else segs[k])
  }

  /** An occurrence of `p` could begin in `v`: `p` occurs in it, or some end of it is a beginning of `p`. */
  predicate Meets(v: string, p: string) {
    exists i :: 0 <= i < |v| && (p <= v[i..] || v[i..] <= p)
  }

  lemma TailMeetsNothing(t: string, p: string)
    requires t != "" && !Meets(t, p)
    ensures !Meets(t[1..], p)
  {
    forall i | 0 <= i < |t[1..]|
      ensures !(p <= t[1..][i..]) && !(t[1..][i..] <= p)
    {
      assert t[1..][i..] == t[i + 1..];
    }
  }

  lemma DollarFreeMeetsNothing(t: string, name: string)
    requires '$' !in t
    ensures !Meets(t, Placeholder(name))
  {
    forall i | 0 <= i < |t|
      ensures !(Placeholder(name) <= t[i..]) && !(t[i..] <= Placeholder(name))
    {
      assert t[i..][0] == t[i] && t[i] in t && Placeholder(name)[0] == '$';
    }
  }

  lemma {:induction false} ReplaceSkipsText(t: string, rest: string, name: string, value: string)
    requires !Meets(t, Placeholder(name))
    ensures ReplaceAll(t + rest, Placeholder(name), value) == t + ReplaceAll(rest, Placeholder(name), value)
    decreases |t|
  {
    hide ReplaceAll, Meets, Placeholder;
    if t == "" {
      assert t + rest == rest;
    } else {
      var p, s := Placeholder(name), t + rest;
      NoOccurrenceHere(t, rest, p);
      assert s[1..] == t[1..] + rest;
      TailMeetsNothing(t, p);
      ReplaceSkipsText(t[1..], rest, name, value);
      ReplaceMovesOn(s, p, value);
      assert t == [t[0]] + t[1..];
    }
  }

  lemma NoOccurrenceHere(t: string, rest: string, p: string)
    requires t != "" && !Meets(t, p)
    ensures !(p <= t + rest)
  {
    assert t[0..] == t;
    if |p| <= |t| {
      assert (t + rest)[..|p|] == t[..|p|];
    } else if p <= t + rest {
      BeginsWith(t, rest, p);
      assert false;
    }
  }

  lemma BeginsWith(t: string, rest: string, p: string)
    requires p <= t + rest && |t| < |p|
    ensures t <= p
  {
    assert p[..|t|] == (t + rest)[..|t|] == t;
  }

  /** A placeholder is matched by its own name only. */
  lemma PlaceholdersDiffer(m: string, rest: string, name: string)
    requires PlainName(m) && PlainName(name) && m != name
    ensures !(Placeholder(name) <= Placeholder(m) + rest)
  {
    var p, q := Placeholder(name), Placeholder(m) + rest;
    assert forall k :: 0 <= k < |m| ==> q[k + 2] == m[k] && m[k] in m;
    assert forall k :: 0 <= k < |name| ==> p[k + 2] == name[k] && name[k] in name;
    if |name| < |m| {
      assert p[|name| + 2] == '}' && q[|name| + 2] == m[|name|];
    } else if |m| < |name| {
      assert q[|m| + 2] == '}' && p[|m| + 2] == name[|m|];
    } else {
      var k :| 0 <= k < |m| && m[k] != name[k];
      assert p[k + 2] != q[k + 2];
    }
  }

  lemma ReplaceSkipsRef(m: string, rest: string, name: string, value: string)
    requires PlainName(m) && PlainName(name) && m != name
    ensures ReplaceAll(Placeholder(m) + rest, Placeholder(name), value)
            == Placeholder(m) + ReplaceAll(rest, Placeholder(name), value)
  {
    var p, s := Placeholder(name), Placeholder(m) + rest;
    var tail := "{" + m + "}";
    PlaceholdersDiffer(m, rest, name);
    assert s == "$" + (tail + rest);
    assert s[1..] == tail + rest && s[0] == '$';
    RefIsSkipped(tail, rest, s, name, value);
    assert Placeholder(m) == "$" + tail;
  }

  lemma RefIsSkipped(tail: string, rest: string, s: string, name: string, value: string)
    requires '$' !in tail && s != "" && s[0] == '$' && s[1..] == tail + rest && !(Placeholder(name) <= s)
    ensures ReplaceAll(s, Placeholder(name), value) == "$" + tail + ReplaceAll(rest, Placeholder(name), value)
  {
    hide *;
    var p := Placeholder(name);
    ReplaceMovesOn(s, p, value);
    DollarFreeMeetsNothing(tail, name);
    ReplaceSkipsText(tail, rest, name, value);
    assert "$" + (tail + ReplaceAll(rest, p, value)) == "$" + tail + ReplaceAll(rest, p, value);
  }

  lemma ReplaceMovesOn(s: string, p: string, value: string)
    requires s != "" && p != "" && !(p <= s)
    ensures ReplaceAll(s, p, value) == [s[0]] + ReplaceAll(s[1..], p, value)
  {
  }

  lemma ReplaceTakesRef(rest: string, name: string, value: string)
    ensures ReplaceAll(Placeholder(name) + rest, Placeholder(name), value)
            == value + ReplaceAll(rest, Placeholder(name), value)
  {
    var p := Placeholder(name);
    assert (p + rest)[..|p|] == p && (p + rest)[|p|..] == rest;
  }

  /** No occurrence of the placeholder begins in a text of the template. */
  predicate ClearOf(segs: seq<Seg>, name: string) {
    forall k :: 0 <= k < |segs| ==>
      match segs[k] case Lit(t) => !Meets(t, Placeholder(name)) case Ref(n) => PlainName(n)
  }

  /** Replacing one placeholder in the text is filling it in the template. */
  lemma {:induction false} ReplaceIsFill(segs: seq<Seg>, name: string, value: string)
    requires ClearOf(segs, name) && PlainName(name)
    ensures ReplaceAll(Render(segs), Placeholder(name), value) == Render(FillOne(segs, name, value))
    decreases |segs|
  {
    if segs != [] {
      var rest := segs[1..];
      ReplaceIsFill(rest, name, value);
      assert FillOne(segs, name, value)[1..] == FillOne(rest, name, value);
      match segs[0]
      case Lit(t) => ReplaceSkipsText(t, Render(rest), name, value);
      case Ref(m) =>
        if m == name {
          ReplaceTakesRef(Render(rest), name, value);
        } else {
          ReplaceSkipsRef(m, Render(rest), name, value);
        }
    }
  }

  // ---------- All replacements, in any order ----------

  predicate PlainNames(params: map<string, string>) {
    forall n :: n in params ==> PlainName(n)
  }

  /** Replacing `n` does nothing to the value of another parameter, or to any text at all. */
  predicate Unharmed(params: map<string, string>, m: string, n: string)
    requires m in params && n in params
  {
    m == n || params[n] == Placeholder(n) || !Meets(params[m], Placeholder(n))
  }

  predicate Independent(params: map<string, string>) {
    forall m, n :: m in params && n in params ==> Unharmed(params, m, n)
  }

  /** For instance, no value holds a dollar sign. */
  lemma DollarFreeIsIndependent(params: map<string, string>)
    requires forall m :: m in params ==> '$' !in params[m]
    ensures Independent(params)
  {
    forall m, n | m in params && n in params
      ensures Unharmed(params, m, n)
    {
      DollarFreeMeetsNothing(params[m], n);
    }
  }

  /** Simultaneous substitution of the parameters named in `done`. */
  function Fill(segs: seq<Seg>, params: map<string, string>, done: set<string>): (r: seq<Seg>)
    ensures |r| == |segs|
    ensures forall k :: 0 <= k < |segs| ==>
      r[k] == if segs[k].Ref? && segs[k].name in params && segs[k].name in done then Lit(params[segs[k].name]) else segs[k]
  {
    seq(|segs|, k requires 0 <= k < |segs| =>
      if segs[k].Ref? && segs[k].name in params && segs[k].name in done then Lit(params[segs[k].name]) else segs[k])
  }

  lemma {:induction false} ReplacingByItself(s: string, p: string)
    requires p != ""
    ensures ReplaceAll(s, p, p) == s
    decreases |s|
  {
    if |s| >= |p| {
      if s[..|p|] == p {
        ReplacingByItself(s[|p|..], p);
        assert s == p + s[|p|..];
      } else {
        ReplacingByItself(s[1..], p);
        assert s == [s[0]] + s[1..];
      }
    }
  }

  lemma {:induction false} SameText(xs: seq<Seg>, ys: seq<Seg>)
    requires |xs| == |ys| && forall k :: 0 <= k < |xs| ==> RenderSeg(xs[k]) == RenderSeg(ys[k])
    ensures Render(xs) == Render(ys)
  {
    if xs != [] {
      SameText(xs[1..], ys[1..]);
    }
  }

  lemma FillStep(segs: seq<Seg>, params: map<string, string>, done: set<string>, name: string)
    requires WellFormed(segs) && PlainNames(params) && Independent(params) && name in params && name !in done
    ensures ReplaceAll(Render(Fill(segs, params, done)), Placeholder(name), params[name])
            == Render(Fill(segs, params, done + {name}))
  {
    var filled, next := Fill(segs, params, done), Fill(segs, params, done + {name});
    if params[name] == Placeholder(name) {
      ReplacingByItself(Render(filled), Placeholder(name));
      SameText(filled, next);
    } else {
      FilledIsClear(segs, params, done, name);
      ReplaceIsFill(filled, name, params[name]);
      assert FillOne(filled, name, params[name]) == next;
    }
  }

  lemma FilledIsClear(segs: seq<Seg>, params: map<string, string>, done: set<string>, name: string)
    requires WellFormed(segs) && Independent(params) && name in params && name !in done && params[name] != Placeholder(name)
    ensures ClearOf(Fill(segs, params, done), name)
  {
    var filled := Fill(segs, params, done);
    forall k | 0 <= k < |filled|
      ensures match filled[k] case Lit(t) => !Meets(t, Placeholder(name)) case Ref(n) => PlainName(n)
    {
      if segs[k].Lit? {
        DollarFreeMeetsNothing(segs[k].text, name);
      } else if filled[k].Lit? {
        assert Unharmed(params, segs[k].name, name);
      }
    }
  }

  /** The replacements of the names in `order`, one after the other. */
  function ReplaceInOrder(s: string, params: map<string, string>, order: seq<string>): string
    requires forall k :: 0 <= k < |order| ==> order[k] in params
  {
    if order == [] then s
    else
      var n := |order| - 1;
      ReplaceAll(ReplaceInOrder(s, params, order[..n]), Placeholder(order[n]), params[order[n]])
  }

  predicate Distinct(order: seq<string>) {
    forall j, k :: 0 <= j < k < |order| ==> order[j] != order[k]
  }

  function Names(order: seq<string>): (r: set<string>)
    ensures forall x :: x in r <==> x in order
  {
    if order == [] then {}
    else
      var n := |order| - 1;
      assert order == order[..n] + [order[n]];
      Names(order[..n]) + {order[n]}
  }

  lemma {:induction false} InOrderIsFill(segs: seq<Seg>, params: map<string, string>, order: seq<string>)
    requires WellFormed(segs) && PlainNames(params) && Independent(params) && Distinct(order)
    requires forall k :: 0 <= k < |order| ==> order[k] in params
    ensures ReplaceInOrder(Render(segs), params, order) == Render(Fill(segs, params, Names(order)))
    decreases |order|
  {
    if order == [] {
      assert Fill(segs, params, Names(order)) == segs;
    } else {
      var n := |order| - 1;
      InOrderIsFill(segs, params, order[..n]);
      FillStep(segs, params, Names(order[..n]), order[n]);
    }
  }

  predicate Enumerates(order: seq<string>, params: map<string, string>) {
    Distinct(order) && (forall k :: 0 <= k < |order| ==> order[k] in params) && (forall n :: n in params ==> n in order)
  }

  /** Any two iteration orders of independent parameters give the same text, and it is the simultaneous substitution. */
  lemma OrderDoesNotMatter(segs: seq<Seg>, params: map<string, string>, order1: seq<string>, order2: seq<string>)
    requires WellFormed(segs) && PlainNames(params) && Independent(params)
    requires Enumerates(order1, params) && Enumerates(order2, params)
    ensures ReplaceInOrder(Render(segs), params, order1) == ReplaceInOrder(Render(segs), params, order2)
    ensures ReplaceInOrder(Render(segs), params, order1) == Render(Fill(segs, params, params.Keys))
  {
    InOrderIsFill(segs, params, order1);
    InOrderIsFill(segs, params, order2);
    assert Names(order1) == params.Keys && Names(order2) == params.Keys;
  }

  // ---------- Where the order shows ----------

  predicate Occurs(s: string, p: string) {
    exists i :: 0 <= i <= |s| && p <= s[i..]
  }

  lemma {:induction false} ReplaceGrows(s: string, p: string, w: string)
    requires p != ""
    ensures |w| >= |p| ==> |ReplaceAll(s, p, w)| >= |s|
    ensures |w| <= |p| ==> |ReplaceAll(s, p, w)| <= |s|
    decreases |s|
  {
    if |s| >= |p| {
      if s[..|p|] == p {
        ReplaceGrows(s[|p|..], p, w);
      } else {
        ReplaceGrows(s[1..], p, w);
      }
    }
  }

  lemma ReplaceHere(s: string, p: string, w: string)
    requires p != "" && p <= s
    ensures ReplaceAll(s, p, w) == w + ReplaceAll(s[|p|..], p, w)
  {
    assert s[..|p|] == p;
  }

  /** Replacing something that occurs by something else changes the text. */
  lemma {:induction false} ReplaceChanges(s: string, p: string, w: string)
    requires p != "" && w != p && Occurs(s, p)
    ensures ReplaceAll(s, p, w) != s
    decreases |s|
  {
    hide ReplaceAll;
    if p <= s {
      ReplaceHere(s, p, w);
      ReplaceGrows(s[|p|..], p, w);
      OtherStart(s, p, w, ReplaceAll(s[|p|..], p, w));
    } else {
      OccursLater(s, p);
      ReplaceMovesOn(s, p, w);
      ReplaceChanges(s[1..], p, w);
      assert ([s[0]] + ReplaceAll(s[1..], p, w))[1..] == ReplaceAll(s[1..], p, w);
    }
  }

  lemma OtherStart(s: string, p: string, w: string, rest: string)
    requires p <= s && w != p
    requires |w| >= |p| ==> |rest| >= |s| - |p|
    requires |w| <= |p| ==> |rest| <= |s| - |p|
    ensures w + rest != s
  {
    if |w| == |p| {
      assert (w + rest)[..|p|] == w && s[..|p|] == p;
    } else {
      assert |w + rest| != |s|;
    }
  }

  lemma OccursLater(s: string, p: string)
    requires p != "" && Occurs(s, p) && !(p <= s)
    ensures s != "" && Occurs(s[1..], p)
  {
    var i :| 0 <= i <= |s| && p <= s[i..];
    assert s[0..] == s;
    assert s[1..][i - 1..] == s[i..];
  }

  lemma OneDollar(name: string, k: int)
    requires PlainName(name) && 0 < k < |Placeholder(name)|
    ensures Placeholder(name)[k] != '$'
  {
    assert 2 <= k < |name| + 2 ==> Placeholder(name)[k] == name[k - 2] && name[k - 2] in name;
  }

  /** What is missing after `v` for the placeholder that begins in it. */
  lemma Completion(v: string, name: string) returns (rest: string)
    requires PlainName(name) && Meets(v, Placeholder(name))
    ensures '$' !in rest && Occurs(v + rest, Placeholder(name))
  {
    var p := Placeholder(name);
    var i :| 0 <= i < |v| && (p <= v[i..] || v[i..] <= p);
    if p <= v[i..] {
      rest := "";
      assert v + rest == v;
    } else {
      var n := |v| - i;
      rest := p[n..];
      forall k | 0 <= k < |rest|
        ensures rest[k] != '$'
      {
        OneDollar(name, n + k);
      }
      hide Placeholder;
      assert (v + rest)[i..] == v[i..] + rest == p;
    }
  }

  /** A template of one reference and text: what replacing one parameter makes of it. */
  lemma OneReference(m: string, rest: string, name: string, value: string)
    requires PlainName(m) && PlainName(name) && '$' !in rest
    ensures ReplaceAll(Placeholder(m) + rest, Placeholder(name), value) == (if name == m then value else Placeholder(m)) + rest
  {
    DollarFreeMeetsNothing(rest, name);
    ReplaceSkipsText(rest, "", name, value);
    assert rest + "" == rest && ReplaceAll("", Placeholder(name), value) == "";
    if name == m {
      ReplaceTakesRef(rest, name, value);
    } else {
      ReplaceSkipsRef(m, rest, name, value);
    }
  }

  lemma {:induction false} OthersLeaveIt(m: string, rest: string, params: map<string, string>, order: seq<string>)
    requires PlainNames(params) && PlainName(m) && '$' !in rest
    requires forall k :: 0 <= k < |order| ==> order[k] in params && order[k] != m
    ensures ReplaceInOrder(Placeholder(m) + rest, params, order) == Placeholder(m) + rest
    decreases |order|
  {
    if order != [] {
      var n := |order| - 1;
      OthersLeaveIt(m, rest, params, order[..n]);
      OneReference(m, rest, order[n], params[order[n]]);
    }
  }

  lemma InOrderSnoc(s: string, params: map<string, string>, order: seq<string>, n: string)
    requires n in params && forall k :: 0 <= k < |order| ==> order[k] in params
    ensures ReplaceInOrder(s, params, order + [n]) == ReplaceAll(ReplaceInOrder(s, params, order), Placeholder(n), params[n])
  {
    assert (order + [n])[..|order + [n]| - 1] == order;
  }

  /** The names of a set, in some order. */
  lemma {:induction false} SomeOrder(names: set<string>) returns (order: seq<string>)
    ensures Distinct(order) && forall x :: x in order <==> x in names
    decreases |names|
  {
    order := [];
    if x :| x in names {
      var before := SomeOrder(names - {x});
      order := before + [x];
      assert forall k :: 0 <= k < |before| ==> before[k] in before;
      assert forall y :: y in order <==> y in before || y == x;
    }
  }

  ghost predicate OrderShows(params: map<string, string>) {
    exists segs, order1, order2 ::
      WellFormed(segs) && Enumerates(order1, params) && Enumerates(order2, params)
      && ReplaceInOrder(Render(segs), params, order1) != ReplaceInOrder(Render(segs), params, order2)
  }

  lemma OrdersOf(params: map<string, string>, m: string, n: string) returns (others: seq<string>)
    requires m in params && n in params && m != n
    ensures forall k :: 0 <= k < |others| ==> others[k] in params && others[k] != m
    ensures Enumerates(others + [m] + [n], params) && Enumerates(others + [n] + [m], params)
  {
    others := SomeOrder(params.Keys - {m, n});
    assert forall k :: 0 <= k < |others| ==> others[k] in others;
    assert forall x :: x in others + [m] + [n] <==> x in others || x == m || x == n;
    assert forall x :: x in others + [n] + [m] <==> x in others || x == m || x == n;
  }

  /** The reference to `m`, with the rest of a placeholder of `n` behind it: `n` after `m` finds it, `n` before `m` does not. */
  lemma HarmShows(params: map<string, string>, m: string, n: string)
    requires PlainNames(params) && m in params && n in params && !Unharmed(params, m, n)
    ensures OrderShows(params)
  {
    hide Meets, Occurs, ReplaceAll, ReplaceInOrder, Placeholder, Fill;
    var rest := Completion(params[m], n);
    var others := OrdersOf(params, m, n);
    OthersLeaveIt(m, rest, params, others);
    TwoOrders(params, m, n, rest, others);
    var segs := HarmedTemplate(m, rest);
    assert ReplaceInOrder(Render(segs), params, others + [m] + [n]) != ReplaceInOrder(Render(segs), params, others + [n] + [m]);
  }

  lemma HarmedTemplate(m: string, rest: string) returns (segs: seq<Seg>)
    requires PlainName(m) && '$' !in rest
    ensures WellFormed(segs) && Render(segs) == Placeholder(m) + rest
  {
    hide Placeholder;
    segs := [Ref(m), Lit(rest)];
    assert segs[1..] == [Lit(rest)] && [Lit(rest)][1..] == [] && rest + "" == rest;
    assert Render([Lit(rest)]) == rest;
  }

  lemma TwoOrders(params: map<string, string>, m: string, n: string, rest: string, others: seq<string>)
    requires PlainNames(params) && m in params && n in params && m != n && params[n] != Placeholder(n)
    requires '$' !in rest && Occurs(params[m] + rest, Placeholder(n))
    requires forall k :: 0 <= k < |others| ==> others[k] in params
    requires ReplaceInOrder(Placeholder(m) + rest, params, others) == Placeholder(m) + rest
    ensures ReplaceInOrder(Placeholder(m) + rest, params, others + [m] + [n])
         != ReplaceInOrder(Placeholder(m) + rest, params, others + [n] + [m])
  {
    hide Meets, Occurs, ReplaceAll, ReplaceInOrder, Placeholder;
    var s := Placeholder(m) + rest;
    InOrderSnoc(s, params, others, m);
    InOrderSnoc(s, params, others + [m], n);
    InOrderSnoc(s, params, others, n);
    InOrderSnoc(s, params, others + [n], m);
    OneReference(m, rest, m, params[m]);
    OneReference(m, rest, n, params[n]);
    ReplaceChanges(params[m] + rest, Placeholder(n), params[n]);
  }

  /**
    Exactly when the order of the parameter map shows in no template: replacing any parameter does nothing to the value
    of another one, because its placeholder neither occurs in that value nor can begin at its end.
  */
  lemma OrderShowsIff(params: map<string, string>)
    requires PlainNames(params)
    ensures OrderShows(params) <==> !Independent(params)
  {
    if Independent(params) {
      forall segs, order1, order2 | WellFormed(segs) && Enumerates(order1, params) && Enumerates(order2, params)
        ensures ReplaceInOrder(Render(segs), params, order1) == ReplaceInOrder(Render(segs), params, order2)
      {
        OrderDoesNotMatter(segs, params, order1, order2);
      }
    } else {
      var m, n :| m in params && n in params && !Unharmed(params, m, n);
      HarmShows(params, m, n);
    }
  }

  /** The substitution helper, with the map walked in whatever order the runtime picks. */
  method SubstituteParams(s: string, params: map<string, string>) returns (result: string)
    ensures s != "" && s in params ==> result == params[s]
    ensures s == "" ==> result == s
    ensures forall segs :: WellFormed(segs) && Render(segs) == s && s !in params && PlainNames(params) && Independent(params) ==>
      result == Render(Fill(segs, params, params.Keys))
  {
    if s == "" {
      EmptyTemplate(params);
      return s;
    }
    if s in params {
      return params[s];
    }
    result := s;
    var left := params.Keys;
    ghost var done: set<string> := {};
    NothingFilled(s, params);
    while left != {}
      invariant left <= params.Keys && done == params.Keys - left
      invariant forall segs :: WellFormed(segs) && Render(segs) == s && PlainNames(params) && Independent(params) ==>
        result == Render(Fill(segs, params, done))
      decreases |left|
    {
      var name :| name in left;
      var next := ReplaceAll(result, Placeholder(name), params[name]);
      forall segs | WellFormed(segs) && Render(segs) == s && PlainNames(params) && Independent(params)
        ensures next == Render(Fill(segs, params, done + {name}))
      {
        FillStep(segs, params, done, name);
      }
      result, left, done := next, left - {name}, done + {name};
    }
    assert done == params.Keys;
  }

  lemma NothingFilled(s: string, params: map<string, string>)
    ensures forall segs :: WellFormed(segs) && Render(segs) == s ==> s == Render(Fill(segs, params, {}))
  {
    forall segs | WellFormed(segs) && Render(segs) == s
      ensures s == Render(Fill(segs, params, {}))
    {
      assert Fill(segs, params, {}) == segs;
    }
  }

  lemma {:induction false} EmptyFilled(segs: seq<Seg>, params: map<string, string>)
    requires Render(segs) == ""
    ensures Render(Fill(segs, params, params.Keys)) == ""
    decreases |segs|
  {
    if segs != [] {
      assert RenderSeg(segs[0]) == "" && Render(segs[1..]) == "";
      assert segs[0] == Lit("");
      EmptyFilled(segs[1..], params);
      assert Fill(segs, params, params.Keys)[1..] == Fill(segs[1..], params, params.Keys);
    }
  }

  lemma EmptyTemplate(params: map<string, string>)
    ensures forall segs :: WellFormed(segs) && Render(segs) == "" ==> Render(Fill(segs, params, params.Keys)) == ""
  {
    forall segs | WellFormed(segs) && Render(segs) == ""
      ensures Render(Fill(segs, params, params.Keys)) == ""
    {
      EmptyFilled(segs, params);
    }
  }
}
