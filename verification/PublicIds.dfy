/**
  The public ids of one compilation: a prefix, the compilation's session code and a counter. All ids differ,
  and the badges' and tags' ids depend on the names alone, not on the order in which a map yields them.
*/
module PublicIds {

  // ---------- Ids and their numbers ----------

  function Digit(d: nat): char
    requires d < 10
  {
    '0' + d as char
  }

  function Decimal(n: nat): string {
    if n < 10 then [Digit(n)] else Decimal(n / 10) + [Digit(n % 10)]
  }

  function Format(prefix: string, session: string, n: nat): string {
    "sscript_" + prefix + "_" + session + "_" + Decimal(n)
  }

  /** The number a string ends in. */
  function Number(id: string): nat {
    if id == "" || !('0' <= id[|id| - 1] <= '9') then 0
    else 10 * Number(id[..|id| - 1]) + (id[|id| - 1] as int - '0' as int)
  }

  lemma {:induction false} NumberOfDecimal(s: string, n: nat)
    requires Number(s) == 0
    ensures Number(s + Decimal(n)) == n
  {
    var id := s + Decimal(n);
    if n < 10 {
      assert id[..|id| - 1] == s;
    } else {
      NumberOfDecimal(s, n / 10);
      assert id[..|id| - 1] == s + Decimal(n / 10);
    }
  }

  /** The counter can be read back from an id, whatever the prefix and the session: ids of different counts differ. */
  lemma NumberOfId(prefix: string, session: string, n: nat)
    ensures Number(Format(prefix, session, n)) == n
  {
    NumberOfDecimal("sscript_" + prefix + "_" + session + "_", n);
  }

  /** The parts of an id between its underscores. */
  function Parts(id: string): (r: seq<string>)
    ensures r != []
    decreases |id|
  {
    if id == "" then [""]
    else if id[0] == '_' then [""] + Parts(id[1..])
    else
      var rest := Parts(id[1..]);
      [[id[0]] + rest[0]] + rest[1..]
  }

  lemma {:induction false} FirstPart(a: string, rest: string)
    requires '_' !in a
    ensures Parts(a + "_" + rest) == [a] + Parts(rest) && Parts(a) == [a]
    decreases |a|
  {
    var id := a + "_" + rest;
    if a == "" {
      assert id[1..] == rest;
    } else {
      assert id[1..] == a[1..] + "_" + rest;
      FirstPart(a[1..], rest);
      assert a == [a[0]] + a[1..];
    }
  }

  lemma {:induction false} DecimalIsDigits(n: nat)
    ensures '_' !in Decimal(n)
  {
    if n >= 10 {
      DecimalIsDigits(n / 10);
    }
  }

  /** An id says what it is for, which compilation made it and how many came before, in this order. */
  lemma IdParts(prefix: string, session: string, n: nat)
    requires '_' !in prefix && '_' !in session
    ensures Parts(Format(prefix, session, n)) == ["sscript", prefix, session, Decimal(n)]
  {
    hide Parts, Format, Decimal;
    var last := Decimal(n);
    DecimalIsDigits(n);
    FirstPart(last, "");
    FirstPart(session, last);
    FirstPart(prefix, session + "_" + last);
    FirstPart("sscript", prefix + "_" + (session + "_" + last));
    FormatIsJoined(prefix, session, n);
    assert ["sscript"] + ([prefix] + ([session] + [last])) == ["sscript", prefix, session, last];
  }

  lemma FormatIsJoined(prefix: string, session: string, n: nat)
    ensures Format(prefix, session, n) == "sscript" + "_" + (prefix + "_" + (session + "_" + Decimal(n)))
  {
    hide Decimal;
    assert "sscript_" == "sscript" + "_";
    var a, b, c, d := "sscript" + "_", prefix, session, Decimal(n);
    assert (((a + b) + "_") + c) + "_" + d == a + (b + "_" + (c + "_" + d));
  }

  // ---------- The order of names ----------

  predicate Before(a: string, b: string) {
    b != "" && (a == "" || a[0] < b[0] || (a[0] == b[0] && Before(a[1..], b[1..])))
  }

  /** A name comes before another at the first rune in which they differ, or when it is cut off there. */
  lemma {:induction false} BeforeIff(a: string, b: string)
    ensures Before(a, b) <==>
      exists k :: 0 <= k <= |a| && k < |b| && a[..k] == b[..k] && (k == |a| || a[k] < b[k])
    decreases |a|
  {
    forall k | 0 < k <= |a| && k < |b| && a[..k] == b[..k]
      ensures a[0] == b[0]
    {
      assert a[..k][0] == b[..k][0];
    }
    if a != "" && b != "" && a[0] == b[0] {
      BeforeIff(a[1..], b[1..]);
      if k :| 0 <= k <= |a| && k < |b| && a[..k] == b[..k] && (k == |a| || a[k] < b[k]) {
        assert a[1..][..k - 1] == a[..k][1..] && b[1..][..k - 1] == b[..k][1..];
      }
      if k :| 0 <= k <= |a[1..]| && k < |b[1..]| && a[1..][..k] == b[1..][..k] && (k == |a[1..]| || a[1..][k] < b[1..][k]) {
        assert a[..k + 1] == [a[0]] + a[1..][..k] && b[..k + 1] == [b[0]] + b[1..][..k];
      }
    } else {
      assert a[..0] == b[..0];
    }
  }

  lemma {:induction false} BeforeTotal(a: string, b: string)
    ensures a == b || Before(a, b) || Before(b, a)
    ensures !(Before(a, b) && Before(b, a))
    decreases |a| + |b|
  {
    if a != "" && b != "" {
      BeforeTotal(a[1..], b[1..]);
      if a[0] == b[0] && a[1..] == b[1..] {
        assert a == [a[0]] + a[1..] && b == [b[0]] + b[1..];
      }
    }
  }

  lemma {:induction false} BeforeIrreflexive(a: string)
    ensures !Before(a, a)
  {
    if a != "" {
      BeforeIrreflexive(a[1..]);
    }
  }

  lemma {:induction false} BeforeTransitive(a: string, b: string, c: string)
    requires Before(a, b) && Before(b, c)
    ensures Before(a, c)
    decreases |a|
  {
    if a != "" && a[0] == b[0] && b[0] == c[0] {
      BeforeTransitive(a[1..], b[1..], c[1..]);
    }
  }

  predicate Ascending(names: seq<string>) {
    forall j, k :: 0 <= j < k < |names| ==> Before(names[j], names[k])
  }

  /** One more name put in its place, as a sort does. */
  function Placed(names: seq<string>, x: string): (r: seq<string>)
    ensures forall y :: y in r <==> y == x || y in names
    ensures |r| == |names| + 1
  {
    if names == [] || Before(x, names[0]) then [x] + names
    else
      assert names == [names[0]] + names[1..];
      [names[0]] + Placed(names[1..], x)
  }

  lemma {:induction false} PlacedAscending(names: seq<string>, x: string)
    requires Ascending(names) && x !in names
    ensures Ascending(Placed(names, x))
  {
    var r := Placed(names, x);
    if names == [] {
    } else if Before(x, names[0]) {
      forall k | 0 <= k < |names|
        ensures Before(x, names[k])
      {
        if k > 0 {
          BeforeTransitive(x, names[0], names[k]);
        }
      }
    } else {
      var rest := Placed(names[1..], x);
      PlacedAscending(names[1..], x);
      BeforeTotal(x, names[0]);
      assert r == [names[0]] + rest;
      forall k | 0 <= k < |rest|
        ensures Before(names[0], rest[k])
      {
        assert rest[k] in rest;
        if rest[k] != x {
          var i :| 0 <= i < |names[1..]| && names[1..][i] == rest[k];
          assert names[i + 1] == rest[k];
        }
      }
    }
  }

  function Rank(names: set<string>, x: string): nat {
    |set y | y in names && Before(y, x)|
  }

  lemma {:induction false} PrefixSize(names: seq<string>, k: nat)
    requires Ascending(names) && k <= |names|
    ensures |set i | 0 <= i < k :: names[i]| == k
  {
    if k > 0 {
      PrefixSize(names, k - 1);
      var before := set i | 0 <= i < k - 1 :: names[i];
      BeforeIrreflexive(names[k - 1]);
      assert names[k - 1] !in before;
      assert (set i | 0 <= i < k :: names[i]) == before + {names[k - 1]};
    }
  }

  /** In an ascending list, the place of a name is the number of names before it. */
  lemma PlaceIsRank(names: seq<string>, all: set<string>, k: nat)
    requires Ascending(names) && k < |names| && (forall x :: x in names <==> x in all)
    ensures Rank(all, names[k]) == k
  {
    var before := set y | y in all && Before(y, names[k]);
    var prefix := set i | 0 <= i < k :: names[i];
    forall y | y in before
      ensures y in prefix
    {
      assert y in names;
      var i :| 0 <= i < |names| && names[i] == y;
      BeforeIrreflexive(names[k]);
      BeforeTotal(names[i], names[k]);
      assert i < k;
    }
    forall y | y in prefix
      ensures y in before
    {
      var i :| 0 <= i < k && names[i] == y;
      assert names[i] in names;
    }
    assert before == prefix;
    PrefixSize(names, k);
  }

  // ---------- The generator ----------

  /** The k-th id issued carries the counter value k + 1. */
  ghost predicate Numbered(issued: seq<string>) {
    forall k :: 0 <= k < |issued| ==> Number(issued[k]) == k + 1
  }

  class IdGenerator {
    var counter: nat
    const session: string
    ghost var issued: seq<string>

    ghost predicate Valid()
      reads this
    {
      |issued| == counter && Numbered(issued)
    }

    constructor (session: string)
      ensures Valid() && counter == 0 && this.session == session && issued == []
    {
      counter, issued := 0, [];
      this.session := session;
    }

    /** The next id, different from every id issued before. */
    method Generate(prefix: string) returns (id: string)
      requires Valid()
      modifies this
      ensures Valid() && counter == old(counter) + 1 && issued == old(issued) + [id]
      ensures id == Format(prefix, session, counter)
      ensures id !in old(issued)
    {
      counter := counter + 1;
      id := Format(prefix, session, counter);
      NumberOfId(prefix, session, counter);
      issued := issued + [id];
    }

    /** One id per name, in the order of the list. */
    method GenerateAll(prefix: string, names: seq<string>) returns (ids: map<string, string>)
      requires Valid() && Ascending(names)
      modifies this
      ensures Valid() && counter == old(counter) + |names| && old(issued) <= issued
      ensures IdsByPlace(ids, names, prefix, session, old(counter))
    {
      ids := map[];
      ghost var start := counter;
      for k := 0 to |names|
        invariant Valid() && counter == start + k && old(issued) <= issued
        invariant IdsByPlace(ids, names[..k], prefix, session, start)
      {
        var id := Generate(prefix);
        OneMoreName(ids, names, k, prefix, session, start);
        ids := ids[names[k] := id];
      }
      assert names[..|names|] == names;
    }

    /** Badges (or tags) are created up front: a name's id is fixed by its rank among the names. */
    method Precreate(prefix: string, names: set<string>) returns (ids: map<string, string>)
      requires Valid()
      modifies this
      ensures Valid() && counter == old(counter) + |names| && old(issued) <= issued
      ensures IdsByRank(ids, names, prefix, session, old(counter))
    {
      ghost var start := counter;
      var sorted := SortedNames(names);
      ids := GenerateAll(prefix, sorted);
      PlacesGiveRanks(ids, sorted, names, prefix, session, start);
    }
  }

  // ---------- Numbering lists and sets of names ----------

  ghost predicate IdsByPlace(ids: map<string, string>, names: seq<string>, prefix: string, session: string, start: nat) {
    && (forall x :: x in ids <==> x in names)
    && forall k :: 0 <= k < |names| ==> ids[names[k]] == Format(prefix, session, start + 1 + k)
  }

  ghost predicate IdsByRank(ids: map<string, string>, names: set<string>, prefix: string, session: string, start: nat) {
    && ids.Keys == names
    && forall x :: x in names ==> ids[x] == Format(prefix, session, start + 1 + Rank(names, x))
  }

  lemma OneMoreName(ids: map<string, string>, names: seq<string>, k: nat, prefix: string, session: string, start: nat)
    requires Ascending(names) && k < |names| && IdsByPlace(ids, names[..k], prefix, session, start)
    ensures IdsByPlace(ids[names[k] := Format(prefix, session, start + 1 + k)], names[..k + 1], prefix, session, start)
  {
    BeforeIrreflexive(names[k]);
    assert names[..k + 1] == names[..k] + [names[k]];
    assert forall j :: 0 <= j < k ==> names[j] != names[k];
    assert forall j :: 0 <= j < k ==> names[..k][j] == names[j];
  }

  lemma PlacesGiveRanks(
      ids: map<string, string>, names: seq<string>, all: set<string>, prefix: string, session: string, start: nat)
    requires IdsByPlace(ids, names, prefix, session, start)
    requires Ascending(names) && (forall x :: x in names <==> x in all)
    ensures IdsByRank(ids, all, prefix, session, start)
  {
    forall x | x in all
      ensures ids[x] == Format(prefix, session, start + 1 + Rank(all, x))
    {
      RanksArePlaces(names, all);
      assert ids[names[Rank(all, x)]] == Format(prefix, session, start + 1 + Rank(all, x));
    }
  }

  /** The names in ascending order, collected in whatever order the set yields them. */
  method SortedNames(names: set<string>) returns (sorted: seq<string>)
    ensures Ascending(sorted) && |sorted| == |names|
    ensures forall x :: x in sorted <==> x in names
  {
    sorted := [];
    var left := names;
    while left != {}
      invariant left <= names && Ascending(sorted) && |sorted| + |left| == |names|
      invariant forall x :: x in sorted <==> x in names && x !in left
      decreases |left|
    {
      var x :| x in left;
      PlacedAscending(sorted, x);
      sorted, left := Placed(sorted, x), left - {x};
    }
  }

  lemma RanksArePlaces(names: seq<string>, all: set<string>)
    requires Ascending(names) && (forall x :: x in names <==> x in all)
    ensures forall x :: x in all ==> 0 <= Rank(all, x) < |names| && names[Rank(all, x)] == x
  {
    forall x | x in all
      ensures 0 <= Rank(all, x) < |names| && names[Rank(all, x)] == x
    {
      assert x in names;
      var k :| 0 <= k < |names| && names[k] == x;
      PlaceIsRank(names, all, k);
    }
  }

  /** The ascending listing of a set of names is unique: no map order can show in the numbering. */
  lemma AscendingListingIsUnique(a: seq<string>, b: seq<string>, all: set<string>)
    requires Ascending(a) && Ascending(b)
    requires (forall x :: x in a <==> x in all) && (forall x :: x in b <==> x in all)
    ensures a == b
  {
    RanksFit(a, b, all);
    RanksFit(b, a, all);
    RanksArePlaces(b, all);
    forall k | 0 <= k < |a|
      ensures a[k] == b[k]
    {
      assert a[k] in a;
      PlaceIsRank(a, all, k);
    }
  }

  lemma RanksFit(a: seq<string>, b: seq<string>, all: set<string>)
    requires Ascending(a) && Ascending(b)
    requires (forall x :: x in a <==> x in all) && (forall x :: x in b <==> x in all)
    ensures |a| <= |b|
  {
    if a != [] {
      var last := |a| - 1;
      assert a[last] in a;
      PlaceIsRank(a, all, last);
      RanksArePlaces(b, all);
    }
  }

  // ---------- One compilation ----------

  /** The ids of everything compiled after the badges and tags, in source order. */
  ghost predicate IdsInOrder(ids: seq<string>, kinds: seq<string>, session: string, start: nat) {
    && |ids| == |kinds|
    && forall k :: 0 <= k < |kinds| ==> ids[k] == Format(kinds[k], session, start + 1 + k)
  }

  lemma RankBelowSize(names: set<string>, x: string)
    requires x in names
    ensures Rank(names, x) < |names|
  {
    var before := set y | y in names && Before(y, x);
    BeforeIrreflexive(x);
    assert before <= names - {x};
    SubsetSize(before, names - {x});
  }

  lemma {:induction false} SubsetSize(a: set<string>, b: set<string>)
    requires a <= b
    ensures |a| <= |b|
  {
    if a != {} {
      var x :| x in a;
      SubsetSize(a - {x}, b - {x});
    }
  }

  /** What distinctness needs of a block of names: the id of the name of rank r carries the number start + 1 + r. */
  ghost predicate RanksNumbered(ids: map<string, string>, names: set<string>, start: nat) {
    && ids.Keys == names
    && forall x :: x in names ==> Number(ids[x]) == start + 1 + Rank(names, x)
  }

  lemma RankedIsNumbered(ids: map<string, string>, names: set<string>, prefix: string, session: string, start: nat)
    requires IdsByRank(ids, names, prefix, session, start)
    ensures RanksNumbered(ids, names, start)
  {
    forall x | x in names
      ensures Number(ids[x]) == start + 1 + Rank(names, x)
    {
      NumberOfId(prefix, session, start + 1 + Rank(names, x));
    }
  }

  ghost predicate PlacesNumbered(ids: seq<string>, start: nat) {
    forall k :: 0 <= k < |ids| ==> Number(ids[k]) == start + 1 + k
  }

  lemma InOrderIsNumbered(ids: seq<string>, kinds: seq<string>, session: string, start: nat)
    requires IdsInOrder(ids, kinds, session, start)
    ensures PlacesNumbered(ids, start)
  {
    forall k | 0 <= k < |ids|
      ensures Number(ids[k]) == start + 1 + k
    {
      NumberOfId(kinds[k], session, start + 1 + k);
    }
  }

  lemma RankGrows(names: set<string>, x: string, y: string)
    requires x in names && Before(x, y)
    ensures Rank(names, x) < Rank(names, y)
  {
    var low := set z | z in names && Before(z, x);
    var high := set z | z in names && Before(z, y);
    forall z | z in low
      ensures z in high - {x}
    {
      BeforeTransitive(z, x, y);
      BeforeIrreflexive(x);
    }
    SubsetSize(low, high - {x});
  }

  /** All the ids of one compilation differ: within the badges, within the tags, among the rest, and across. */
  ghost predicate AllDiffer(badgeIds: map<string, string>, tagIds: map<string, string>, restIds: seq<string>) {
    && (forall x, y :: x in badgeIds && y in badgeIds && x != y ==> badgeIds[x] != badgeIds[y])
    && (forall x, y :: x in tagIds && y in tagIds && x != y ==> tagIds[x] != tagIds[y])
    && (forall j, k :: 0 <= j < k < |restIds| ==> restIds[j] != restIds[k])
    && (forall x, y :: x in badgeIds && y in tagIds ==> badgeIds[x] != tagIds[y])
    && (forall x :: x in badgeIds ==> badgeIds[x] !in restIds)
    && (forall x :: x in tagIds ==> tagIds[x] !in restIds)
  }

  lemma WithinBlock(ids: map<string, string>, names: set<string>, start: nat)
    requires RanksNumbered(ids, names, start)
    ensures forall x, y :: x in ids && y in ids && x != y ==> ids[x] != ids[y]
  {
    forall x, y | x in ids && y in ids && x != y
      ensures ids[x] != ids[y]
    {
      BeforeTotal(x, y);
      if Before(x, y) {
        RankGrows(names, x, y);
      } else {
        RankGrows(names, y, x);
      }
    }
  }

  lemma BlockAndRest(ids: map<string, string>, names: set<string>, start: nat, rest: seq<string>, later: nat)
    requires RanksNumbered(ids, names, start) && PlacesNumbered(rest, later)
    requires start + |names| <= later
    ensures forall x :: x in ids ==> ids[x] !in rest
  {
    forall x, k | x in ids && 0 <= k < |rest|
      ensures ids[x] != rest[k]
    {
      RankBelowSize(names, x);
    }
  }

  lemma BlocksApart(
      badgeIds: map<string, string>, badges: set<string>, tagIds: map<string, string>, tags: set<string>)
    requires RanksNumbered(badgeIds, badges, 0) && RanksNumbered(tagIds, tags, |badges|)
    ensures forall x, y :: x in badgeIds && y in tagIds ==> badgeIds[x] != tagIds[y]
  {
    forall x, y | x in badgeIds && y in tagIds
      ensures badgeIds[x] != tagIds[y]
    {
      RankBelowSize(badges, x);
    }
  }

  lemma RestDiffers(ids: seq<string>, start: nat)
    requires PlacesNumbered(ids, start)
    ensures forall j, k :: 0 <= j < k < |ids| ==> ids[j] != ids[k]
  {
    forall j, k | 0 <= j < k < |ids|
      ensures ids[j] != ids[k]
    {
    }
  }

  /** All the ids of one compilation differ. */
  lemma CompilationIdsDiffer(
      badgeIds: map<string, string>, badges: set<string>, tagIds: map<string, string>, tags: set<string>,
      restIds: seq<string>, kinds: seq<string>, session: string)
    requires IdsByRank(badgeIds, badges, "badge", session, 0)
    requires IdsByRank(tagIds, tags, "tag", session, |badges|)
    requires IdsInOrder(restIds, kinds, session, |badges| + |tags|)
    ensures AllDiffer(badgeIds, tagIds, restIds)
  {
    RankedIsNumbered(badgeIds, badges, "badge", session, 0);
    RankedIsNumbered(tagIds, tags, "tag", session, |badges|);
    InOrderIsNumbered(restIds, kinds, session, |badges| + |tags|);
    NumberedDiffer(badgeIds, badges, tagIds, tags, restIds);
  }

  lemma NumberedDiffer(
      badgeIds: map<string, string>, badges: set<string>, tagIds: map<string, string>, tags: set<string>,
      restIds: seq<string>)
    requires RanksNumbered(badgeIds, badges, 0) && RanksNumbered(tagIds, tags, |badges|)
    requires PlacesNumbered(restIds, |badges| + |tags|)
    ensures AllDiffer(badgeIds, tagIds, restIds)
  {
    WithinBlock(badgeIds, badges, 0);
    WithinBlock(tagIds, tags, |badges|);
    RestDiffers(restIds, |badges| + |tags|);
    BlocksApart(badgeIds, badges, tagIds, tags);
    BlockAndRest(badgeIds, badges, 0, restIds, |badges| + |tags|);
    BlockAndRest(tagIds, tags, |badges|, restIds, |badges| + |tags|);
  }
}
