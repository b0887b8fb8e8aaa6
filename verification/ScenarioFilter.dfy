/** Choosing scenarios: grouping by a property, the indexed filter behind the page, and the
    check boxes that change the selections. */
module ScenarioFilter {
  import opened Wrappers

  /** A scenario by its seven property values, churn first; `id` tells equal rows apart. */
  datatype Scenario = Scenario(id: nat, values: seq<string>)

  type Property = p: nat | p < 7

  predicate Wellformed(scenarios: seq<Scenario>) {
    forall k :: 0 <= k < |scenarios| ==> |scenarios[k].values| == 7
  }

  // ---- groupBy ----------------------------------------------------------------------------

  /** The scenarios with value `key` for property `p`, in order. */
  function Having(scenarios: seq<Scenario>, p: Property, key: string): seq<Scenario>
    requires Wellformed(scenarios)
  {
    if scenarios == [] then []
    else
      var n := |scenarios| - 1;
      Having(scenarios[..n], p, key) + if scenarios[n].values[p] == key then [scenarios[n]] else []
  }

  function Keys(scenarios: seq<Scenario>, p: Property): set<string>
    requires Wellformed(scenarios)
  {
    set k: nat | k < |scenarios| :: scenarios[k].values[p]
  }

  ghost predicate Groups(groups: map<string, seq<Scenario>>, scenarios: seq<Scenario>, p: Property)
    requires Wellformed(scenarios)
  {
    groups.Keys == Keys(scenarios, p) && forall key :: key in groups ==> groups[key] == Having(scenarios, p, key)
  }

  /** Groups keep the order of the scenarios; there is one for each value that occurs. */
  method GroupBy(scenarios: seq<Scenario>, p: Property) returns (groups: map<string, seq<Scenario>>)
    requires Wellformed(scenarios)
    ensures Groups(groups, scenarios, p)
  {
    groups := map[];
    var k := 0;
    while k < |scenarios|
      invariant 0 <= k <= |scenarios| && Groups(groups, scenarios[..k], p)
    {
      var element, key := scenarios[k], scenarios[k].values[p];
      GroupsMore(groups, scenarios, k, p);
      if key !in groups { groups := groups[key := []]; }
      groups := groups[key := groups[key] + [element]];
      k := k + 1;
    }
    assert scenarios[..k] == scenarios;
  }

  lemma GroupsMore(groups: map<string, seq<Scenario>>, scenarios: seq<Scenario>, k: nat, p: Property)
    requires Wellformed(scenarios) && k < |scenarios| && Groups(groups, scenarios[..k], p)
    ensures var key := scenarios[k].values[p];
      Groups(groups[key := (if key in groups then groups[key] else []) + [scenarios[k]]], scenarios[..k + 1], p)
  {
    var own := scenarios[k].values[p];
    var more := groups[own := (if own in groups then groups[own] else []) + [scenarios[k]]];
    KeysMore(scenarios, k, p);
    HavingNone(scenarios[..k], p, own);
    forall key | key in more ensures more[key] == Having(scenarios[..k + 1], p, key) {
      HavingMore(scenarios, k, p, key);
    }
  }

  lemma KeysMore(scenarios: seq<Scenario>, k: nat, p: Property)
    requires Wellformed(scenarios) && k < |scenarios|
    ensures Keys(scenarios[..k + 1], p) == Keys(scenarios[..k], p) + {scenarios[k].values[p]}
  {}

  lemma HavingMore(scenarios: seq<Scenario>, k: nat, p: Property, key: string)
    requires Wellformed(scenarios) && k < |scenarios|
    ensures Having(scenarios[..k + 1], p, key) == Having(scenarios[..k], p, key) +
      if scenarios[k].values[p] == key then [scenarios[k]] else []
  {
    assert scenarios[..k + 1][..k] == scenarios[..k];
  }

  lemma {:induction false} HavingNone(scenarios: seq<Scenario>, p: Property, key: string)
    requires Wellformed(scenarios)
    ensures key !in Keys(scenarios, p) ==> Having(scenarios, p, key) == []
  {
    if scenarios != [] {
      var n := |scenarios| - 1;
      HavingNone(scenarios[..n], p, key);
      KeysMore(scenarios, n, p);
      assert scenarios[..n + 1] == scenarios;
    }
  }

  /** How often `e` occurs. */
  function Count(s: seq<Scenario>, e: Scenario): nat {
    if s == [] then 0 else Count(s[..|s| - 1], e) + if s[|s| - 1] == e then 1 else 0
  }

  lemma {:induction false} CountAppend(a: seq<Scenario>, b: seq<Scenario>, e: Scenario)
    ensures Count(a + b, e) == Count(a, e) + Count(b, e)
    decreases |b|
  {
    if b == [] {
      assert a + b == a;
    } else {
      var n := |b| - 1;
      assert (a + b)[..|a + b| - 1] == a + b[..n];
      CountAppend(a, b[..n], e);
    }
  }

  lemma CountMaybe(a: seq<Scenario>, x: Scenario, taken: bool, e: Scenario)
    ensures Count(a + if taken then [x] else [], e) == Count(a, e) + if taken && x == e then 1 else 0
  {
    assert a + [] == a && (a + [x])[..|a|] == a;
  }

  lemma {:induction false} CountIs(s: seq<Scenario>, e: Scenario)
    ensures Count(s, e) == multiset(s)[e]
    decreases |s|
  {
    if s != [] {
      var n := |s| - 1;
      CountIs(s[..n], e);
      assert s == s[..n] + [s[n]];
    }
  }

  /** The groups partition the scenarios: each scenario is in the group of its own value, as often
      as it occurs, and in no other. */
  lemma {:induction false} GroupsPartition(scenarios: seq<Scenario>, p: Property, key: string, e: Scenario)
    requires Wellformed(scenarios) && |e.values| == 7
    ensures Count(Having(scenarios, p, key), e) == if e.values[p] == key then Count(scenarios, e) else 0
  {
    if scenarios != [] {
      var n := |scenarios| - 1;
      GroupsPartition(scenarios[..n], p, key, e);
      var x := scenarios[n];
      CountMaybe(Having(scenarios[..n], p, key), x, x.values[p] == key, e);
      if x == e { assert x.values[p] == e.values[p]; }
    }
  }

  // ---- The indexed filter -------------------------------------------------------------------

  /** The keys of each property, in the order the engine lists them. */
  ghost predicate Lists(keys: seq<seq<string>>, scenarios: seq<Scenario>)
    requires Wellformed(scenarios)
  {
    && |keys| == 7
    && (forall p: Property :: (set i | 0 <= i < |keys[p]| :: keys[p][i]) == Keys(scenarios, p))
    && forall p: Property, i, j :: 0 <= i < j < |keys[p]| ==> keys[p][i] != keys[p][j]
  }

  /** Whether some selected index stands for `value`; an index out of range stands for nothing. */
  predicate Selected(selection: seq<int>, keys: seq<string>, value: string) {
    exists k :: 0 <= k < |selection| && 0 <= selection[k] < |keys| && keys[selection[k]] == value
  }

  function Kept(scenarios: seq<Scenario>, p: Property, selection: seq<int>, keys: seq<string>): (r: seq<Scenario>)
    requires Wellformed(scenarios)
    ensures Wellformed(r)
  {
    if scenarios == [] then []
    else
      var n := |scenarios| - 1;
      Kept(scenarios[..n], p, selection, keys) +
        if Selected(selection, keys, scenarios[n].values[p]) then [scenarios[n]] else []
  }

  method KeepSelected(scenarios: seq<Scenario>, p: Property, selection: seq<int>, keys: seq<string>)
      returns (kept: seq<Scenario>)
    requires Wellformed(scenarios)
    ensures kept == Kept(scenarios, p, selection, keys)
  {
    kept := [];
    var i := 0;
    while i < |scenarios|
      invariant 0 <= i <= |scenarios| && kept == Kept(scenarios[..i], p, selection, keys)
    {
      var found := false;
      var k := 0;
      while k < |selection|
        invariant 0 <= k <= |selection| && (found <==> Selected(selection[..k], keys, scenarios[i].values[p]))
      {
        SelectedMore(selection, k, keys, scenarios[i].values[p]);
        found := found || (0 <= selection[k] < |keys| && keys[selection[k]] == scenarios[i].values[p]);
        k := k + 1;
      }
      assert selection[..k] == selection && scenarios[..i + 1][..i] == scenarios[..i];
      if found { kept := kept + [scenarios[i]]; }
      i := i + 1;
    }
    assert scenarios[..i] == scenarios;
  }

  lemma SelectedMore(selection: seq<int>, k: nat, keys: seq<string>, value: string)
    requires k < |selection|
    ensures Selected(selection[..k + 1], keys, value)
      <==> Selected(selection[..k], keys, value) || (0 <= selection[k] < |keys| && keys[selection[k]] == value)
  {}

  lemma {:induction false} KeptCount(scenarios: seq<Scenario>, p: Property, selection: seq<int>, keys: seq<string>,
      e: Scenario)
    requires Wellformed(scenarios) && |e.values| == 7
    ensures Count(Kept(scenarios, p, selection, keys), e) ==
      if Selected(selection, keys, e.values[p]) then Count(scenarios, e) else 0
  {
    if scenarios != [] {
      var n := |scenarios| - 1;
      KeptCount(scenarios[..n], p, selection, keys, e);
      var x := scenarios[n];
      CountMaybe(Kept(scenarios[..n], p, selection, keys), x, Selected(selection, keys, x.values[p]), e);
    }
  }

  predicate InRange(selection: seq<int>, keys: seq<string>) {
    forall k :: 0 <= k < |selection| ==> 0 <= selection[k] < |keys|
  }

  /** The groups of the selected churn keys, one after the other. */
  function Grouped(scenarios: seq<Scenario>, selection: seq<int>, keys: seq<string>): (r: seq<Scenario>)
    requires Wellformed(scenarios) && InRange(selection, keys)
    ensures Wellformed(r)
  {
    if selection == [] then []
    else
      var n := |selection| - 1;
      HavingWellformed(scenarios, 0, keys[selection[n]]);
      Grouped(scenarios, selection[..n], keys) + Having(scenarios, 0, keys[selection[n]])
  }

  lemma {:induction false} HavingWellformed(scenarios: seq<Scenario>, p: Property, key: string)
    requires Wellformed(scenarios)
    ensures Wellformed(Having(scenarios, p, key))
  {
    if scenarios != [] { HavingWellformed(scenarios[..|scenarios| - 1], p, key); }
  }

  /** Filtering by the properties from `p` on, one after the other. */
  function KeptFrom(scenarios: seq<Scenario>, p: nat, selections: seq<seq<int>>,
      keys: seq<seq<string>>): (r: seq<Scenario>)
    requires Wellformed(scenarios) && p <= 7 && |selections| == |keys| == 7
    ensures Wellformed(r)
    decreases 7 - p
  {
    if p == 7 then scenarios else KeptFrom(Kept(scenarios, p, selections[p], keys[p]), p + 1, selections, keys)
  }

  /** The matching scenarios; None stands for the error an unknown churn index raises. */
  method Matches(scenarios: seq<Scenario>, selections: seq<seq<int>>, keys: seq<seq<string>>)
      returns (matches: Option<seq<Scenario>>)
    requires Wellformed(scenarios) && |selections| == 7 && Lists(keys, scenarios)
    ensures matches.None? <==> !InRange(selections[0], keys[0])
    ensures matches.Some? ==> matches.value == KeptFrom(Grouped(scenarios, selections[0], keys[0]), 1, selections, keys)
  {
    var groups := GroupBy(scenarios, 0);
    var found: seq<Scenario> := [];
    var k := 0;
    while k < |selections[0]|
      invariant 0 <= k <= |selections[0]| && InRange(selections[0][..k], keys[0])
      invariant found == Grouped(scenarios, selections[0][..k], keys[0])
    {
      var index := selections[0][k];
      if !(0 <= index < |keys[0]|) { return None; }
      assert keys[0][index] in groups;
      assert selections[0][..k + 1][..k] == selections[0][..k];
      found := found + groups[keys[0][index]];
      k := k + 1;
    }
    assert selections[0][..k] == selections[0];
    var p := 1;
    while p < 7
      invariant 1 <= p <= 7 && Wellformed(found)
      invariant KeptFrom(found, p, selections, keys)
        == KeptFrom(Grouped(scenarios, selections[0], keys[0]), 1, selections, keys)
    {
      found := KeepSelected(found, p, selections[p], keys[p]);
      p := p + 1;
    }
    return Some(found);
  }

  // ---- The plain filter ----------------------------------------------------------------------

  predicate Wanted(e: Scenario, selections: seq<seq<int>>, keys: seq<seq<string>>)
    requires |e.values| == |selections| == |keys| == 7
  {
    forall p: Property :: Selected(selections[p], keys[p], e.values[p])
  }

  /** One pass: the scenarios each of whose seven properties has a selected key. */
  function Plain(scenarios: seq<Scenario>, selections: seq<seq<int>>, keys: seq<seq<string>>): seq<Scenario>
    requires Wellformed(scenarios) && |selections| == |keys| == 7
  {
    if scenarios == [] then []
    else
      var n := |scenarios| - 1;
      Plain(scenarios[..n], selections, keys) + if Wanted(scenarios[n], selections, keys) then [scenarios[n]] else []
  }

  lemma {:induction false} PlainCount(scenarios: seq<Scenario>, selections: seq<seq<int>>, keys: seq<seq<string>>,
      e: Scenario)
    requires Wellformed(scenarios) && |selections| == |keys| == 7 && |e.values| == 7
    ensures Count(Plain(scenarios, selections, keys), e) ==
      if Wanted(e, selections, keys) then Count(scenarios, e) else 0
    decreases |scenarios|
  {
    if scenarios != [] {
      var n := |scenarios| - 1;
      PlainCount(scenarios[..n], selections, keys, e);
      var x := scenarios[n];
      CountMaybe(Plain(scenarios[..n], selections, keys), x, Wanted(x, selections, keys), e);
      if x == e { assert Wanted(x, selections, keys) == Wanted(e, selections, keys); }
    }
  }

  function Hit(index: int, keys: seq<string>, value: string): nat {
    if 0 <= index < |keys| && keys[index] == value then 1 else 0
  }

  /** How often the selection names the key `value`. */
  function Times(selection: seq<int>, keys: seq<string>, value: string): nat {
    if selection == [] then 0
    else
      var n := |selection| - 1;
      Times(selection[..n], keys, value) + Hit(selection[n], keys, value)
  }

  function Repeated(t: nat, c: nat): nat {
    if t == 0 then 0 else Repeated(t - 1, c) + c
  }

  lemma {:induction false} RepeatedIs(t: nat, c: nat)
    ensures Repeated(t, c) == t * c
  {
    if t > 0 {
      RepeatedIs(t - 1, c);
      assert t * c == (t - 1) * c + c;
    }
  }

  lemma GroupedOne(scenarios: seq<Scenario>, index: int, keys: seq<string>, e: Scenario, before: seq<Scenario>)
    requires Wellformed(scenarios) && 0 <= index < |keys| && |e.values| == 7
    ensures Count(before + Having(scenarios, 0, keys[index]), e)
      == Count(before, e) + if Hit(index, keys, e.values[0]) == 1 then Count(scenarios, e) else 0
  {
    GroupsPartition(scenarios, 0, keys[index], e);
    CountAppend(before, Having(scenarios, 0, keys[index]), e);
  }

  lemma OnceMore(t: nat, d: nat, c: nat)
    requires d <= 1
    ensures Repeated(t + d, c) == Repeated(t, c) + if d == 1 then c else 0
  {}

  lemma GroupedNext(scenarios: seq<Scenario>, selection: seq<int>, keys: seq<string>, e: Scenario, t: nat, c: nat)
    requires Wellformed(scenarios) && |e.values| == 7 && selection != []
    requires InRange(selection, keys) && InRange(selection[..|selection| - 1], keys)
    requires c == Count(scenarios, e)
    requires Count(Grouped(scenarios, selection[..|selection| - 1], keys), e) == Repeated(t, c)
    ensures Count(Grouped(scenarios, selection, keys), e)
      == Repeated(t + Hit(selection[|selection| - 1], keys, e.values[0]), c)
  {
    var index := selection[|selection| - 1];
    GroupedOne(scenarios, index, keys, e, Grouped(scenarios, selection[..|selection| - 1], keys));
    OnceMore(t, Hit(index, keys, e.values[0]), c);
  }

  lemma {:induction false} GroupedCount(scenarios: seq<Scenario>, selection: seq<int>, keys: seq<string>, e: Scenario)
    requires Wellformed(scenarios) && InRange(selection, keys) && |e.values| == 7
    ensures Count(Grouped(scenarios, selection, keys), e)
      == Repeated(Times(selection, keys, e.values[0]), Count(scenarios, e))
    decreases |selection|
  {
    if selection != [] {
      var before := selection[..|selection| - 1];
      GroupedCount(scenarios, before, keys, e);
      GroupedNext(scenarios, selection, keys, e, Times(before, keys, e.values[0]), Count(scenarios, e));
    }
  }

  /** Whether every property from `p` on has a selected key. */
  predicate WantedFrom(e: Scenario, p: nat, selections: seq<seq<int>>, keys: seq<seq<string>>)
    requires p <= |e.values| == |selections| == |keys|
    decreases |e.values| - p
  {
    p == |e.values| || (Selected(selections[p], keys[p], e.values[p]) && WantedFrom(e, p + 1, selections, keys))
  }

  lemma {:induction false} KeptFromCount(scenarios: seq<Scenario>, p: nat, selections: seq<seq<int>>,
      keys: seq<seq<string>>, e: Scenario)
    requires Wellformed(scenarios) && p <= 7 && |selections| == |keys| == 7 && |e.values| == 7
    ensures Count(KeptFrom(scenarios, p, selections, keys), e) ==
      if WantedFrom(e, p, selections, keys) then Count(scenarios, e) else 0
    decreases 7 - p
  {
    if p < 7 {
      KeptCount(scenarios, p, selections[p], keys[p], e);
      KeptFromCount(Kept(scenarios, p, selections[p], keys[p]), p + 1, selections, keys, e);
    }
  }

  lemma {:induction false} WantedFromAll(e: Scenario, p: nat, selections: seq<seq<int>>, keys: seq<seq<string>>)
    requires p <= 7 && |e.values| == |selections| == |keys| == 7
    ensures WantedFrom(e, p, selections, keys) <==>
      forall q: Property :: p <= q ==> Selected(selections[q], keys[q], e.values[q])
    decreases 7 - p
  {
    if p < 7 { WantedFromAll(e, p + 1, selections, keys); }
  }

  lemma {:induction false} TimesSelected(selection: seq<int>, keys: seq<string>, value: string)
    ensures Times(selection, keys, value) > 0 <==> Selected(selection, keys, value)
  {
    if selection != [] {
      var n := |selection| - 1;
      TimesSelected(selection[..n], keys, value);
      SelectedMore(selection, n, keys, value);
      assert selection[..n + 1] == selection;
    }
  }

  predicate DuplicateFree(selection: seq<int>) {
    forall i, j :: 0 <= i < j < |selection| ==> selection[i] != selection[j]
  }

  lemma {:induction false} TimesOnce(selection: seq<int>, keys: seq<string>, value: string)
    requires DuplicateFree(selection) && forall i, j :: 0 <= i < j < |keys| ==> keys[i] != keys[j]
    ensures Times(selection, keys, value) <= 1
  {
    if selection != [] {
      var n := |selection| - 1;
      TimesOnce(selection[..n], keys, value);
      TimesSelected(selection[..n], keys, value);
    }
  }

  /** The indexed filter yields each scenario as often as the plain one, times the number of
      times its churn key is selected. */
  lemma MatchesCount(scenarios: seq<Scenario>, selections: seq<seq<int>>, keys: seq<seq<string>>, e: Scenario)
    requires Wellformed(scenarios) && |selections| == |keys| == 7 && InRange(selections[0], keys[0]) && |e.values| == 7
    ensures Count(KeptFrom(Grouped(scenarios, selections[0], keys[0]), 1, selections, keys), e)
      == Times(selections[0], keys[0], e.values[0]) * Count(Plain(scenarios, selections, keys), e)
  {
    var grouped := Grouped(scenarios, selections[0], keys[0]);
    GroupedCount(scenarios, selections[0], keys[0], e);
    RepeatedIs(Times(selections[0], keys[0], e.values[0]), Count(scenarios, e));
    KeptFromCount(grouped, 1, selections, keys, e);
    PlainCount(scenarios, selections, keys, e);
    TimesSelected(selections[0], keys[0], e.values[0]);
    WantedSplits(e, selections, keys);
    Scaled(Times(selections[0], keys[0], e.values[0]), Count(scenarios, e), WantedFrom(e, 1, selections, keys));
  }

  lemma WantedSplits(e: Scenario, selections: seq<seq<int>>, keys: seq<seq<string>>)
    requires |e.values| == |selections| == |keys| == 7
    ensures Wanted(e, selections, keys) <==>
      Selected(selections[0], keys[0], e.values[0]) && WantedFrom(e, 1, selections, keys)
  {
    WantedFromAll(e, 0, selections, keys);
    assert Wanted(e, selections, keys) <==> WantedFrom(e, 0, selections, keys);
  }

  lemma Scaled(t: nat, c: nat, others: bool)
    ensures (if others then t * c else 0) == t * if t > 0 && others then c else 0
  {}

  /** With duplicate-free, in-range churn selections, the indexed filter is a permutation of the plain one. */
  lemma MatchesPermutePlain(scenarios: seq<Scenario>, selections: seq<seq<int>>, keys: seq<seq<string>>)
    requires Wellformed(scenarios) && |selections| == 7 && Lists(keys, scenarios)
    requires InRange(selections[0], keys[0]) && DuplicateFree(selections[0])
    ensures multiset(KeptFrom(Grouped(scenarios, selections[0], keys[0]), 1, selections, keys))
      == multiset(Plain(scenarios, selections, keys))
  {
    var found, plain := KeptFrom(Grouped(scenarios, selections[0], keys[0]), 1, selections, keys),
        Plain(scenarios, selections, keys);
    forall e: Scenario ensures multiset(found)[e] == multiset(plain)[e] {
      CountIs(found, e);
      CountIs(plain, e);
      if |e.values| == 7 {
        MatchesOnce(scenarios, selections, keys, e);
      } else {
        PlainWellformed(scenarios, selections, keys);
        assert e !in found && e !in plain;
      }
    }
  }

  lemma MatchesOnce(scenarios: seq<Scenario>, selections: seq<seq<int>>, keys: seq<seq<string>>, e: Scenario)
    requires Wellformed(scenarios) && |selections| == 7 && Lists(keys, scenarios) && |e.values| == 7
    requires InRange(selections[0], keys[0]) && DuplicateFree(selections[0])
    ensures Count(KeptFrom(Grouped(scenarios, selections[0], keys[0]), 1, selections, keys), e)
      == Count(Plain(scenarios, selections, keys), e)
  {
    MatchesCount(scenarios, selections, keys, e);
    TimesOnce(selections[0], keys[0], e.values[0]);
    PlainNamed(scenarios, selections, keys, e);
    OneTimes(Count(KeptFrom(Grouped(scenarios, selections[0], keys[0]), 1, selections, keys), e),
             Times(selections[0], keys[0], e.values[0]), Count(Plain(scenarios, selections, keys), e));
  }

  lemma PlainNamed(scenarios: seq<Scenario>, selections: seq<seq<int>>, keys: seq<seq<string>>, e: Scenario)
    requires Wellformed(scenarios) && |selections| == |keys| == 7 && |e.values| == 7
    ensures Count(Plain(scenarios, selections, keys), e) > 0 ==> Times(selections[0], keys[0], e.values[0]) > 0
  {
    PlainCount(scenarios, selections, keys, e);
    TimesSelected(selections[0], keys[0], e.values[0]);
    WantedSplits(e, selections, keys);
  }

  lemma OneTimes(x: nat, t: nat, y: nat)
    requires x == t * y && t <= 1 && (y > 0 ==> t > 0)
    ensures x == y
  {}

  lemma {:induction false} PlainWellformed(scenarios: seq<Scenario>, selections: seq<seq<int>>, keys: seq<seq<string>>)
    requires Wellformed(scenarios) && |selections| == |keys| == 7
    ensures Wellformed(Plain(scenarios, selections, keys))
  {
    if scenarios != [] { PlainWellformed(scenarios[..|scenarios| - 1], selections, keys); }
  }

  // ---- The order of the matches ----------------------------------------------------------------

  /** What is taken from two tables, one after the other, is taken from each in its turn. */
  lemma {:induction false} TakenInOrder(a: seq<Scenario>, b: seq<Scenario>, p: Property, key: string,
      selection: seq<int>, keys: seq<string>)
    requires Wellformed(a) && Wellformed(b)
    ensures Having(a + b, p, key) == Having(a, p, key) + Having(b, p, key)
    ensures Kept(a + b, p, selection, keys) == Kept(a, p, selection, keys) + Kept(b, p, selection, keys)
    decreases |b|
  {
    if b == [] {
      assert a + b == a;
    } else {
      var n := |b| - 1;
      assert (a + b)[..|a + b| - 1] == a + b[..n];
      TakenInOrder(a, b[..n], p, key, selection, keys);
    }
  }

  lemma {:induction false} KeptInOrder(a: seq<Scenario>, b: seq<Scenario>, p: nat, selections: seq<seq<int>>,
      keys: seq<seq<string>>)
    requires Wellformed(a) && Wellformed(b) && p <= 7 && |selections| == |keys| == 7
    ensures KeptFrom(a + b, p, selections, keys) == KeptFrom(a, p, selections, keys) + KeptFrom(b, p, selections, keys)
    decreases 7 - p
  {
    if p < 7 {
      TakenInOrder(a, b, p, "", selections[p], keys[p]);
      KeptInOrder(Kept(a, p, selections[p], keys[p]), Kept(b, p, selections[p], keys[p]), p + 1, selections, keys);
    }
  }

  lemma {:induction false} GroupedInOrder(scenarios: seq<Scenario>, a: seq<int>, b: seq<int>, keys: seq<string>)
    requires Wellformed(scenarios) && InRange(a, keys) && InRange(b, keys)
    ensures Grouped(scenarios, a + b, keys) == Grouped(scenarios, a, keys) + Grouped(scenarios, b, keys)
    decreases |b|
  {
    if b == [] {
      assert a + b == a;
    } else {
      var n := |b| - 1;
      assert (a + b)[..|a + b| - 1] == a + b[..n];
      GroupedInOrder(scenarios, a, b[..n], keys);
    }
  }

  /** The matches of two churn selections, one after the other, are those of each in its turn. */
  lemma MatchesInOrder(scenarios: seq<Scenario>, a: seq<int>, b: seq<int>, selections: seq<seq<int>>,
      keys: seq<seq<string>>)
    requires Wellformed(scenarios) && |selections| == |keys| == 7 && InRange(a, keys[0]) && InRange(b, keys[0])
    ensures KeptFrom(Grouped(scenarios, a + b, keys[0]), 1, selections, keys)
      == KeptFrom(Grouped(scenarios, a, keys[0]), 1, selections, keys)
       + KeptFrom(Grouped(scenarios, b, keys[0]), 1, selections, keys)
  {
    GroupedInOrder(scenarios, a, b, keys[0]);
    KeptInOrder(Grouped(scenarios, a, keys[0]), Grouped(scenarios, b, keys[0]), 1, selections, keys);
  }

  // ---- The check boxes -------------------------------------------------------------------------

  /** The position of an element, -1 if it is not there. */
  function IndexOf(s: seq<int>, x: int): (k: int)
    ensures -1 <= k < |s| && (k >= 0 ==> s[k] == x && x !in s[..k]) && (k < 0 ==> x !in s)
  {
    if s == [] then -1
    else
      var n := |s| - 1;
      var k := IndexOf(s[..n], x);
      if k >= 0 then k else if s[n] == x then n else -1
  }

  class Selection {
    var items: seq<int>

    constructor ()
      ensures items == []
    {
      items := [];
    }

    method AddIfAbsent(x: int) returns (added: bool)
      modifies this
      ensures added == (x !in old(items)) && items == if added then old(items) + [x] else old(items)
    {
      added := IndexOf(items, x) == -1;
      if added { items := items + [x]; }
    }

    method RemoveIfExists(x: int) returns (removed: bool)
      modifies this
      ensures removed == (x in old(items)) && items == Without(old(items), x)
    {
      var index := IndexOf(items, x);
      removed := index > -1;
      if removed { items := items[..index] + items[index + 1..]; }
    }

    method FilterChecked(checked: bool, index: int)
      modifies this
      ensures items == Stepped(old(items), checked, index)
    {
      if !checked { var removed := RemoveIfExists(index); } else { var added := AddIfAbsent(index); }
    }
  }

  function Without(s: seq<int>, x: int): seq<int> {
    var k := IndexOf(s, x);
    if k < 0 then s else s[..k] + s[k + 1..]
  }

  function Stepped(s: seq<int>, checked: bool, index: int): seq<int> {
    if checked then (if index in s then s else s + [index]) else Without(s, index)
  }

  datatype Step = Step(checked: bool, index: int)

  function SteppedAll(s: seq<int>, steps: seq<Step>): seq<int> {
    if steps == [] then s
    else
      var n := |steps| - 1;
      Stepped(SteppedAll(s, steps[..n]), steps[n].checked, steps[n].index)
  }

  /** Whether the box of `x` is checked after the steps. */
  predicate CheckedAfter(initially: bool, steps: seq<Step>, x: int) {
    if steps == [] then initially
    else
      var n := |steps| - 1;
      if steps[n].index == x then steps[n].checked else CheckedAfter(initially, steps[..n], x)
  }

  lemma SteppedKeeps(s: seq<int>, checked: bool, index: int)
    requires DuplicateFree(s)
    ensures DuplicateFree(Stepped(s, checked, index))
    ensures forall x :: x in Stepped(s, checked, index) <==> if x == index then checked else x in s
  {}

  /** From a duplicate-free selection, any clicks keep it duplicate-free, and an index is selected
      exactly if its box is checked. */
  lemma {:induction false} SelectionFollowsBoxes(s: seq<int>, steps: seq<Step>)
    requires DuplicateFree(s)
    ensures DuplicateFree(SteppedAll(s, steps))
    ensures forall x :: x in SteppedAll(s, steps) <==> CheckedAfter(x in s, steps, x)
  {
    if steps != [] {
      var n := |steps| - 1;
      SelectionFollowsBoxes(s, steps[..n]);
      SteppedKeeps(SteppedAll(s, steps[..n]), steps[n].checked, steps[n].index);
    }
  }

  /** A click leaves the other indices in their order; one that is newly selected comes last. */
  lemma OthersStay(s: seq<int>, checked: bool, index: int)
    requires DuplicateFree(s)
    ensures var t := Stepped(s, checked, index);
      && Without(t, index) == Without(s, index)
      && (checked && index !in s ==> t != [] && t[|t| - 1] == index)
  {
    var t := Stepped(s, checked, index);
    if checked && index !in s {
      assert IndexOf(t, index) == |s|;
      assert Without(t, index) == s;
    } else if !checked {
      SteppedKeeps(s, checked, index);
    }
  }
}
