/** How the data module hands table columns to series: columns named in the options are set
    aside, the others are given out from left to right. */
module ColumnAllocator {
  import opened Wrappers

  /** A reader without a column waits for the next free one. */
  datatype Reader = Reader(columnIndex: Option<nat>, configName: string)

  // ---- The free columns -------------------------------------------------------------------

  function Referenced(readers: seq<Reader>): set<nat> {
    set k | 0 <= k < |readers| && readers[k].columnIndex.Some? :: readers[k].columnIndex.value
  }

  function ReferencedAll(builders: seq<seq<Reader>>): set<nat> {
    if builders == [] then {} else ReferencedAll(builders[..|builders| - 1]) + Referenced(builders[|builders| - 1])
  }

  predicate Ascending(s: seq<nat>) { forall i, j :: 0 <= i < j < |s| ==> s[i] < s[j] }

  /** The columns below `n` outside `taken`, from left to right. */
  function Free(n: nat, taken: set<nat>): seq<nat> {
    if n == 0 then [] else Free(n - 1, taken) + if n - 1 in taken then [] else [n - 1]
  }

  lemma {:induction false} FreeIs(n: nat, taken: set<nat>)
    ensures Ascending(Free(n, taken))
    ensures forall i: nat :: i in Free(n, taken) <==> i < n && i !in taken
  {
    if n > 0 {
      FreeIs(n - 1, taken);
      var s := Free(n - 1, taken);
      forall k | 0 <= k < |s| ensures s[k] < n - 1 { assert s[k] in s; }
    }
  }

  method GetFreeIndexes(numberOfColumns: nat, seriesBuilders: seq<seq<Reader>>) returns (freeIndexValues: seq<nat>)
    ensures freeIndexValues == Free(numberOfColumns, ReferencedAll(seriesBuilders))
  {
    var freeIndexes: seq<bool> := seq(numberOfColumns, _ => true);
    var s := 0;
    while s < |seriesBuilders|
      invariant 0 <= s <= |seriesBuilders| && Marks(freeIndexes, numberOfColumns, ReferencedAll(seriesBuilders[..s]))
    {
      assert seriesBuilders[..s + 1][..s] == seriesBuilders[..s];
      freeIndexes := Unmark(freeIndexes, seriesBuilders[s]);
      s := s + 1;
    }
    assert seriesBuilders[..s] == seriesBuilders;
    freeIndexValues := Collect(freeIndexes, numberOfColumns, ReferencedAll(seriesBuilders));
  }

  /** The list marks the free columns; beyond the last column there may be more, unmarked. */
  ghost predicate Marks(free: seq<bool>, n: nat, taken: set<nat>) {
    && |free| >= n && (forall i :: 0 <= i < n ==> (free[i] <==> i !in taken))
    && forall i :: n <= i < |free| ==> !free[i]
  }

  method Collect(free: seq<bool>, n: nat, ghost taken: set<nat>) returns (values: seq<nat>)
    requires Marks(free, n, taken)
    ensures values == Free(n, taken)
  {
    values := [];
    var i := 0;
    while i < |free|
      invariant 0 <= i <= |free| && values == Free(Least(i, n), taken)
    {
      if free[i] { values := values + [i]; }
      i := i + 1;
    }
  }

  function Least(a: nat, b: nat): nat { if a < b then a else b }

  /** Marks a builder's columns as taken; a column beyond the end lengthens the list with gaps. */
  method Unmark(free: seq<bool>, readers: seq<Reader>) returns (left: seq<bool>)
    ensures |left| >= |free|
    ensures forall i :: 0 <= i < |free| ==> (left[i] <==> free[i] && i !in Referenced(readers))
    ensures forall i :: |free| <= i < |left| ==> !left[i]
  {
    left := free;
    var k := 0;
    while k < |readers|
      invariant 0 <= k <= |readers| && |left| >= |free|
      invariant forall i :: 0 <= i < |free| ==> (left[i] <==> free[i] && i !in Referenced(readers[..k]))
      invariant forall i :: |free| <= i < |left| ==> !left[i]
    {
      ReferencedMore(readers, k);
      if readers[k].columnIndex.Some? {
        var index := readers[k].columnIndex.value;
        if index >= |left| { left := left + seq(index - |left| + 1, _ => false); }
        left := left[index := false];
      }
      k := k + 1;
    }
    assert readers[..k] == readers;
  }

  lemma ReferencedMore(readers: seq<Reader>, k: nat)
    requires k < |readers|
    ensures Referenced(readers[..k + 1])
      == Referenced(readers[..k]) + if readers[k].columnIndex.Some? then {readers[k].columnIndex.value} else {}
  {
    var a, b := Referenced(readers[..k]), Referenced(readers[..k + 1]);
    forall i | i in a ensures i in b {
      var j :| 0 <= j < k && readers[..k][j].columnIndex == Some(i);
      assert readers[..k + 1][j].columnIndex == Some(i);
    }
    if readers[k].columnIndex.Some? { assert readers[..k + 1][k].columnIndex == readers[k].columnIndex; }
  }

  // ---- Populating builders ------------------------------------------------------------------

  /** How many readers wait for a column. */
  function Waiting(readers: seq<Reader>): nat {
    if readers == [] then 0
    else Waiting(readers[..|readers| - 1]) + if readers[|readers| - 1].columnIndex.None? then 1 else 0
  }

  /** The waiting readers take the free columns in order while there are any. */
  function Filled(readers: seq<Reader>, free: seq<nat>): (r: seq<Reader>)
    ensures |r| == |readers|
  {
    if readers == [] then []
    else
      var n := |readers| - 1;
      var k := Waiting(readers[..n]);
      var last := readers[n];
      Filled(readers[..n], free)
        + [if last.columnIndex.None? && k < |free| then last.(columnIndex := Some(free[k])) else last]
  }

  function Rest(readers: seq<Reader>, free: seq<nat>): seq<nat> { free[Least(Waiting(readers), |free|)..] }

  predicate Complete(readers: seq<Reader>) { forall k :: 0 <= k < |readers| ==> readers[k].columnIndex.Some? }

  /** The free columns, shared by all builders. */
  class FreeList {
    var indexes: seq<nat>

    constructor (indexes: seq<nat>)
      ensures this.indexes == indexes
    {
      this.indexes := indexes;
    }

    method Shift() returns (index: Option<nat>)
      modifies this
      ensures index == if old(indexes) == [] then None else Some(old(indexes)[0])
      ensures indexes == if old(indexes) == [] then [] else old(indexes)[1..]
    {
      if indexes == [] { return None; }
      index := Some(indexes[0]);
      indexes := indexes[1..];
    }

    method Remove(index: nat)
      modifies this
      ensures indexes == Without(old(indexes), index)
    {
      var k := 0;
      while k < |indexes| && indexes[k] != index
        invariant 0 <= k <= |indexes| && index !in indexes[..k]
      {
        k := k + 1;
      }
      WithoutAt(indexes, index, k);
      if k < |indexes| { indexes := indexes[..k] + indexes[k + 1..]; }
    }
  }

  /** The list without the first occurrence of `x`. */
  function Without(s: seq<nat>, x: nat): seq<nat>
    decreases |s|
  {
    if s == [] then [] else if s[0] == x then s[1..] else [s[0]] + Without(s[1..], x)
  }

  lemma {:induction false} WithoutAt(s: seq<nat>, x: nat, k: nat)
    requires k <= |s| && x !in s[..k] && (k < |s| ==> s[k] == x)
    ensures Without(s, x) == if k < |s| then s[..k] + s[k + 1..] else s
    decreases |s|
  {
    if k > 0 {
      var t := s[1..];
      assert s[0] in s[..k];
      assert t[..k - 1] == s[1..k];
      assert forall y :: y in s[1..k] ==> y in s[..k];
      WithoutAt(t, x, k - 1);
      if k < |s| {
        assert t[k..] == s[k + 1..];
        assert [s[0]] + (s[1..k] + s[k + 1..]) == s[..k] + s[k + 1..];
      } else {
        assert [s[0]] + t == s;
      }
    } else if s != [] {
      assert s[..0] + s[1..] == s[1..];
    }
  }

  class SeriesBuilder {
    var readers: seq<Reader>

    constructor ()
      ensures readers == []
    {
      readers := [];
    }

    method AddColumnReader(columnIndex: Option<nat>, configName: string)
      modifies this
      ensures readers == old(readers) + [Reader(columnIndex, configName)]
    {
      readers := readers + [Reader(columnIndex, configName)];
    }

    /** Gives the waiting readers their columns; false if the free columns did not suffice. */
    method PopulateColumns(free: FreeList) returns (enough: bool)
      modifies this, free
      ensures readers == Filled(old(readers), old(free.indexes))
        && free.indexes == Rest(old(readers), old(free.indexes))
      ensures enough <==> Complete(readers)
    {
      FillReaders(free);
      enough := true;
      var k := 0;
      while k < |readers|
        invariant 0 <= k <= |readers| && (enough <==> Complete(readers[..k]))
      {
        assert readers[..k + 1] == readers[..k] + [readers[k]];
        if readers[k].columnIndex.None? { enough := false; }
        k := k + 1;
      }
      assert readers[..k] == readers;
    }

    method FillReaders(free: FreeList)
      modifies this, free
      ensures readers == Filled(old(readers), old(free.indexes))
        && free.indexes == Rest(old(readers), old(free.indexes))
    {
      ghost var r, f := readers, free.indexes;
      FillingStarts(r, f);
      var k := 0;
      while k < |readers|
        invariant 0 <= k <= |readers| == |r| && Filling(r, f, k, readers, free.indexes)
      {
        FillingStep(r, f, k, readers, free.indexes);
        if readers[k].columnIndex.None? {
          var index := free.Shift();
          readers := readers[k := readers[k].(columnIndex := index)];
        }
        k := k + 1;
      }
      FillingEnds(r, f, readers, free.indexes);
    }
  }

  /** The first `k` readers have been filled. */
  ghost predicate Filling(r: seq<Reader>, f: seq<nat>, k: nat, now: seq<Reader>, free: seq<nat>) {
    k <= |r| && now == Filled(r[..k], f) + r[k..] && free == Rest(r[..k], f)
  }

  lemma FillingStarts(r: seq<Reader>, f: seq<nat>)
    ensures Filling(r, f, 0, r, f)
  {}

  lemma FillingEnds(r: seq<Reader>, f: seq<nat>, now: seq<Reader>, free: seq<nat>)
    requires Filling(r, f, |r|, now, free)
    ensures now == Filled(r, f) && free == Rest(r, f)
  {
    assert r[..|r|] == r && r[|r|..] == [];
  }

  lemma FillingStep(r: seq<Reader>, f: seq<nat>, k: nat, now: seq<Reader>, free: seq<nat>)
    requires Filling(r, f, k, now, free) && k < |r|
    ensures |now| == |r| && now[k] == r[k]
    ensures r[k].columnIndex.Some? ==> Filling(r, f, k + 1, now, free)
    ensures r[k].columnIndex.None? && free == [] ==> Filling(r, f, k + 1, now[k := r[k].(columnIndex := None)], [])
    ensures r[k].columnIndex.None? && free != [] ==> Filling(r, f, k + 1,
      now[k := r[k].(columnIndex := Some(free[0]))], free[1..])
  {
    assert r[..k + 1][..k] == r[..k] && r[k..] == [r[k]] + r[k + 1..];
    var w := Waiting(r[..k]);
    if w < |f| { assert f[w..][0] == f[w] && f[w..][1..] == f[w + 1..]; }
  }

  // ---- The allocation -----------------------------------------------------------------------

  /** The series from the options that could be populated, in order. */
  function DefinedKept(builders: seq<seq<Reader>>, free: seq<nat>): seq<seq<Reader>>
    decreases |builders|
  {
    if builders == [] then []
    else
      var filled := Filled(builders[0], free);
      (if Complete(filled) then [filled] else []) + DefinedKept(builders[1..], Rest(builders[0], free))
  }

  function DefinedRest(builders: seq<seq<Reader>>, free: seq<nat>): seq<nat>
    decreases |builders|
  {
    if builders == [] then free else DefinedRest(builders[1..], Rest(builders[0], free))
  }

  /** A further series: x from the first column, `names` from the next free ones. */
  function Further(columns: seq<nat>, names: seq<string>): seq<Reader>
    requires |columns| == |names|
  {
    [Reader(Some(0), "x")] + seq(|names|, i requires 0 <= i < |names| => Reader(Some(columns[i]), names[i]))
  }

  function Unfilled(names: seq<string>): seq<Reader> {
    [Reader(Some(0), "x")] + seq(|names|, i requires 0 <= i < |names| => Reader(None, names[i]))
  }

  /** The further series made of the remaining columns; columns short of a whole series are lost. */
  function FurtherAll(free: seq<nat>, names: seq<string>): seq<seq<Reader>>
    requires names != []
    decreases |free|
  {
    if |free| < |names| then [] else [Further(free[..|names|], names)] + FurtherAll(free[|names|..], names)
  }

  lemma {:induction false} UnfilledFilled(names: seq<string>, free: seq<nat>, k: nat)
    requires k <= |names|
    ensures Waiting(Unfilled(names)[..k + 1]) == k
    ensures Filled(Unfilled(names)[..k + 1], free)
      == [Reader(Some(0), "x")]
         + seq(k, i requires 0 <= i < k => Reader(if i < |free| then Some(free[i]) else None, names[i]))
  {
    var u := Unfilled(names);
    if k == 0 {
      assert u[..1] == [u[0]] && u[..1][..0] == [];
    } else {
      UnfilledFilled(names, free, k - 1);
      assert u[..k + 1][..k] == u[..k];
    }
  }

  lemma FurtherFilled(names: seq<string>, free: seq<nat>)
    requires names != []
    ensures Waiting(Unfilled(names)) == |names|
    ensures Complete(Filled(Unfilled(names), free)) <==> |free| >= |names|
    ensures |free| >= |names| ==> Filled(Unfilled(names), free) == Further(free[..|names|], names)
  {
    var n := |names|;
    UnfilledFilled(names, free, n);
    assert Unfilled(names)[..n + 1] == Unfilled(names);
    FurtherShape(names, free, Filled(Unfilled(names), free));
  }

  lemma FurtherShape(names: seq<string>, free: seq<nat>, filled: seq<Reader>)
    requires filled == [Reader(Some(0), "x")]
      + seq(|names|, i requires 0 <= i < |names| => Reader(if i < |free| then Some(free[i]) else None, names[i]))
    ensures Complete(filled) <==> |free| >= |names|
    ensures |free| >= |names| ==> filled == Further(free[..|names|], names)
  {
    if |free| < |names| { assert filled[|free| + 1].columnIndex.None?; }
  }

  /** The builders hold these readers. */
  ghost predicate Hold(builders: seq<SeriesBuilder>, texts: seq<seq<Reader>>)
    reads builders
  {
    |builders| == |texts| && forall i {:trigger builders[i]} :: 0 <= i < |builders| ==> builders[i].readers == texts[i]
  }

  ghost predicate Distinct(builders: seq<SeriesBuilder>) {
    forall i, j :: 0 <= i < j < |builders| ==> builders[i] != builders[j]
  }

  function Readers(builders: seq<SeriesBuilder>): seq<seq<Reader>>
    reads builders
  {
    seq(|builders|, i requires 0 <= i < |builders| reads builders => builders[i].readers)
  }

  lemma BothHold(a: seq<SeriesBuilder>, s: seq<seq<Reader>>, b: seq<SeriesBuilder>, t: seq<seq<Reader>>)
    requires Hold(a, s) && Hold(b, t)
    ensures Hold(a + b, s + t)
  {}

  /** Hands the columns out: first to the series from the options, then to further series of
      `|names|` value columns each, until no free column is left. */
  method Allocate(numberOfColumns: nat, builders: seq<SeriesBuilder>, names: seq<string>,
      ghost before: seq<seq<Reader>>)
    returns (kept: seq<SeriesBuilder>, free: FreeList)
    requires names != [] && Distinct(builders) && Hold(builders, before)
    modifies builders
    ensures fresh(free) && free.indexes == []
    ensures var columns := Free(numberOfColumns, ReferencedAll(before));
      Hold(kept, DefinedKept(before, columns) + FurtherAll(Without(DefinedRest(before, columns), 0), names))
  {
    var referenced := Readers(builders);
    assert referenced == before;
    var indexes := GetFreeIndexes(numberOfColumns, referenced);
    free := new FreeList(indexes);
    kept := PopulateDefined(builders, free, before);
    FreeIs(numberOfColumns, ReferencedAll(before));
    RestAscending(before, indexes);
    var further := PopulateFurther(names, free);
    BothHold(kept, DefinedKept(before, indexes), further, FurtherAll(Without(DefinedRest(before, indexes), 0), names));
    kept := kept + further;
  }

  /** The first `k` builders have been populated from the columns `f`; `texts` are those kept. */
  ghost predicate Populating(before: seq<seq<Reader>>, f: seq<nat>, k: nat, texts: seq<seq<Reader>>, free: seq<nat>) {
    && k <= |before|
    && texts + DefinedKept(before[k..], free) == DefinedKept(before, f)
    && DefinedRest(before[k..], free) == DefinedRest(before, f)
  }

  lemma PopulatingStarts(before: seq<seq<Reader>>, f: seq<nat>)
    ensures Populating(before, f, 0, [], f)
  {}

  lemma PopulatingEnds(before: seq<seq<Reader>>, f: seq<nat>, texts: seq<seq<Reader>>, free: seq<nat>)
    requires Populating(before, f, |before|, texts, free)
    ensures texts == DefinedKept(before, f) && free == DefinedRest(before, f)
  {
    assert before[|before|..] == [];
  }

  lemma PopulatingStep(before: seq<seq<Reader>>, f: seq<nat>, k: nat, texts: seq<seq<Reader>>, free: seq<nat>)
    requires Populating(before, f, k, texts, free) && k < |before|
    ensures var filled := Filled(before[k], free);
      Populating(before, f, k + 1, if Complete(filled) then texts + [filled] else texts, Rest(before[k], free))
  {
    var filled, later := Filled(before[k], free), DefinedKept(before[k + 1..], Rest(before[k], free));
    assert before[k..][0] == before[k] && before[k..][1..] == before[k + 1..];
    assert DefinedKept(before[k..], free) == (if Complete(filled) then [filled] else []) + later;
    assert texts + ([filled] + later) == texts + [filled] + later && texts + ([] + later) == texts + later;
  }

  method PopulateDefined(builders: seq<SeriesBuilder>, free: FreeList, ghost before: seq<seq<Reader>>)
      returns (kept: seq<SeriesBuilder>)
    requires Distinct(builders) && Hold(builders, before)
    modifies builders, free
    ensures Hold(kept, DefinedKept(before, old(free.indexes))) && free.indexes == DefinedRest(before, old(free.indexes))
    ensures forall b :: b in kept ==> b in builders
  {
    kept := [];
    ghost var f, texts: seq<seq<Reader>> := free.indexes, [];
    var k := 0;
    PopulatingStarts(before, f);
    while k < |builders|
      invariant 0 <= k <= |builders| == |before| && Hold(kept, texts)
      invariant forall j {:trigger builders[j]} :: k <= j < |builders| ==> builders[j].readers == before[j]
      invariant forall i, j :: 0 <= i < |kept| && k <= j < |builders| ==> kept[i] != builders[j]
      invariant forall b :: b in kept ==> b in builders
      invariant Populating(before, f, k, texts, free.indexes)
    {
      PopulatingStep(before, f, k, texts, free.indexes);
      var enough := builders[k].PopulateColumns(free);
      if enough {
        BothHold(kept, texts, [builders[k]], [builders[k].readers]);
        kept, texts := kept + [builders[k]], texts + [builders[k].readers];
      }
      k := k + 1;
    }
    PopulatingEnds(before, f, texts, free.indexes);
  }

  lemma {:induction false} WithoutOk(s: seq<nat>, x: nat)
    requires Ascending(s)
    ensures Ascending(Without(s, x)) && x !in Without(s, x) && |Without(s, x)| <= |s|
    ensures forall y :: y in Without(s, x) <==> y in s && y != x
    ensures x !in s ==> Without(s, x) == s
    decreases |s|
  {
    if s != [] {
      WithoutOk(s[1..], x);
      assert s == [s[0]] + s[1..];
      if s[0] != x {
        var w := Without(s[1..], x);
        forall k | 0 <= k < |w| ensures s[0] < w[k] { assert w[k] in w && w[k] in s[1..]; }
      }
    }
  }

  /** One further series, and what it leaves. */
  lemma FurtherStep(f: seq<nat>, names: seq<string>, texts: seq<seq<Reader>>)
    requires Ascending(f) && f != [] && names != []
    ensures var g := Without(f, 0);
      var filled, rest := Filled(Unfilled(names), g), Rest(Unfilled(names), g);
      && Ascending(rest) && |rest| < |f|
      && texts + FurtherAll(g, names) == (if Complete(filled) then texts + [filled] else texts)
         + FurtherAll(Without(rest, 0), names)
  {
    var g := Without(f, 0);
    var rest := Rest(Unfilled(names), g);
    WithoutOk(f, 0);
    FurtherFilled(names, g);
    WithoutOk(rest, 0);
    assert 0 !in rest;
  }

  method PopulateFurther(names: seq<string>, free: FreeList) returns (kept: seq<SeriesBuilder>)
    requires names != [] && Ascending(free.indexes)
    modifies free
    ensures free.indexes == [] && forall b :: b in kept ==> fresh(b)
    ensures Hold(kept, FurtherAll(Without(old(free.indexes), 0), names))
  {
    kept := [];
    ghost var texts: seq<seq<Reader>> := [];
    while |free.indexes| > 0
      invariant Hold(kept, texts) && forall b :: b in kept ==> fresh(b)
      invariant Ascending(free.indexes)
      invariant texts + FurtherAll(Without(free.indexes, 0), names) == FurtherAll(Without(old(free.indexes), 0), names)
      decreases |free.indexes|
    {
      FurtherStep(free.indexes, names, texts);
      var builder := MakeFurther(names);
      free.Remove(0);
      var enough := builder.PopulateColumns(free);
      if enough {
        BothHold(kept, texts, [builder], [builder.readers]);
        kept, texts := kept + [builder], texts + [builder.readers];
      }
    }
  }

  method MakeFurther(names: seq<string>) returns (builder: SeriesBuilder)
    ensures fresh(builder) && builder.readers == Unfilled(names)
  {
    builder := new SeriesBuilder();
    builder.AddColumnReader(Some(0), "x");
    for i := 0 to |names|
      invariant fresh(builder) && builder.readers == Unfilled(names)[..i + 1]
    {
      builder.AddColumnReader(None, names[i]);
    }
    assert Unfilled(names)[..|names| + 1] == Unfilled(names);
  }

  // ---- What the allocation promises ---------------------------------------------------------------

  /** The columns given to readers that waited for one. */
  function Given(before: seq<Reader>, after: seq<Reader>): seq<nat>
    requires |before| == |after|
  {
    if before == [] then []
    else
      var n := |before| - 1;
      Given(before[..n], after[..n]) +
        if before[n].columnIndex.None? && after[n].columnIndex.Some? then [after[n].columnIndex.value] else []
  }

  lemma {:induction false} FilledGiven(readers: seq<Reader>, free: seq<nat>)
    ensures Given(readers, Filled(readers, free)) == free[..Least(Waiting(readers), |free|)]
  {
    if readers != [] {
      var n := |readers| - 1;
      var w := Waiting(readers[..n]);
      FilledGiven(readers[..n], free);
      assert Filled(readers, free)[..n] == Filled(readers[..n], free);
      if readers[n].columnIndex.None? && w < |free| { assert free[..w + 1] == free[..w] + [free[w]]; }
    }
  }

  lemma CompleteSplits(readers: seq<Reader>)
    requires readers != []
    ensures var n := |readers| - 1; Complete(readers) <==> Complete(readers[..n]) && readers[n].columnIndex.Some?
  {
    var n := |readers| - 1;
    assert forall k :: 0 <= k < n ==> readers[..n][k] == readers[k];
  }

  lemma {:induction false} FilledComplete(readers: seq<Reader>, free: seq<nat>)
    ensures Complete(Filled(readers, free)) <==> Waiting(readers) <= |free|
  {
    if readers != [] {
      var n := |readers| - 1;
      FilledComplete(readers[..n], free);
      CompleteSplits(Filled(readers, free));
      assert Filled(readers, free)[..n] == Filled(readers[..n], free);
    }
  }

  lemma {:induction false} FilledKeeps(readers: seq<Reader>, free: seq<nat>, k: nat)
    requires k < |readers|
    ensures Filled(readers, free)[k].configName == readers[k].configName
    ensures readers[k].columnIndex.Some? ==> Filled(readers, free)[k] == readers[k]
  {
    var n := |readers| - 1;
    if k < n { FilledKeeps(readers[..n], free, k); }
  }

  /** Waiting readers get the free columns in order, the others keep theirs, and all have one
      exactly if there were enough. */
  lemma {:induction false} FilledOk(readers: seq<Reader>, free: seq<nat>)
    ensures var after, w := Filled(readers, free), Least(Waiting(readers), |free|);
      && Given(readers, after) == free[..w]
      && (Complete(after) <==> Waiting(readers) <= |free|)
      && forall k :: 0 <= k < |readers| ==>
           && after[k].configName == readers[k].configName
           && (readers[k].columnIndex.Some? ==> after[k] == readers[k])
  {
    FilledGiven(readers, free);
    FilledComplete(readers, free);
    forall k | 0 <= k < |readers| ensures
      && Filled(readers, free)[k].configName == readers[k].configName
      && (readers[k].columnIndex.Some? ==> Filled(readers, free)[k] == readers[k])
    {
      FilledKeeps(readers, free, k);
    }
  }

  /** The columns given to the kept series from the options, in order. */
  function GivenDefined(builders: seq<seq<Reader>>, free: seq<nat>): seq<nat>
    decreases |builders|
  {
    if builders == [] then []
    else
      var filled, rest := Filled(builders[0], free), Rest(builders[0], free);
      (if Complete(filled) then Given(builders[0], filled) else []) + GivenDefined(builders[1..], rest)
  }

  lemma {:induction false} RestAscending(builders: seq<seq<Reader>>, free: seq<nat>)
    requires Ascending(free)
    ensures Ascending(DefinedRest(builders, free))
    decreases |builders|
  {
    if builders != [] { RestAscending(builders[1..], Rest(builders[0], free)); }
  }

  /** As long as the free columns last they go to the kept series in order; once a series has to
      be dropped, none is left. */
  lemma {:induction false} DefinedInOrder(builders: seq<seq<Reader>>, free: seq<nat>)
    ensures GivenDefined(builders, free) <= free
    ensures GivenDefined(builders, free) + DefinedRest(builders, free) == free || DefinedRest(builders, free) == []
    ensures free == [] ==> GivenDefined(builders, free) == [] && DefinedRest(builders, free) == []
    decreases |builders|
  {
    if builders != [] {
      var filled, rest := Filled(builders[0], free), Rest(builders[0], free);
      FilledOk(builders[0], free);
      DefinedInOrder(builders[1..], rest);
      if Complete(filled) {
        Chained(free, Waiting(builders[0]), GivenDefined(builders[1..], rest), DefinedRest(builders[1..], rest));
      } else {
        assert rest == [];
      }
    }
  }

  lemma Chained(free: seq<nat>, w: nat, more: seq<nat>, left: seq<nat>)
    requires w <= |free| && more <= free[w..] && (more + left == free[w..] || left == [])
    ensures free[..w] + more <= free && (free[..w] + more + left == free || left == [])
  {}

  /** The columns given to the further series, in order. */
  function GivenFurther(free: seq<nat>, width: nat): seq<nat>
    requires width > 0
    decreases |free|
  {
    if |free| < width then [] else free[..width] + GivenFurther(free[width..], width)
  }

  lemma {:induction false} FurtherInOrder(free: seq<nat>, width: nat)
    requires width > 0
    ensures GivenFurther(free, width) <= free && |free| - |GivenFurther(free, width)| < width
    decreases |free|
  {
    if |free| >= width {
      FurtherInOrder(free[width..], width);
      assert free == free[..width] + free[width..];
    }
  }

  lemma {:induction false} PrefixIn(a: seq<nat>, b: seq<nat>)
    requires a <= b && Ascending(b)
    ensures Ascending(a) && forall x :: x in a ==> x in b
  {}

  /** The columns handed to kept series, from the options and further ones, are those of the free
      list in order, without column 0 if that serves the further series as their x: they rise, so
      no column is given twice, and none of them is named in the options or outside the table. */
  lemma ColumnsDistinct(n: nat, builders: seq<seq<Reader>>, width: nat)
    requires width > 0
    ensures var taken := ReferencedAll(builders);
      var free := Free(n, taken);
      var given := GivenDefined(builders, free) + GivenFurther(Without(DefinedRest(builders, free), 0), width);
      && Ascending(given) && (forall c :: c in given ==> c < n && c !in taken)
      && (given <= free || given <= Without(free, 0))
  {
    var free := Free(n, ReferencedAll(builders));
    var defined, rest := GivenDefined(builders, free), DefinedRest(builders, free);
    var more := GivenFurther(Without(rest, 0), width);
    FreeIs(n, ReferencedAll(builders));
    WithoutOk(free, 0);
    DefinedInOrder(builders, free);
    RestAscending(builders, free);
    FurtherInOrder(Without(rest, 0), width);
    GivenPrefix(free, defined, rest, more);
    if defined + more <= free { PrefixIn(defined + more, free); } else { PrefixIn(defined + more, Without(free, 0)); }
  }

  lemma ZeroFirst(s: seq<nat>, k: nat)
    requires Ascending(s) && k < |s| && s[k] == 0
    ensures k == 0
  {
    var first := s[0];
  }

  /** Column 0, if free, is the first free one: it is either given first or not at all. */
  lemma GivenPrefix(free: seq<nat>, defined: seq<nat>, rest: seq<nat>, more: seq<nat>)
    requires Ascending(free) && defined <= free && (defined + rest == free || rest == [])
    requires Ascending(rest) && more <= Without(rest, 0)
    ensures defined + more <= free || defined + more <= Without(free, 0)
  {
    WithoutOk(rest, 0);
    if rest == [] {
      assert defined + more == defined;
    } else if 0 in rest {
      var k :| 0 <= k < |rest| && rest[k] == 0;
      assert free == defined + rest && free[|defined| + k] == 0;
      ZeroFirst(free, |defined| + k);
      assert defined == [] && defined + more == more && defined + rest == rest;
    } else {
      assert defined + more <= free;
    }
  }

  /** Every kept series has all its readers assigned. */
  lemma {:induction false} KeptComplete(builders: seq<seq<Reader>>, free: seq<nat>)
    ensures forall k :: 0 <= k < |DefinedKept(builders, free)| ==> Complete(DefinedKept(builders, free)[k])
    decreases |builders|
  {
    if builders != [] { KeptComplete(builders[1..], Rest(builders[0], free)); }
  }

  /** Each further series reads x from column 0 and the next `|names|` of the given columns. */
  lemma {:induction false} FurtherColumns(free: seq<nat>, names: seq<string>, k: nat)
    requires names != [] && k < |FurtherAll(free, names)|
    ensures var w, given := |names|, GivenFurther(free, |names|);
      && (k + 1) * w <= |given|
      && FurtherAll(free, names)[k] == Further(given[k * w..(k + 1) * w], names) && Complete(FurtherAll(free, names)[k])
    decreases |free|
  {
    var w := |names|;
    var given := GivenFurther(free, w);
    if k == 0 {
      assert given[0..w] == free[..w];
    } else {
      FurtherColumns(free[w..], names, k - 1);
      var later := GivenFurther(free[w..], w);
      assert given == free[..w] + later;
      assert k * w == (k - 1) * w + w && (k + 1) * w == k * w + w;
      assert given[k * w..(k + 1) * w] == later[(k - 1) * w..k * w];
    }
  }

  // ---- When the loop for further series ends -------------------------------------------------------

  /** What one turn of the loop leaves. */
  function Turn(free: seq<nat>, names: seq<string>): seq<nat> { Rest(Unfilled(names), Without(free, 0)) }

  /** The free columns after `n` turns of the loop. */
  function Turns(free: seq<nat>, names: seq<string>, n: nat): seq<nat>
    decreases n
  {
    if n == 0 then free else Turns(Turn(free, names), names, n - 1)
  }

  /** Without a value column per series, one turn of the loop takes nothing but column 0. */
  lemma NoValueColumns(free: seq<nat>, names: seq<string>)
    requires Ascending(free) && names == []
    ensures Turn(free, names) == Without(free, 0) && Turn(Without(free, 0), names) == Without(free, 0)
  {
    var g := Without(free, 0);
    WithoutOk(free, 0);
    WithoutOk(g, 0);
    UnfilledFilled(names, free, 0);
    assert Unfilled(names)[..1] == Unfilled(names);
  }

  lemma {:induction false} NothingTaken(free: seq<nat>, names: seq<string>, n: nat)
    requires Turn(free, names) == free
    ensures Turns(free, names, n) == free
    decreases n
  {
    if n > 0 { NothingTaken(free, names, n - 1); }
  }

  lemma {:induction false} AllTaken(free: seq<nat>, names: seq<string>) returns (n: nat)
    requires Ascending(free) && names != []
    ensures Turns(free, names, n) == []
    decreases |free|
  {
    n := 0;
    if free != [] {
      FurtherStep(free, names, []);
      n := AllTaken(Turn(free, names), names);
      n := n + 1;
    }
  }

  /** The loop for further series ends exactly if each of them takes a value column, or no column
      but column 0 is free. */
  lemma LoopEnds(free: seq<nat>, names: seq<string>)
    requires Ascending(free)
    ensures (exists n: nat :: Turns(free, names, n) == []) <==> names != [] || Without(free, 0) == []
  {
    if names != [] {
      var n := AllTaken(free, names);
    } else {
      var g := Without(free, 0);
      NoValueColumns(free, names);
      assert Turns(free, names, 0) == free;
      forall n: nat | n > 0 ensures Turns(free, names, n) == g { NothingTaken(g, names, n - 1); }
      if g == [] { assert Turns(free, names, 1) == []; }
    }
  }
}
