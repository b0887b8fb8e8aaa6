/** Natural ordering: strings are cut into runs of digits and runs of other units, and compared
    run by run, digits as numbers. Strings are sequences of UTF-16 code units. */
module Alphanum {
  import opened Wrappers

  type Unit = u: int | 0 <= u < 0x10000

  type Str = seq<Unit>

  /** `Number(s)`: what the engine reads the run as, None for NaN. */
  type Reader = Str -> Option<real>

  // ---- Runs -------------------------------------------------------------------------------

  predicate Digital(u: Unit) { u == 46 || 48 <= u <= 57 }

  /** The text up to the first NUL, where the source's loop stops. */
  function Cut(t: Str): Str
    decreases |t|
  {
    if t == [] || t[0] == 0 then [] else [t[0]] + Cut(t[1..])
  }

  function Flatten(runs: seq<Str>): Str
    decreases |runs|
  {
    if runs == [] then [] else runs[0] + Flatten(runs[1..])
  }

  predicate Run(r: Str) { r != [] && forall i :: 0 <= i < |r| ==> Digital(r[i]) == Digital(r[0]) }

  /** `runs` are the maximal runs of their concatenation. */
  predicate Maximal(runs: seq<Str>) {
    && (forall i :: 0 <= i < |runs| ==> Run(runs[i]))
    && forall i :: 0 < i < |runs| ==> Digital(runs[i - 1][0]) != Digital(runs[i][0])
  }

  lemma {:induction false} FlattenLast(runs: seq<Str>, r: Str)
    ensures Flatten(runs + [r]) == Flatten(runs) + r
    decreases |runs|
  {
    if runs == [] {
      assert [] + [r] == [r] && [r][1..] == [] && r + [] == r && [] + r == r;
    } else {
      assert (runs + [r])[1..] == runs[1..] + [r];
      FlattenLast(runs[1..], r);
    }
  }

  /** There is only one way to cut a text into maximal runs. */
  lemma {:induction false} RunsUnique(a: seq<Str>, b: seq<Str>)
    requires Maximal(a) && Maximal(b) && Flatten(a) == Flatten(b)
    ensures a == b
    decreases |a|
  {
    RunEnds(a);
    RunEnds(b);
    if a != [] && b != [] {
      assert a[0] == Flatten(a)[..|a[0]|] && b[0] == Flatten(b)[..|b[0]|];
      assert Flatten(a[1..]) == Flatten(a)[|a[0]|..] && Flatten(b[1..]) == Flatten(b)[|b[0]|..];
      RunsUnique(a[1..], b[1..]);
      assert a == [a[0]] + a[1..] && b == [b[0]] + b[1..];
    }
  }

  /** The first run ends where the kind of unit first changes. */
  lemma RunEnds(a: seq<Str>)
    requires Maximal(a)
    ensures a == [] <==> Flatten(a) == []
    ensures a != [] ==>
      var t, n := Flatten(a), |a[0]|;
      && n <= |t| && (forall i :: 0 <= i < n ==> Digital(t[i]) == Digital(t[0]))
      && (n < |t| ==> Digital(t[n]) != Digital(t[0]))
  {}

  /** What one turn of the loop does with unit `u`. */
  function Append(runs: seq<Str>, u: Unit): seq<Str>
    requires Maximal(runs)
  {
    var y := |runs| - 1;
    if y >= 0 && Digital(runs[y][0]) == Digital(u) then runs[y := runs[y] + [u]] else runs + [[u]]
  }

  lemma AppendMaximal(runs: seq<Str>, u: Unit)
    requires Maximal(runs)
    ensures Maximal(Append(runs, u)) && Flatten(Append(runs, u)) == Flatten(runs) + [u]
  {
    var y := |runs| - 1;
    if y >= 0 && Digital(runs[y][0]) == Digital(u) {
      LongerRun(runs, u);
      AppendFlatten(runs[..y], runs[y], u);
      assert runs == runs[..y] + [runs[y]] && runs[y := runs[y] + [u]] == runs[..y] + [runs[y] + [u]];
    } else {
      FlattenLast(runs, [u]);
    }
  }

  lemma LongerRun(runs: seq<Str>, u: Unit)
    requires Maximal(runs) && runs != [] && Digital(runs[|runs| - 1][0]) == Digital(u)
    ensures Maximal(runs[|runs| - 1 := runs[|runs| - 1] + [u]])
  {}

  lemma AppendFlatten(before: seq<Str>, r: Str, u: Unit)
    ensures Flatten(before + [r + [u]]) == Flatten(before + [r]) + [u]
  {
    FlattenLast(before, r);
    FlattenLast(before, r + [u]);
    assert Flatten(before) + (r + [u]) == Flatten(before) + r + [u];
  }

  function ChunksFrom(runs: seq<Str>, t: Str): (r: seq<Str>)
    requires Maximal(runs)
    ensures Maximal(r)
    decreases |t|
  {
    if t == [] then runs else
      AppendMaximal(runs, t[0]);
      ChunksFrom(Append(runs, t[0]), t[1..])
  }

  /** The runs of a text. */
  function Chunks(t: Str): seq<Str> { ChunksFrom([], Cut(t)) }

  lemma {:induction false} ChunksFromJoin(runs: seq<Str>, t: Str)
    requires Maximal(runs)
    ensures Flatten(ChunksFrom(runs, t)) == Flatten(runs) + t
    decreases |t|
  {
    if t == [] {
      assert Flatten(runs) + t == Flatten(runs);
    } else {
      AppendMaximal(runs, t[0]);
      ChunksFromJoin(Append(runs, t[0]), t[1..]);
      assert Flatten(runs) + [t[0]] + t[1..] == Flatten(runs) + t;
    }
  }

  /** The runs of a text are maximal and join back to it, up to its first NUL. */
  lemma ChunksJoin(t: Str)
    ensures Maximal(Chunks(t)) && Flatten(Chunks(t)) == Cut(t)
  {
    ChunksFromJoin([], Cut(t));
    assert Flatten([]) + Cut(t) == Cut(t);
  }

  lemma ChunksOn(tz: seq<Str>, t: Str, x: nat)
    requires Maximal(tz) && x < |t| && t[x] != 0
    ensures Maximal(Append(tz, t[x])) && ChunksFrom(Append(tz, t[x]), Cut(t[x + 1..])) == ChunksFrom(tz, Cut(t[x..]))
  {}

  method Chunkify(t: Str) returns (tz: seq<Str>)
    ensures tz == Chunks(t) && Maximal(tz) && Flatten(tz) == Cut(t)
  {
    ChunksJoin(t);
    tz := [];
    var x, y, n := 0, -1, None;
    while x < |t| && t[x] != 0
      invariant 0 <= x <= |t| && Maximal(tz) && y == |tz| - 1
      invariant ChunksFrom(tz, Cut(t[x..])) == Chunks(t)
      invariant n == if y < 0 then None else Some(Digital(tz[y][0]))
    {
      var m := Digital(t[x]);
      ChunksOn(tz, t, x);
      ghost var longer := Append(tz, t[x]);
      if Some(m) != n {
        y, tz, n := y + 1, tz + [[t[x]]], Some(m);
      } else {
        tz := tz[y := tz[y] + [t[x]]];
      }
      assert tz == longer && Digital(tz[y][0]) == m;
      x := x + 1;
    }
    assert Cut(t[x..]) == [];
  }

  // ---- Comparing runs -----------------------------------------------------------------------

  /** String comparison by code units. */
  predicate Below(a: Str, b: Str)
    decreases |a|
  {
    if a == [] || b == [] then |a| < |b|
    else if a[0] != b[0] then a[0] < b[0]
    else Below(a[1..], b[1..])
  }

  lemma {:induction false} BelowTotal(a: Str, b: Str)
    ensures a == b || Below(a, b) || Below(b, a)
    ensures !(Below(a, b) && Below(b, a)) && !Below(a, a)
    decreases |a|
  {
    if a != [] && b != [] {
      BelowTotal(a[1..], b[1..]);
      if a[0] == b[0] && a[1..] == b[1..] { assert a == [a[0]] + a[1..] && b == [b[0]] + b[1..]; }
    }
    if a != [] { BelowTotal(a[1..], a[1..]); }
  }

  lemma {:induction false} BelowTransitive(a: Str, b: Str, c: Str)
    requires Below(a, b) && Below(b, c)
    ensures Below(a, c)
    decreases |a|
  {
    if a != [] && b != [] && c != [] && a[0] == b[0] == c[0] { BelowTransitive(a[1..], b[1..], c[1..]); }
  }

  /** The comparator on two lists of runs. */
  function CompareRuns(number: Reader, aa: seq<Str>, bb: seq<Str>): real
    decreases |aa|
  {
    if aa == [] || bb == [] then (|aa| - |bb|) as real
    else if aa[0] != bb[0] then CompareRun(number, aa[0], bb[0])
    else CompareRuns(number, aa[1..], bb[1..])
  }

  /** The comparator on two different runs. */
  function CompareRun(number: Reader, a: Str, b: Str): real {
    if number(a).Some? && number(b).Some? then number(a).value - number(b).value
    else if Below(b, a) then 1.0 else -1.0
  }

  function Compare(number: Reader, a: Str, b: Str): real { CompareRuns(number, Chunks(a), Chunks(b)) }

  method Alphanum(number: Reader, a: Str, b: Str) returns (r: real)
    ensures r == Compare(number, a, b)
  {
    var aa := Chunkify(a);
    var bb := Chunkify(b);
    r := CompareChunks(number, aa, bb);
  }

  method CompareChunks(number: Reader, aa: seq<Str>, bb: seq<Str>) returns (r: real)
    ensures r == CompareRuns(number, aa, bb)
  {
    var x := 0;
    while x < |aa| && x < |bb|
      invariant 0 <= x <= |aa| && x <= |bb|
      invariant CompareRuns(number, aa[x..], bb[x..]) == CompareRuns(number, aa, bb)
    {
      if aa[x] != bb[x] {
        var c, d := number(aa[x]), number(bb[x]);
        if c.Some? && d.Some? { return c.value - d.value; }
        return if Below(bb[x], aa[x]) then 1.0 else -1.0;
      }
      assert aa[x..][1..] == aa[x + 1..] && bb[x..][1..] == bb[x + 1..];
      x := x + 1;
    }
    return (|aa| - |bb|) as real;
  }

  // ---- Where the comparator is an order ----------------------------------------------------------

  /** The number a run of digits stands for. */
  function Value(r: Str): nat
    requires forall i :: 0 <= i < |r| ==> 48 <= r[i] <= 57
    decreases |r|
  {
    if r == [] then 0 else Value(r[..|r| - 1]) * 10 + (r[|r| - 1] - 48)
  }

  predicate Decimal(r: Str) { r != [] && (forall i :: 0 <= i < |r| ==> 48 <= r[i] <= 57) && (|r| > 1 ==> r[0] != 48) }

  /** Digit runs are decimals that the engine reads exactly; other runs are not read as numbers. */
  predicate Plain(number: Reader, r: Str) {
    if r != [] && Digital(r[0]) then Decimal(r) && number(r) == Some(Value(r) as real) else number(r) == None
  }

  predicate InDomain(number: Reader, t: Str) {
    (forall i :: 0 <= i < |t| ==> t[i] != 0) && forall i :: 0 <= i < |Chunks(t)| ==> Plain(number, Chunks(t)[i])
  }

  lemma {:induction false} ValuePositive(r: Str)
    requires r != [] && (forall i :: 0 <= i < |r| ==> 48 <= r[i] <= 57) && r[0] != 48
    ensures Value(r) > 0
    decreases |r|
  {
    if |r| > 1 { ValuePositive(r[..|r| - 1]); }
  }

  /** Different decimals stand for different numbers. */
  lemma {:induction false} ValueDetermines(a: Str, b: Str)
    requires Decimal(a) && Decimal(b) && Value(a) == Value(b)
    ensures a == b
    decreases |a|
  {
    var m, n := |a| - 1, |b| - 1;
    assert Value(a[..0]) == 0 && Value(b[..0]) == 0;
    if m == 0 {
      if n > 0 { ValuePositive(b[..n]); }
    } else if n == 0 {
      ValuePositive(a[..m]);
    } else {
      ValueDetermines(a[..m], b[..n]);
      assert a == a[..m] + [a[m]] && b == b[..n] + [b[n]];
    }
  }

  /** A run of the kind that `Chunks` yields in the domain. */
  predicate Known(number: Reader, r: Str) { Run(r) && Plain(number, r) }

  lemma RunOpposite(number: Reader, a: Str, b: Str)
    requires Known(number, a) && Known(number, b) && a != b
    ensures CompareRun(number, a, b) == -CompareRun(number, b, a) && CompareRun(number, a, b) != 0.0
  {
    BelowTotal(a, b);
    if Digital(a[0]) && Digital(b[0]) && Value(a) == Value(b) { ValueDetermines(a, b); }
  }

  /** A digit run and another run are told apart by their first units. */
  lemma MixedRuns(number: Reader, a: Str, b: Str)
    requires Known(number, a) && Known(number, b) && Digital(a[0]) != Digital(b[0])
    ensures CompareRun(number, a, b) == if a[0] > b[0] then 1.0 else -1.0
    ensures Digital(a[0]) ==> (b[0] < 48 || b[0] > 57) && 48 <= a[0] <= 57
    ensures Digital(b[0]) ==> (a[0] < 48 || a[0] > 57) && 48 <= b[0] <= 57
  {}

  lemma RunTransitive(number: Reader, a: Str, b: Str, c: Str)
    requires Known(number, a) && Known(number, b) && Known(number, c) && a != b && b != c
    requires CompareRun(number, a, b) < 0.0 && CompareRun(number, b, c) < 0.0
    ensures a != c && CompareRun(number, a, c) < 0.0
  {
    if Digital(a[0]) != Digital(b[0]) { MixedRuns(number, a, b); }
    if Digital(b[0]) != Digital(c[0]) { MixedRuns(number, b, c); }
    if Digital(a[0]) != Digital(c[0]) { MixedRuns(number, a, c); }
    BelowTotal(a, b);
    BelowTotal(b, c);
    if Below(a, b) && Below(b, c) { BelowTransitive(a, b, c); }
    BelowTotal(a, c);
    if !Digital(a[0]) && Digital(b[0]) && !Digital(c[0]) { FirstDecides(a, c); }
  }

  lemma FirstDecides(a: Str, b: Str)
    requires a != [] && b != [] && a[0] < b[0]
    ensures Below(a, b) && !Below(b, a)
  {}

  ghost predicate AllKnown(number: Reader, runs: seq<Str>) {
    forall i :: 0 <= i < |runs| ==> Known(number, runs[i])
  }

  lemma {:induction false} RunsOpposite(number: Reader, a: seq<Str>, b: seq<Str>)
    requires AllKnown(number, a) && AllKnown(number, b)
    ensures CompareRuns(number, a, b) == -CompareRuns(number, b, a)
    ensures CompareRuns(number, a, b) == 0.0 <==> a == b
    decreases |a|
  {
    if a != [] && b != [] {
      if a[0] != b[0] {
        RunOpposite(number, a[0], b[0]);
      } else {
        RunsOpposite(number, a[1..], b[1..]);
        assert a == [a[0]] + a[1..] && b == [b[0]] + b[1..];
      }
    }
  }

  lemma {:induction false} RunsTransitive(number: Reader, a: seq<Str>, b: seq<Str>, c: seq<Str>)
    requires AllKnown(number, a) && AllKnown(number, b) && AllKnown(number, c)
    requires CompareRuns(number, a, b) <= 0.0 && CompareRuns(number, b, c) <= 0.0
    ensures CompareRuns(number, a, c) <= 0.0
    decreases |a|
  {
    RunsOpposite(number, a, b);
    RunsOpposite(number, b, c);
    if a != [] && b != [] && c != [] {
      if a[0] == b[0] == c[0] {
        RunsTransitive(number, a[1..], b[1..], c[1..]);
      } else if a[0] != b[0] && b[0] != c[0] {
        RunOpposite(number, a[0], b[0]);
        RunOpposite(number, b[0], c[0]);
        RunTransitive(number, a[0], b[0], c[0]);
      }
    }
  }

  // ---- Which way round the order is ----------------------------------------------------------

  /** The texts agree on their first `k` units; there `a` ends, or has the smaller unit. */
  predicate LessAt(a: Str, b: Str, k: nat) {
    && k <= |a| && k < |b| && a[..k] == b[..k]
    && (k == |a| || a[k] < b[k])
  }

  lemma LessAtLater(a: Str, b: Str, k: nat)
    requires a != [] && b != [] && a[0] == b[0]
    ensures LessAt(a, b, k + 1) <==> LessAt(a[1..], b[1..], k)
  {
    if k + 1 <= |a| && k + 1 < |b| {
      assert a[..k + 1] == [a[0]] + a[1..][..k] && b[..k + 1] == [b[0]] + b[1..][..k];
      assert a[1..][..k] == a[..k + 1][1..] && b[1..][..k] == b[..k + 1][1..];
    }
  }

  lemma SameStart<T>(a: seq<T>, b: seq<T>, k: nat)
    requires k <= |a| && k <= |b| && a[..k] == b[..k]
    ensures k > 0 ==> a[0] == b[0]
  {
    if k > 0 { assert a[..k][0] == a[0] && b[..k][0] == b[0]; }
  }

  /** One text is below another if and only if it has the smaller unit where they first differ, or
      is a proper beginning of it. */
  lemma {:induction false} BelowMeans(a: Str, b: Str)
    ensures Below(a, b) <==> exists k: nat :: LessAt(a, b, k)
    decreases |a|
  {
    if a == [] || b == [] || a[0] != b[0] {
      assert a[..0] == b[..0];
      assert |a| < |b| && a == [] ==> LessAt(a, b, 0);
      if a != [] && b != [] {
        forall k: nat | LessAt(a, b, k) ensures k == 0 { SameStart(a, b, k); }
        assert a[0] < b[0] ==> LessAt(a, b, 0);
      }
    } else {
      BelowMeans(a[1..], b[1..]);
      if k: nat :| LessAt(a[1..], b[1..], k) { LessAtLater(a, b, k); }
      if k: nat :| LessAt(a, b, k) {
        assert k > 0;
        LessAtLater(a, b, k - 1);
      }
    }
  }

  /** A run comes before another: two digit runs by the numbers they stand for, others by their units. */
  ghost predicate Precedes(a: Str, b: Str) {
    if Decimal(a) && Decimal(b) then Value(a) < Value(b) else exists k: nat :: LessAt(a, b, k)
  }

  lemma RunsOrdered(number: Reader, a: Str, b: Str)
    requires Known(number, a) && Known(number, b) && a != b
    ensures CompareRun(number, a, b) < 0.0 <==> Precedes(a, b)
  {
    BelowTotal(a, b);
    BelowMeans(a, b);
  }

  /** The lists of runs agree on their first `n`; there `a` ends, or has the run that comes before. */
  ghost predicate Smaller(a: seq<Str>, b: seq<Str>, n: nat) {
    && n <= |a| && n < |b| && a[..n] == b[..n]
    && (n == |a| || (a[n] != b[n] && Precedes(a[n], b[n])))
  }

  lemma SmallerLater(a: seq<Str>, b: seq<Str>, n: nat)
    requires a != [] && b != [] && a[0] == b[0]
    ensures Smaller(a, b, n + 1) <==> Smaller(a[1..], b[1..], n)
  {
    if n + 1 <= |a| && n + 1 < |b| {
      assert a[..n + 1] == [a[0]] + a[1..][..n] && b[..n + 1] == [b[0]] + b[1..][..n];
      assert a[1..][..n] == a[..n + 1][1..] && b[1..][..n] == b[..n + 1][1..];
    }
  }

  lemma {:induction false} RunListsOrdered(number: Reader, a: seq<Str>, b: seq<Str>)
    requires AllKnown(number, a) && AllKnown(number, b)
    ensures CompareRuns(number, a, b) < 0.0 <==> exists n: nat :: Smaller(a, b, n)
    decreases |a|
  {
    if a == [] || b == [] {
      assert a[..0] == b[..0];
      assert a == [] && b != [] ==> Smaller(a, b, 0);
    } else if a[0] != b[0] {
      RunsOrdered(number, a[0], b[0]);
      assert a[..0] == b[..0];
      forall n: nat | Smaller(a, b, n) ensures n == 0 { SameStart(a, b, n); }
      assert Precedes(a[0], b[0]) ==> Smaller(a, b, 0);
    } else {
      RunListsOrdered(number, a[1..], b[1..]);
      if n: nat :| Smaller(a[1..], b[1..], n) { SmallerLater(a, b, n); }
      if n: nat :| Smaller(a, b, n) {
        assert n > 0;
        SmallerLater(a, b, n - 1);
      }
    }
  }

  /** A string of the domain comes before another if and only if, where their runs first differ, it has
      the smaller number or otherwise the smaller unit, or its runs are a proper beginning of the
      other's. */
  lemma SmallerFirst(number: Reader, x: Str, y: Str)
    requires InDomain(number, x) && InDomain(number, y)
    ensures Compare(number, x, y) < 0.0 <==> exists n: nat :: Smaller(Chunks(x), Chunks(y), n)
  {
    DomainKnown(number, x);
    DomainKnown(number, y);
    RunListsOrdered(number, Chunks(x), Chunks(y));
  }

  lemma DomainKnown(number: Reader, t: Str)
    requires InDomain(number, t)
    ensures AllKnown(number, Chunks(t)) && Cut(t) == t
  {
    ChunksJoin(t);
    CutWhole(t);
  }

  lemma {:induction false} CutWhole(t: Str)
    requires forall i :: 0 <= i < |t| ==> t[i] != 0
    ensures Cut(t) == t
    decreases |t|
  {
    if t != [] {
      CutWhole(t[1..]);
      assert t == [t[0]] + t[1..];
    }
  }

  /** On its domain the comparator is antisymmetric and zero only on equal strings. */
  lemma Antisymmetric(number: Reader, a: Str, b: Str)
    requires InDomain(number, a) && InDomain(number, b)
    ensures Compare(number, a, b) == -Compare(number, b, a)
    ensures Compare(number, a, b) == 0.0 <==> a == b
  {
    DomainKnown(number, a);
    DomainKnown(number, b);
    RunsOpposite(number, Chunks(a), Chunks(b));
    ChunksJoin(a);
    ChunksJoin(b);
  }

  /** On its domain the comparator is transitive. */
  lemma Transitive(number: Reader, a: Str, b: Str, c: Str)
    requires InDomain(number, a) && InDomain(number, b) && InDomain(number, c)
    requires Compare(number, a, b) <= 0.0 && Compare(number, b, c) <= 0.0
    ensures Compare(number, a, c) <= 0.0
  {
    DomainKnown(number, a);
    DomainKnown(number, b);
    DomainKnown(number, c);
    RunsTransitive(number, Chunks(a), Chunks(b), Chunks(c));
  }

  // ---- Sorting in place -------------------------------------------------------------------------

  /** An element of the array while it is sorted: first a string, then its runs, then a string. */
  datatype Item = Whole(s: Str) | Chunked(runs: seq<Str>)

  ghost predicate Ordered(number: Reader, x: Item, y: Item) {
    x.Chunked? && y.Chunked? && CompareRuns(number, x.runs, y.runs) <= 0.0
  }

  ghost predicate KnownItem(number: Reader, x: Item) { x.Chunked? && AllKnown(number, x.runs) }

  ghost predicate KnownItems(number: Reader, s: seq<Item>) {
    forall k {:trigger s[k]} :: 0 <= k < |s| ==> KnownItem(number, s[k])
  }

  lemma KnownKept(number: Reader, s: seq<Item>, t: seq<Item>)
    requires KnownItems(number, s) && multiset(s) == multiset(t)
    ensures KnownItems(number, t)
  {
    forall k | 0 <= k < |t| ensures KnownItem(number, t[k]) {
      assert t[k] in multiset(t);
      assert t[k] in s;
    }
  }

  lemma OrderedTotal(number: Reader, x: Item, y: Item)
    requires KnownItem(number, x) && KnownItem(number, y)
    ensures Ordered(number, x, y) || Ordered(number, y, x)
  {
    RunsOpposite(number, x.runs, y.runs);
  }

  /** Up to and including position `i` all is in order, but for what precedes position `j`. */
  ghost predicate SortedBut(number: Reader, s: seq<Item>, i: int, j: int) {
    forall p, q {:trigger Ordered(number, s[p], s[q])} ::
      0 <= p < q <= i && q < |s| && q != j ==> Ordered(number, s[p], s[q])
  }

  lemma SwapKeeps(number: Reader, s: seq<Item>, i: int, j: int, t: seq<Item>)
    requires 0 < j <= i < |s| && SortedBut(number, s, i, j) && Ordered(number, s[j], s[j - 1])
    requires t == s[j := s[j - 1]][j - 1 := s[j]]
    ensures SortedBut(number, t, i, j - 1) && multiset(t) == multiset(s)
  {}

  lemma InPlace(number: Reader, s: seq<Item>, i: int, j: int)
    requires 0 <= j <= i < |s| && SortedBut(number, s, i, j) && KnownItems(number, s)
    requires j == 0 || Ordered(number, s[j - 1], s[j])
    ensures SortedBut(number, s, i, -1)
  {
    forall p, q | 0 <= p < q <= i ensures Ordered(number, s[p], s[q]) {
      if q == j && p < j - 1 {
        assert Ordered(number, s[p], s[j - 1]);
        assert KnownItem(number, s[p]) && KnownItem(number, s[j - 1]) && KnownItem(number, s[j]);
        RunsTransitive(number, s[p].runs, s[j - 1].runs, s[j].runs);
      }
    }
  }

  /** The element at `i` moves down to its place. */
  method SiftDown(number: Reader, a: array<Item>, i: nat)
    requires i < a.Length && KnownItems(number, a[..]) && SortedBut(number, a[..], i - 1, -1)
    modifies a
    ensures SortedBut(number, a[..], i, -1) && multiset(a[..]) == multiset(old(a[..]))
  {
    var j := i;
    while j > 0 && CompareRunsOf(number, a[j - 1], a[j]) > 0.0
      invariant 0 <= j <= i && SortedBut(number, a[..], i, j)
      invariant multiset(a[..]) == multiset(old(a[..])) && KnownItems(number, a[..])
    {
      ghost var s := a[..];
      assert KnownItem(number, s[j - 1]) && KnownItem(number, s[j]);
      OrderedTotal(number, s[j - 1], s[j]);
      a[j - 1], a[j] := a[j], a[j - 1];
      SwapKeeps(number, s, i, j, a[..]);
      KnownKept(number, s, a[..]);
      j := j - 1;
    }
    ghost var s := a[..];
    assert KnownItem(number, s[j]) && (j > 0 ==> KnownItem(number, s[j - 1]));
    InPlace(number, s, i, j);
  }

  function CompareRunsOf(number: Reader, x: Item, y: Item): real {
    if x.Chunked? && y.Chunked? then CompareRuns(number, x.runs, y.runs) else 0.0
  }

  /** Insertion sort standing for the engine's sort. */
  method SortChunks(number: Reader, a: array<Item>)
    requires KnownItems(number, a[..])
    modifies a
    ensures SortedBut(number, a[..], a.Length - 1, -1) && multiset(a[..]) == multiset(old(a[..]))
  {
    var i := 0;
    while i < a.Length
      invariant 0 <= i <= a.Length && SortedBut(number, a[..], i - 1, -1)
      invariant multiset(a[..]) == multiset(old(a[..])) && KnownItems(number, a[..])
    {
      ghost var s := a[..];
      SiftDown(number, a, i);
      KnownKept(number, s, a[..]);
      i := i + 1;
    }
  }

  method ChunkAll(a: array<Item>)
    requires forall k :: 0 <= k < a.Length ==> a[k].Whole?
    modifies a
    ensures forall k :: 0 <= k < a.Length ==> old(a[k]).Whole? && a[k] == Chunked(Chunks(old(a[k]).s))
  {
    var z := 0;
    while z < a.Length
      invariant 0 <= z <= a.Length
      invariant forall k :: 0 <= k < z ==> a[k] == Chunked(Chunks(old(a[k]).s))
      invariant forall k :: z <= k < a.Length ==> a[k] == old(a[k])
    {
      var runs := Chunkify(a[z].s);
      a[z] := Chunked(runs);
      z := z + 1;
    }
  }

  function JoinItem(x: Item): Item { if x.Chunked? then Whole(Flatten(x.runs)) else x }

  function Joined(s: seq<Item>): seq<Item> { seq(|s|, i requires 0 <= i < |s| => JoinItem(s[i])) }

  method JoinAll(a: array<Item>)
    modifies a
    ensures a[..] == Joined(old(a[..]))
  {
    var z := 0;
    while z < a.Length
      invariant 0 <= z <= a.Length
      invariant forall k :: 0 <= k < z ==> a[k] == JoinItem(old(a[k]))
      invariant forall k :: z <= k < a.Length ==> a[k] == old(a[k])
    {
      a[z] := JoinItem(a[z]);
      z := z + 1;
    }
  }

  lemma TakenOut(t: seq<Item>, k: nat)
    requires k < |t|
    ensures multiset(t) == multiset(t[..k] + t[k + 1..]) + multiset{t[k]}
  {
    assert t == t[..k] + [t[k]] + t[k + 1..];
  }

  lemma OneLess(a: multiset<Item>, b: multiset<Item>, x: Item)
    requires a + multiset{x} == b + multiset{x}
    ensures a == b
  {
    assert a == a + multiset{x} - multiset{x};
    assert b == b + multiset{x} - multiset{x};
  }

  lemma JoinedWithout(t: seq<Item>, k: nat)
    requires k < |t|
    ensures multiset(Joined(t)) == multiset(Joined(t[..k] + t[k + 1..])) + multiset{JoinItem(t[k])}
  {
    assert Joined(t[..k] + t[k + 1..]) == Joined(t)[..k] + Joined(t)[k + 1..];
    TakenOut(Joined(t), k);
  }

  lemma {:induction false} JoinedPermutes(s: seq<Item>, t: seq<Item>)
    requires multiset(s) == multiset(t)
    ensures multiset(Joined(s)) == multiset(Joined(t))
    decreases |s|
  {
    if s == [] {
      assert |multiset(t)| == 0;
    } else {
      assert s[0] in multiset(t);
      var k :| 0 <= k < |t| && t[k] == s[0];
      TakenOut(s, 0);
      TakenOut(t, k);
      JoinedWithout(s, 0);
      JoinedWithout(t, k);
      OneLess(multiset(s[..0] + s[1..]), multiset(t[..k] + t[k + 1..]), s[0]);
      JoinedPermutes(s[..0] + s[1..], t[..k] + t[k + 1..]);
    }
  }

  /** Strings in the comparator's order. */
  ghost predicate Before(number: Reader, x: Item, y: Item) {
    x.Whole? && y.Whole? && Compare(number, x.s, y.s) <= 0.0
  }

  ghost predicate InOrder(number: Reader, s: seq<Item>) {
    forall p, q :: 0 <= p < q < |s| ==> Before(number, s[p], s[q])
  }

  ghost predicate Sortable(number: Reader, x: Item) { x.Whole? && x.s != [] && InDomain(number, x.s) }

  lemma ChunksBack(number: Reader, x: Item)
    requires Sortable(number, x)
    ensures KnownItem(number, Chunked(Chunks(x.s))) && JoinItem(Chunked(Chunks(x.s))) == x
  {
    DomainKnown(number, x.s);
    ChunksJoin(x.s);
  }

  lemma RunsBack(number: Reader, s: seq<Item>, c: seq<Item>, x: Item)
    requires |c| == |s| && forall k :: 0 <= k < |s| ==> Sortable(number, s[k]) && c[k] == Chunked(Chunks(s[k].s))
    requires x in c
    ensures x.Chunked? && JoinItem(x).Whole? && Chunks(JoinItem(x).s) == x.runs
  {
    var k :| 0 <= k < |c| && c[k] == x;
    ChunksBack(number, s[k]);
  }

  /** Sorting non-empty strings of the domain gives a permutation of them in order. */
  method AlphanumSort(number: Reader, a: array<Item>)
    requires forall k :: 0 <= k < a.Length ==> Sortable(number, a[k])
    modifies a
    ensures multiset(a[..]) == multiset(old(a[..])) && InOrder(number, a[..])
  {
    ghost var s := a[..];
    ChunkAll(a);
    ghost var c := a[..];
    forall k | 0 <= k < |s| ensures KnownItem(number, c[k]) && JoinItem(c[k]) == s[k] { ChunksBack(number, s[k]); }
    SortChunks(number, a);
    ghost var d := a[..];
    JoinAll(a);
    assert Joined(c) == s;
    JoinedPermutes(d, c);
    forall p, q | 0 <= p < q < |d| ensures Before(number, a[..][p], a[..][q]) {
      assert Ordered(number, d[p], d[q]);
      assert d[p] in multiset(d) && d[q] in multiset(d);
      assert d[p] in c && d[q] in c;
      RunsBack(number, s, c, d[p]);
      RunsBack(number, s, c, d[q]);
    }
  }

  /** That result does not depend on the sorting algorithm: there is only one. */
  lemma {:induction false} OnlyOneOrder(number: Reader, s: seq<Item>, t: seq<Item>)
    requires multiset(s) == multiset(t) && InOrder(number, s) && InOrder(number, t)
    requires forall k :: 0 <= k < |s| ==> Sortable(number, s[k])
    ensures s == t
    decreases |s|
  {
    assert |multiset(s)| == |multiset(t)|;
    if s != [] {
      FirstSame(number, s, t);
      RestSame(s, t);
      RestInOrder(number, s);
      RestInOrder(number, t);
      OnlyOneOrder(number, s[1..], t[1..]);
      assert s == [s[0]] + s[1..];
      assert t == [t[0]] + t[1..];
    }
  }

  lemma FirstSame(number: Reader, s: seq<Item>, t: seq<Item>)
    requires multiset(s) == multiset(t) && InOrder(number, s) && InOrder(number, t) && s != [] && t != []
    requires forall k :: 0 <= k < |s| ==> Sortable(number, s[k])
    ensures s[0] == t[0]
  {
    assert t[0] in multiset(t) && s[0] in multiset(s);
    assert t[0] in s && s[0] in t;
    var i :| 0 <= i < |s| && s[i] == t[0];
    var k :| 0 <= k < |t| && t[k] == s[0];
    Antisymmetric(number, s[0].s, t[0].s);
  }

  lemma Headed(s: seq<Item>)
    requires s != []
    ensures multiset(s) == multiset(s[1..]) + multiset{s[0]}
  {
    assert s == [s[0]] + s[1..];
  }

  lemma RestSame(s: seq<Item>, t: seq<Item>)
    requires s != [] && t != [] && multiset(s) == multiset(t) && s[0] == t[0]
    ensures multiset(s[1..]) == multiset(t[1..])
  {
    Headed(s);
    Headed(t);
    OneLess(multiset(s[1..]), multiset(t[1..]), s[0]);
  }

  lemma RestInOrder(number: Reader, s: seq<Item>)
    requires InOrder(number, s) && s != []
    ensures InOrder(number, s[1..])
  {}
}
