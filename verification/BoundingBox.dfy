/** The drawing library's bounding box, in exact real arithmetic: adding a cubic curve makes the
    box contain the whole curve and no more than it must. */
module BoundingBox {
  import opened Wrappers

  /** A coordinate: a number, or the NaN that fresh boxes and unreadable text give. */
  datatype Coord = NaN | Num(v: real)

  function Less(a: Coord, b: Coord): bool { a.Num? && b.Num? && a.v < b.v }

  // ---- One axis -------------------------------------------------------------------------

  /** The extent of a box along one axis. */
  datatype Range = Range(lo: Coord, hi: Coord)

  const EMPTY := Range(NaN, NaN)

  function Extend(r: Range, v: Coord): Range {
    var s := if r.lo.NaN? || r.hi.NaN? then Range(v, v) else r;
    Range(if Less(v, s.lo) then v else s.lo, if Less(s.hi, v) then v else s.hi)
  }

  predicate Sound(r: Range) { if r.lo.NaN? then r.hi.NaN? else r.hi.Num? && r.lo.v <= r.hi.v }

  predicate Contains(r: Range, v: real) { r.lo.Num? && r.hi.Num? && r.lo.v <= v <= r.hi.v }

  lemma ExtendContains(r: Range, v: Coord)
    requires Sound(r)
    ensures Sound(Extend(r, v)) && (v.Num? ==> Contains(Extend(r, v), v.v))
    ensures forall w :: Contains(r, w) ==> Contains(Extend(r, v), w)
    ensures v.NaN? ==> Extend(r, v) == r
    ensures v.Num? ==> Extend(r, v).lo in {r.lo, v} && Extend(r, v).hi in {r.hi, v}
  {}

  function ExtendAll(r: Range, vs: seq<real>): Range
    decreases |vs|
  {
    if vs == [] then r else ExtendAll(Extend(r, Num(vs[0])), vs[1..])
  }

  lemma {:induction false} ExtendAllContains(r: Range, vs: seq<real>)
    requires Sound(r)
    ensures Sound(ExtendAll(r, vs))
    ensures forall w :: Contains(r, w) || w in vs ==> Contains(ExtendAll(r, vs), w)
    ensures var s := ExtendAll(r, vs);
      && (s.lo == r.lo || (s.lo.Num? && s.lo.v in vs))
      && (s.hi == r.hi || (s.hi.Num? && s.hi.v in vs))
    decreases |vs|
  {
    if vs != [] {
      ExtendContains(r, Num(vs[0]));
      ExtendAllContains(Extend(r, Num(vs[0])), vs[1..]);
      forall w | w in vs ensures w == vs[0] || w in vs[1..] {}
    }
  }

  // ---- A cubic along one axis -------------------------------------------------------------

  /** The control values of a cubic along one axis. */
  datatype Cubic = Cubic(p0: real, p1: real, p2: real, p3: real) {
    function At(t: real): real {
      (1.0 - t) * (1.0 - t) * (1.0 - t) * p0 + 3.0 * (1.0 - t) * (1.0 - t) * t * p1
        + 3.0 * (1.0 - t) * t * t * p2 + t * t * t * p3
    }

    /** Six times the cubic as a polynomial, with the slope's coefficients as the source has them. */
    function Expand(): Poly {
      Poly(-3.0 * p0 + 9.0 * p1 - 9.0 * p2 + 3.0 * p3, 6.0 * p0 - 12.0 * p1 + 6.0 * p2, 3.0 * p1 - 3.0 * p0, 6.0 * p0)
    }
  }

  /** The polynomial whose derivative is six times `a t^2 + b t + c`. */
  datatype Poly = Poly(a: real, b: real, c: real, k: real) {
    function At(t: real): real { 2.0 * a * (t * t * t) + 3.0 * b * (t * t) + 6.0 * c * t + k }

    function Slope(t: real): real { a * t * t + b * t + c }

    function Discriminant(): real { b * b - 4.0 * c * a }
  }

  /** A square root: the non-negative root of a non-negative number. */
  ghost predicate IsRoot(root: real -> real) {
    forall v: real {:trigger root(v)} :: v >= 0.0 ==> root(v) >= 0.0 && root(v) * root(v) == v
  }

  function Inside(t: real): seq<real> { if 0.0 < t < 1.0 then [t] else [] }

  /** The parameters strictly between 0 and 1 at which the box looks besides the ends. */
  function Critical(p: Poly, root: real -> real): seq<real> {
    if p.a == 0.0 then
      if p.b == 0.0 then [] else Inside(-p.c / p.b)
    else if p.Discriminant() < 0.0 then []
    else
      var s := root(p.Discriminant());
      Inside((-p.b + s) / (2.0 * p.a)) + Inside((-p.b - s) / (2.0 * p.a))
  }

  function Values(q: Cubic, ts: seq<real>): seq<real> {
    seq(|ts|, i requires 0 <= i < |ts| => q.At(ts[i]))
  }

  function AddCubic(r: Range, q: Cubic, root: real -> real): Range {
    ExtendAll(Extend(Extend(r, Num(q.p0)), Num(q.p3)), Values(q, Critical(q.Expand(), root)))
  }

  // ---- Between critical points a cubic is monotone -----------------------------------------

  /** Simpson's rule is exact for the quadratic slope. */
  lemma Simpson(p: Poly, x: real, y: real)
    ensures p.At(y) - p.At(x) == (y - x) * (p.Slope(x) + 4.0 * p.Slope((x + y) / 2.0) + p.Slope(y))
  {}

  /** The cubic as a polynomial. */
  lemma Expanded(q: Cubic, t: real)
    ensures 6.0 * q.At(t) == q.Expand().At(t)
  {}

  lemma Rises(p: Poly, x: real, y: real)
    requires x <= y && p.Slope(x) >= 0.0 && p.Slope((x + y) / 2.0) >= 0.0 && p.Slope(y) >= 0.0
    ensures p.At(x) <= p.At(y)
  {}

  lemma Falls(p: Poly, x: real, y: real)
    requires x <= y && p.Slope(x) <= 0.0 && p.Slope((x + y) / 2.0) <= 0.0 && p.Slope(y) <= 0.0
    ensures p.At(x) >= p.At(y)
  {}

  lemma Negate(x: real, y: real)
    ensures x * -y == -(x * y)
  {}

  ghost predicate Rising(p: Poly, l: real, r: real) {
    forall u: real {:trigger p.Slope(u)} :: l <= u <= r ==> p.Slope(u) >= 0.0
  }

  ghost predicate Falling(p: Poly, l: real, r: real) {
    forall u: real {:trigger p.Slope(u)} :: l <= u <= r ==> p.Slope(u) <= 0.0
  }

  /** Where the slope does not change sign, the cubic lies between its values at the ends. */
  lemma Between(p: Poly, l: real, t: real, r: real)
    requires l <= t <= r && (Rising(p, l, r) || Falling(p, l, r))
    ensures p.At(l) <= p.At(t) <= p.At(r) || p.At(r) <= p.At(t) <= p.At(l)
  {
    if Rising(p, l, r) {
      Rises(p, l, t);
      Rises(p, t, r);
    } else {
      Falls(p, l, t);
      Falls(p, t, r);
    }
  }

  lemma Product(x: real, y: real)
    requires x >= 0.0 && y >= 0.0
    ensures x * y >= 0.0
  {}

  // ---- Where the slope keeps its sign --------------------------------------------------------

  /** The roots of a slope with a non-negative discriminant, `s` being its square root. */
  lemma Factored(p: Poly, s: real, t: real)
    requires p.a != 0.0 && s * s == p.Discriminant()
    ensures var a, b := p.a, p.b;
      p.Slope(t) == a * ((t - (-b + s) / (2.0 * a)) * (t - (-b - s) / (2.0 * a)))
  {}

  lemma Cancel(k: real, x: real, y: real)
    requires k != 0.0 && k * x == k * y
    ensures x == y
  {}

  /** A slope with a negative discriminant has the sign of its leading coefficient. */
  lemma NoRoots(p: Poly, t: real)
    requires p.Discriminant() < 0.0 && p.a != 0.0
    ensures if p.a > 0.0 then p.Slope(t) > 0.0 else p.Slope(t) < 0.0
  {
    var a, b, c := p.a, p.b, p.c;
    var w := 2.0 * a * t + b;
    assert w * w >= 0.0;
    assert 4.0 * a * (a * t * t + b * t + c) == w * w - p.Discriminant() by {
      assert w * w == 4.0 * a * a * (t * t) + 4.0 * a * b * t + b * b;
      assert 4.0 * a * (a * t * t + b * t + c) == 4.0 * a * a * (t * t) + 4.0 * a * b * t + 4.0 * a * c;
    }
    Sign(4.0 * a, p.Slope(t));
  }

  lemma Sign(k: real, x: real)
    requires k != 0.0 && k * x > 0.0
    ensures if k > 0.0 then x > 0.0 else x < 0.0
  {}

  /** The box looks at the ends and at the critical parameters. */
  ghost predicate Seen(p: Poly, root: real -> real, t: real) {
    t == 0.0 || t == 1.0 || t in Critical(p, root)
  }

  function Clamp(t: real): real { if t <= 0.0 then 0.0 else if t >= 1.0 then 1.0 else t }

  ghost predicate Monotone(p: Poly, l: real, r: real) { Rising(p, l, r) || Falling(p, l, r) }

  /** The slope is linear, or constant. */
  lemma EnclosedLinear(p: Poly, root: real -> real, t: real) returns (l: real, r: real)
    requires p.a == 0.0 && 0.0 <= t <= 1.0
    ensures 0.0 <= l <= t <= r <= 1.0 && Seen(p, root, l) && Seen(p, root, r) && Monotone(p, l, r)
  {
    l, r := 0.0, 1.0;
    if p.b == 0.0 {
      assert forall u: real {:trigger p.Slope(u)} :: p.Slope(u) == p.c;
    } else {
      var u := -p.c / p.b;
      if t <= u { r := Clamp(u); } else { l := Clamp(u); }
      forall w: real | l <= w <= r ensures if (t <= u) == (p.b > 0.0) then p.Slope(w) <= 0.0 else p.Slope(w) >= 0.0 {
        assert p.b * (w - u) == p.b * w + p.c;
        if t <= u { SignOf(p.b, u - w); Negate(p.b, w - u); } else { SignOf(p.b, w - u); }
      }
    }
  }

  lemma SignOf(k: real, x: real)
    requires x >= 0.0
    ensures if k >= 0.0 then k * x >= 0.0 else k * x <= 0.0
  {}

  /** A product of the distances to two roots changes sign only at them. */
  lemma RootSigns(u: real, v: real, w: real)
    ensures (w <= u && w <= v) || (w >= u && w >= v) ==> (w - u) * (w - v) >= 0.0
    ensures (u <= w <= v) || (v <= w <= u) ==> (w - u) * (w - v) <= 0.0
  {}

  ghost predicate Outside(u: real, v: real, w: real) { (w <= u && w <= v) || (w >= u && w >= v) }

  ghost predicate Amid(u: real, v: real, w: real) { (u <= w <= v) || (v <= w <= u) }

  /** The stretch of [0, 1] around `t` that two points cut out. */
  lemma Zone(u: real, v: real, t: real) returns (l: real, r: real)
    requires 0.0 <= t <= 1.0
    ensures 0.0 <= l <= t <= r <= 1.0
    ensures l in {0.0, 1.0, u, v} && r in {0.0, 1.0, u, v}
    ensures (forall w :: l <= w <= r ==> Outside(u, v, w)) || (forall w :: l <= w <= r ==> Amid(u, v, w))
  {
    var lo, hi := if u <= v then u else v, if u <= v then v else u;
    l, r := 0.0, 1.0;
    if t <= lo { r := Clamp(lo); } else if t <= hi { l, r := Clamp(lo), Clamp(hi); } else { l := Clamp(hi); }
  }

  lemma SlopeOutside(p: Poly, s: real, w: real)
    requires p.a != 0.0 && s * s == p.Discriminant()
    ensures var u, v := (-p.b + s) / (2.0 * p.a), (-p.b - s) / (2.0 * p.a);
      && (Outside(u, v, w) ==> if p.a > 0.0 then p.Slope(w) >= 0.0 else p.Slope(w) <= 0.0)
      && (Amid(u, v, w) ==> if p.a > 0.0 then p.Slope(w) <= 0.0 else p.Slope(w) >= 0.0)
  {
    var u, v := (-p.b + s) / (2.0 * p.a), (-p.b - s) / (2.0 * p.a);
    Factored(p, s, w);
    RootSigns(u, v, w);
    var d := (w - u) * (w - v);
    if Outside(u, v, w) { SignOf(p.a, d); }
    if Amid(u, v, w) { SignOf(p.a, -d); Negate(p.a, d); }
  }

  lemma EnclosedQuadratic(p: Poly, root: real -> real, t: real) returns (l: real, r: real)
    requires p.a != 0.0 && p.Discriminant() >= 0.0 && IsRoot(root) && 0.0 <= t <= 1.0
    ensures 0.0 <= l <= t <= r <= 1.0 && Seen(p, root, l) && Seen(p, root, r) && Monotone(p, l, r)
  {
    var s := root(p.Discriminant());
    l, r := Zone((-p.b + s) / (2.0 * p.a), (-p.b - s) / (2.0 * p.a), t);
    forall w: real ensures
      var u, v := (-p.b + s) / (2.0 * p.a), (-p.b - s) / (2.0 * p.a);
      && (Outside(u, v, w) ==> if p.a > 0.0 then p.Slope(w) >= 0.0 else p.Slope(w) <= 0.0)
      && (Amid(u, v, w) ==> if p.a > 0.0 then p.Slope(w) <= 0.0 else p.Slope(w) >= 0.0)
    {
      SlopeOutside(p, s, w);
    }
  }

  /** Every parameter lies between two that the box looks at, on a stretch where the curve is monotone. */
  lemma Enclosed(p: Poly, root: real -> real, t: real) returns (l: real, r: real)
    requires IsRoot(root) && 0.0 <= t <= 1.0
    ensures 0.0 <= l <= t <= r <= 1.0 && Seen(p, root, l) && Seen(p, root, r) && Monotone(p, l, r)
  {
    if p.a == 0.0 {
      l, r := EnclosedLinear(p, root, t);
    } else if p.Discriminant() < 0.0 {
      l, r := 0.0, 1.0;
      forall w: real ensures if p.a > 0.0 then p.Slope(w) > 0.0 else p.Slope(w) < 0.0 { NoRoots(p, w); }
    } else {
      l, r := EnclosedQuadratic(p, root, t);
    }
  }

  // ---- The box contains the curve, and no more than it must ------------------------------------

  lemma EndsAndCritical(r: Range, q: Cubic, root: real -> real, t: real)
    requires Sound(r) && Seen(q.Expand(), root, t)
    ensures Contains(AddCubic(r, q, root), q.At(t))
  {
    var ts := Critical(q.Expand(), root);
    ExtendContains(r, Num(q.p0));
    ExtendContains(Extend(r, Num(q.p0)), Num(q.p3));
    ExtendAllContains(Extend(Extend(r, Num(q.p0)), Num(q.p3)), Values(q, ts));
    assert q.At(0.0) == q.p0 && q.At(1.0) == q.p3;
    if t in ts {
      var i :| 0 <= i < |ts| && ts[i] == t;
      assert Values(q, ts)[i] == q.At(t);
    }
  }

  /** The box contains the cubic at every parameter from 0 to 1. */
  lemma CubicContained(r: Range, q: Cubic, root: real -> real, t: real)
    requires Sound(r) && IsRoot(root) && 0.0 <= t <= 1.0
    ensures Contains(AddCubic(r, q, root), q.At(t))
  {
    var a, b := Enclosed(q.Expand(), root, t);
    Between(q.Expand(), a, t, b);
    Expanded(q, a);
    Expanded(q, t);
    Expanded(q, b);
    EndsAndCritical(r, q, root, a);
    EndsAndCritical(r, q, root, b);
  }

  lemma CriticalInside(p: Poly, root: real -> real, t: real)
    requires t in Critical(p, root)
    ensures 0.0 < t < 1.0
  {}

  /** Each side of the box is where it was or touches the curve; what the box held it keeps. */
  lemma CubicTight(r: Range, q: Cubic, root: real -> real)
    requires Sound(r)
    ensures var s := AddCubic(r, q, root);
      && Sound(s) && (forall w :: Contains(r, w) ==> Contains(s, w))
      && (s.lo == r.lo || exists t :: 0.0 <= t <= 1.0 && s.lo == Num(q.At(t)))
      && (s.hi == r.hi || exists t :: 0.0 <= t <= 1.0 && s.hi == Num(q.At(t)))
  {
    var ts, s := Critical(q.Expand(), root), AddCubic(r, q, root);
    var vs, e := Values(q, ts), Extend(Extend(r, Num(q.p0)), Num(q.p3));
    ExtendContains(r, Num(q.p0));
    ExtendContains(Extend(r, Num(q.p0)), Num(q.p3));
    ExtendAllContains(e, vs);
    assert q.At(0.0) == q.p0 && q.At(1.0) == q.p3;
    forall v | v in vs ensures exists t :: 0.0 <= t <= 1.0 && v == q.At(t) {
      var i :| 0 <= i < |vs| && vs[i] == v;
      CriticalInside(q.Expand(), root, ts[i]);
    }
  }

  /** The curve, or the range it is added to, comes down to `w` and up to `w`. */
  ghost predicate Reaches(r: Range, q: Cubic, w: real) {
    && ((r.lo.Num? && r.lo.v <= w) || exists t :: 0.0 <= t <= 1.0 && q.At(t) <= w)
    && ((r.hi.Num? && w <= r.hi.v) || exists t :: 0.0 <= t <= 1.0 && w <= q.At(t))
  }

  /** The box is the smallest interval that holds the range and the whole curve. */
  lemma BoxReaches(r: Range, q: Cubic, root: real -> real, w: real)
    requires Sound(r) && IsRoot(root)
    ensures Contains(AddCubic(r, q, root), w) <==> Reaches(r, q, w)
  {
    CubicTight(r, q, root);
    CubicContained(r, q, root, 0.0);
    var s := AddCubic(r, q, root);
    if r.lo.Num? { assert Contains(r, r.lo.v) && Contains(r, r.hi.v); }
    forall t | 0.0 <= t <= 1.0 ensures Contains(s, q.At(t)) { CubicContained(r, q, root, t); }
  }

  // ---- The box as an object -------------------------------------------------------------------

  /** A curve along one axis; if a control value is NaN so are all candidates, and none is added. */
  function AddCurve(r: Range, p0: Coord, p1: Coord, p2: Coord, p3: Coord, root: real -> real): Range {
    if p0.Num? && p1.Num? && p2.Num? && p3.Num? then AddCubic(r, Cubic(p0.v, p1.v, p2.v, p3.v), root)
    else Extend(Extend(r, p0), p3)
  }

  lemma CurveEnds(r: Range, p0: Coord, p1: Coord, p2: Coord, p3: Coord, root: real -> real)
    requires Sound(r)
    ensures var s := AddCurve(r, p0, p1, p2, p3, root);
      && Sound(s) && (forall w :: Contains(r, w) ==> Contains(s, w))
      && (p0.Num? ==> Contains(s, p0.v)) && (p3.Num? ==> Contains(s, p3.v))
  {
    ExtendContains(r, p0);
    ExtendContains(Extend(r, p0), p3);
    if p0.Num? && p1.Num? && p2.Num? && p3.Num? {
      var q := Cubic(p0.v, p1.v, p2.v, p3.v);
      ExtendAllContains(Extend(Extend(r, p0), p3), Values(q, Critical(q.Expand(), root)));
    }
  }

  /** `a + k (b - a)`, NaN if a coordinate is. */
  function Towards(a: Coord, b: Coord, k: real): Coord {
    if a.Num? && b.Num? then Num(a.v + k * (b.v - a.v)) else NaN
  }

  function Shifted(a: Coord, from: Coord, to: Coord, k: real): Coord {
    if a.Num? && from.Num? && to.Num? then Num(a.v + k * (to.v - from.v)) else NaN
  }

  class Box {
    var x1: Coord
    var y1: Coord
    var x2: Coord
    var y2: Coord

    ghost function X(): Range
      reads this
    {
      Range(x1, x2)
    }

    ghost function Y(): Range
      reads this
    {
      Range(y1, y2)
    }

    constructor ()
      ensures X() == EMPTY && Y() == EMPTY
    {
      x1, y1, x2, y2 := NaN, NaN, NaN, NaN;
    }

    /** Adds a point; None stands for a coordinate that is left out. */
    method AddPoint(x: Option<Coord>, y: Option<Coord>)
      modifies this
      ensures X() == if x.Some? then Extend(old(X()), x.value) else old(X())
      ensures Y() == if y.Some? then Extend(old(Y()), y.value) else old(Y())
    {
      if x.Some? {
        if x1.NaN? || x2.NaN? { x1, x2 := x.value, x.value; }
        if Less(x.value, x1) { x1 := x.value; }
        if Less(x2, x.value) { x2 := x.value; }
      }
      if y.Some? {
        if y1.NaN? || y2.NaN? { y1, y2 := y.value, y.value; }
        if Less(y.value, y1) { y1 := y.value; }
        if Less(y2, y.value) { y2 := y.value; }
      }
    }

    /** The other box may be this one; it then stays as it is. */
    method AddBoundingBox(bb: Box)
      modifies this
      ensures bb != this ==>
        X() == Extend(Extend(old(X()), bb.x1), bb.x2) && Y() == Extend(Extend(old(Y()), bb.y1), bb.y2)
      ensures bb == this && old(Sound(X()) && Sound(Y())) ==> X() == old(X()) && Y() == old(Y())
    {
      AddPoint(Some(bb.x1), Some(bb.y1));
      AddPoint(Some(bb.x2), Some(bb.y2));
    }

    /** Adds the value of a cubic at `t` to axis `i` if `t` lies strictly between 0 and 1. */
    method AddAt(i: nat, q: Cubic, t: real)
      requires i < 2
      modifies this
      ensures X() == if i == 0 then ExtendAll(old(X()), Values(q, Inside(t))) else old(X())
      ensures Y() == if i == 1 then ExtendAll(old(Y()), Values(q, Inside(t))) else old(Y())
    {
      One(if i == 0 then X() else Y(), q, t);
      if 0.0 < t < 1.0 {
        if i == 0 { AddPoint(Some(Num(q.At(t))), None); }
        if i == 1 { AddPoint(None, Some(Num(q.At(t)))); }
      }
    }

    /** The values of a cubic along axis `i` where the slope `p` has its roots. */
    method AddCritical(i: nat, q: Cubic, p: Poly, root: real -> real)
      requires i < 2
      modifies this
      ensures X() == if i == 0 then ExtendAll(old(X()), Values(q, Critical(p, root))) else old(X())
      ensures Y() == if i == 1 then ExtendAll(old(Y()), Values(q, Critical(p, root))) else old(Y())
    {
      if p.a == 0.0 {
        if p.b == 0.0 { return; }
        AddAt(i, q, -p.c / p.b);
        return;
      }
      var b2ac := p.Discriminant();
      if b2ac < 0.0 { return; }
      var t1 := (-p.b + root(b2ac)) / (2.0 * p.a);
      var t2 := (-p.b - root(b2ac)) / (2.0 * p.a);
      Two(if i == 0 then X() else Y(), q, t1, t2);
      AddAt(i, q, t1);
      AddAt(i, q, t2);
    }

    /** The extrema of a cubic along axis `i`. */
    method AddExtrema(i: nat, q: Cubic, root: real -> real)
      requires i < 2
      modifies this
      ensures X() == if i == 0 then ExtendAll(old(X()), Values(q, Critical(q.Expand(), root))) else old(X())
      ensures Y() == if i == 1 then ExtendAll(old(Y()), Values(q, Critical(q.Expand(), root))) else old(Y())
    {
      var b := 6.0 * q.p0 - 12.0 * q.p1 + 6.0 * q.p2;
      var a := -3.0 * q.p0 + 9.0 * q.p1 - 9.0 * q.p2 + 3.0 * q.p3;
      var c := 3.0 * q.p1 - 3.0 * q.p0;
      AddCritical(i, q, Poly(a, b, c, 6.0 * q.p0), root);
    }

    method AddBezierCurve(p0x: Coord, p0y: Coord, p1x: Coord, p1y: Coord, p2x: Coord, p2y: Coord, p3x: Coord,
        p3y: Coord,
                          root: real -> real)
      modifies this
      ensures X() == AddCurve(old(X()), p0x, p1x, p2x, p3x, root)
      ensures Y() == AddCurve(old(Y()), p0y, p1y, p2y, p3y, root)
    {
      AddPoint(Some(p0x), Some(p0y));
      AddPoint(Some(p3x), Some(p3y));
      if p0x.Num? && p1x.Num? && p2x.Num? && p3x.Num? {
        AddExtrema(0, Cubic(p0x.v, p1x.v, p2x.v, p3x.v), root);
      }
      if p0y.Num? && p1y.Num? && p2y.Num? && p3y.Num? {
        AddExtrema(1, Cubic(p0y.v, p1y.v, p2y.v, p3y.v), root);
      }
    }

    /** Adds a quadratic curve as the source does: the inner control coordinates change places. */
    method AddQuadraticCurve(p0x: Coord, p0y: Coord, p1x: Coord, p1y: Coord, p2x: Coord, p2y: Coord, root: real -> real)
      modifies this
      ensures var cp1x, cp1y := Towards(p0x, p1x, 2.0 / 3.0), Towards(p0y, p1y, 2.0 / 3.0);
        && X() == AddCurve(old(X()), p0x, cp1x, cp1y, p2x, root)
        && Y() == AddCurve(old(Y()), p0y, Shifted(cp1x, p0x, p2x, 1.0 / 3.0), Shifted(cp1y, p0y, p2y, 1.0 / 3.0), p2y,
           root)
    {
      var cp1x, cp1y := Towards(p0x, p1x, 2.0 / 3.0), Towards(p0y, p1y, 2.0 / 3.0);
      var cp2x, cp2y := Shifted(cp1x, p0x, p2x, 1.0 / 3.0), Shifted(cp1y, p0y, p2y, 1.0 / 3.0);
      AddBezierCurve(p0x, p0y, cp1x, cp2x, cp1y, cp2y, p2x, p2y, root);
    }

  }

  lemma One(r: Range, q: Cubic, t: real)
    ensures 0.0 < t < 1.0 ==> ExtendAll(r, Values(q, Inside(t))) == Extend(r, Num(q.At(t)))
    ensures !(0.0 < t < 1.0) ==> ExtendAll(r, Values(q, Inside(t))) == r
  {}

  lemma Two(r: Range, q: Cubic, t: real, u: real)
    ensures ExtendAll(r, Values(q, Inside(t) + Inside(u)))
      == ExtendAll(ExtendAll(r, Values(q, Inside(t))), Values(q, Inside(u)))
  {
    assert Values(q, Inside(t) + Inside(u)) == Values(q, Inside(t)) + Values(q, Inside(u));
    One(r, q, t);
    if 0.0 < t < 1.0 {
      assert (Values(q, [t]) + Values(q, Inside(u)))[1..] == Values(q, Inside(u));
      assert (Values(q, [t]) + Values(q, Inside(u)))[0] == q.At(t);
    } else {
      assert Values(q, []) + Values(q, Inside(u)) == Values(q, Inside(u));
    }
  }

  function QuadraticAt(p0: real, p1: real, p2: real, t: real): real {
    (1.0 - t) * (1.0 - t) * p0 + 2.0 * (1.0 - t) * t * p1 + t * t * p2
  }

  /** A quadratic curve is the cubic with control points two thirds of the way to its own. */
  lemma Elevated(p0: real, p1: real, p2: real, t: real)
    ensures var c := p0 + 2.0 / 3.0 * (p1 - p0);
      Cubic(p0, c, c + 1.0 / 3.0 * (p2 - p0), p2).At(t) == QuadraticAt(p0, p1, p2, t)
  {}

  /** The box made for a quadratic curve contains it if the two coordinates that change places are equal. */
  lemma QuadraticContained(x: Range, y: Range, p0x: real, p0y: real, p1x: real, p1y: real, p2x: real, p2y: real,
      root: real -> real, t: real)
    requires Sound(x) && Sound(y) && IsRoot(root) && 0.0 <= t <= 1.0
    requires p0x + 2.0 / 3.0 * (p1x - p0x) + 1.0 / 3.0 * (p2x - p0x) == p0y + 2.0 / 3.0 * (p1y - p0y)
    ensures var cp1x, cp1y := Towards(Num(p0x), Num(p1x), 2.0 / 3.0), Towards(Num(p0y), Num(p1y), 2.0 / 3.0);
      var cp2x, cp2y := Shifted(cp1x, Num(p0x), Num(p2x), 1.0 / 3.0), Shifted(cp1y, Num(p0y), Num(p2y), 1.0 / 3.0);
      && Contains(AddCurve(x, Num(p0x), cp1x, cp1y, Num(p2x), root), QuadraticAt(p0x, p1x, p2x, t))
      && Contains(AddCurve(y, Num(p0y), cp2x, cp2y, Num(p2y), root), QuadraticAt(p0y, p1y, p2y, t))
  {
    var cx, cy := p0x + 2.0 / 3.0 * (p1x - p0x), p0y + 2.0 / 3.0 * (p1y - p0y);
    Elevated(p0x, p1x, p2x, t);
    Elevated(p0y, p1y, p2y, t);
    CubicContained(x, Cubic(p0x, cx, cx + 1.0 / 3.0 * (p2x - p0x), p2x), root, t);
    CubicContained(y, Cubic(p0y, cy, cy + 1.0 / 3.0 * (p2y - p0y), p2y), root, t);
  }

  /** The parameter at which a quadratic curve turns, if it does so between its ends. */
  function Turning(p0: real, p1: real, p2: real): seq<real> {
    var d := p0 - 2.0 * p1 + p2;
    if d == 0.0 then [] else Inside((p0 - p1) / d)
  }

  lemma Halved(x: real, d: real)
    requires d != 0.0
    ensures (2.0 * x) / (2.0 * d) == x / d
  {}

  lemma TurningSeen(p0: real, p1: real, p2: real, root: real -> real)
    ensures var c := p0 + 2.0 / 3.0 * (p1 - p0);
      var p := Cubic(p0, c, c + 1.0 / 3.0 * (p2 - p0), p2).Expand();
      p.a == 0.0 && Critical(p, root) == Turning(p0, p1, p2)
  {
    var c, d := p0 + 2.0 / 3.0 * (p1 - p0), p0 - 2.0 * p1 + p2;
    var p := Cubic(p0, c, c + 1.0 / 3.0 * (p2 - p0), p2).Expand();
    assert p.b == 2.0 * d && -p.c == 2.0 * (p0 - p1);
    if d != 0.0 { Halved(p0 - p1, d); }
  }

  ghost predicate Holds(b: Range, p0: real, p1: real, p2: real) {
    forall t :: 0.0 <= t <= 1.0 ==> Contains(b, QuadraticAt(p0, p1, p2, t))
  }

  /** The cubic, or the range it is added to, reaches as far as the quadratic curve where it turns. */
  ghost predicate ReachesTurn(r: Range, q: Cubic, p0: real, p1: real, p2: real) {
    forall t :: t in Turning(p0, p1, p2) ==> Reaches(r, q, QuadraticAt(p0, p1, p2, t))
  }

  /** A range that holds both ends holds the quadratic curve exactly if it holds its turning point. */
  lemma TurningDecides(b: Range, p0: real, p1: real, p2: real)
    requires Contains(b, p0) && Contains(b, p2)
    ensures Holds(b, p0, p1, p2) <==>
      forall t :: t in Turning(p0, p1, p2) ==> Contains(b, QuadraticAt(p0, p1, p2, t))
  {
    if forall t :: t in Turning(p0, p1, p2) ==> Contains(b, QuadraticAt(p0, p1, p2, t)) {
      forall t | 0.0 <= t <= 1.0 ensures Contains(b, QuadraticAt(p0, p1, p2, t)) { TurningBounds(b, p0, p1, p2, t); }
    }
  }

  lemma TurningBounds(b: Range, p0: real, p1: real, p2: real, t: real)
    requires Contains(b, p0) && Contains(b, p2) && 0.0 <= t <= 1.0
    requires forall u :: u in Turning(p0, p1, p2) ==> Contains(b, QuadraticAt(p0, p1, p2, u))
    ensures Contains(b, QuadraticAt(p0, p1, p2, t))
  {
    var c := p0 + 2.0 / 3.0 * (p1 - p0);
    var q := Cubic(p0, c, c + 1.0 / 3.0 * (p2 - p0), p2);
    var root := (v: real) => v;
    TurningSeen(p0, p1, p2, root);
    var l, r := EnclosedLinear(q.Expand(), root, t);
    Between(q.Expand(), l, t, r);
    SeenHeld(b, p0, p1, p2, l);
    SeenHeld(b, p0, p1, p2, r);
    SameValue(p0, p1, p2, l);
    SameValue(p0, p1, p2, t);
    SameValue(p0, p1, p2, r);
  }

  lemma SameValue(p0: real, p1: real, p2: real, t: real)
    ensures var c := p0 + 2.0 / 3.0 * (p1 - p0);
      6.0 * QuadraticAt(p0, p1, p2, t) == Cubic(p0, c, c + 1.0 / 3.0 * (p2 - p0), p2).Expand().At(t)
  {
    Elevated(p0, p1, p2, t);
    var c := p0 + 2.0 / 3.0 * (p1 - p0);
    Expanded(Cubic(p0, c, c + 1.0 / 3.0 * (p2 - p0), p2), t);
  }

  lemma SeenHeld(b: Range, p0: real, p1: real, p2: real, t: real)
    requires Contains(b, p0) && Contains(b, p2) && (t == 0.0 || t == 1.0 || t in Turning(p0, p1, p2))
    requires forall u :: u in Turning(p0, p1, p2) ==> Contains(b, QuadraticAt(p0, p1, p2, u))
    ensures Contains(b, QuadraticAt(p0, p1, p2, t))
  {
    assert QuadraticAt(p0, p1, p2, 0.0) == p0 && QuadraticAt(p0, p1, p2, 1.0) == p2;
  }

  /** The box of a cubic that shares its ends with a quadratic curve contains that curve exactly if
      the cubic, or what the box held before, reaches the one point where it turns, if there is one. */
  lemma CurveHoldsQuadratic(r: Range, p0: real, c1: Coord, c2: Coord, p1: real, p2: real, root: real -> real)
    requires Sound(r) && IsRoot(root) && c1.Num? && c2.Num?
    ensures Holds(AddCurve(r, Num(p0), c1, c2, Num(p2), root), p0, p1, p2) <==>
      ReachesTurn(r, Cubic(p0, c1.v, c2.v, p2), p0, p1, p2)
  {
    var q := Cubic(p0, c1.v, c2.v, p2);
    CubicContained(r, q, root, 0.0);
    CubicContained(r, q, root, 1.0);
    assert q.At(0.0) == p0 && q.At(1.0) == p2;
    TurningDecides(AddCubic(r, q, root), p0, p1, p2);
    forall t | t in Turning(p0, p1, p2) ensures
      var w := QuadraticAt(p0, p1, p2, t); Contains(AddCubic(r, q, root), w) <==> Reaches(r, q, w)
    {
      BoxReaches(r, q, root, QuadraticAt(p0, p1, p2, t));
    }
  }

  /** The box made for a quadratic curve contains it, axis by axis, exactly if the cubic with the
      changed control coordinates, or what the box held before, reaches as far as the curve where
      it turns. */
  lemma QuadraticExactly(x: Range, y: Range, p0x: real, p0y: real, p1x: real, p1y: real, p2x: real, p2y: real,
      root: real -> real)
    requires Sound(x) && Sound(y) && IsRoot(root)
    ensures var cp1x, cp1y := Towards(Num(p0x), Num(p1x), 2.0 / 3.0), Towards(Num(p0y), Num(p1y), 2.0 / 3.0);
      var cp2x, cp2y := Shifted(cp1x, Num(p0x), Num(p2x), 1.0 / 3.0), Shifted(cp1y, Num(p0y), Num(p2y), 1.0 / 3.0);
      && (Holds(AddCurve(x, Num(p0x), cp1x, cp1y, Num(p2x), root), p0x, p1x, p2x) <==>
           ReachesTurn(x, Cubic(p0x, cp1x.v, cp1y.v, p2x), p0x, p1x, p2x))
      && (Holds(AddCurve(y, Num(p0y), cp2x, cp2y, Num(p2y), root), p0y, p1y, p2y) <==>
           ReachesTurn(y, Cubic(p0y, cp2x.v, cp2y.v, p2y), p0y, p1y, p2y))
  {
    var cp1x, cp1y := Towards(Num(p0x), Num(p1x), 2.0 / 3.0), Towards(Num(p0y), Num(p1y), 2.0 / 3.0);
    var cp2x, cp2y := Shifted(cp1x, Num(p0x), Num(p2x), 1.0 / 3.0), Shifted(cp1y, Num(p0y), Num(p2y), 1.0 / 3.0);
    CurveHoldsQuadratic(x, p0x, cp1x, cp1y, p1x, p2x, root);
    CurveHoldsQuadratic(y, p0y, cp2x, cp2y, p1y, p2y, root);
  }

  /** The quadratic curve (0,0) (10,0) (0,0) leaves the box made for it: at the middle it is at
      x = 5, but the box, given changed control coordinates, ends before x = 3. */
  lemma QuadraticEscapes(root: real -> real)
    requires IsRoot(root)
    ensures var cp1x, cp1y := Towards(Num(0.0), Num(10.0), 2.0 / 3.0), Towards(Num(0.0), Num(0.0), 2.0 / 3.0);
      var s := AddCurve(EMPTY, Num(0.0), cp1x, cp1y, Num(0.0), root);
      s.hi.Num? && s.hi.v < 3.0 && QuadraticAt(0.0, 10.0, 0.0, 0.5) == 5.0
  {
    EscapeBox(root);
    assert 0.0 + 2.0 / 3.0 * (10.0 - 0.0) == 20.0 / 3.0;
  }

  lemma EscapeBox(root: real -> real)
    requires IsRoot(root)
    ensures var s := AddCubic(EMPTY, Cubic(0.0, 20.0 / 3.0, 0.0, 0.0), root); s.hi.Num? && s.hi.v < 3.0
  {
    var q := Cubic(0.0, 20.0 / 3.0, 0.0, 0.0);
    CubicTight(EMPTY, q, root);
    CubicContained(EMPTY, q, root, 0.0);
    var s := AddCubic(EMPTY, q, root);
    var t :| 0.0 <= t <= 1.0 && s.hi == Num(q.At(t));
    EscapeBound(t);
    assert q.At(t) == 20.0 * t * ((1.0 - t) * (1.0 - t));
  }

  lemma EscapeBound(t: real)
    requires 0.0 <= t <= 1.0
    ensures 20.0 * t * ((1.0 - t) * (1.0 - t)) <= 80.0 / 27.0
  {
    var d := t - 1.0 / 3.0;
    assert d * d >= 0.0;
    Product(d * d, 4.0 / 3.0 - t);
    assert 80.0 / 27.0 - 20.0 * t * ((1.0 - t) * (1.0 - t)) == 20.0 * ((d * d) * (4.0 / 3.0 - t));
  }
}
