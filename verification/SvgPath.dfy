/** The SVG path reader: tokens in, drawn segments, marker points and a bounding box out. */
module SvgPath {
  import opened BoundingBox
  import opened Wrappers

  datatype Point = Point(x: Coord, y: Coord)

  /** A single letter is a command; any other word is read as a number, NaN if it is none. */
  datatype Token = Letter(c: char) | Word(value: Coord)

  /** What is drawn. The marker at the end of a line looks away from `back`, which is not always
      where the line begins; the shape of an arc is its radii, rotation and flags. */
  datatype Segment =
    | Move(to: Point)
    | Line(from: Point, to: Point, back: Point)
    | Curve(from: Point, c1: Point, c2: Point, to: Point)
    | Quadratic(from: Point, control: Point, to: Point)
    | Arc(from: Point, to: Point, shape: seq<Coord>)

  // ---- What a token list draws ---------------------------------------------------------------

  /** The reader between two tokens; `i` tokens have been taken. */
  datatype Pen = Pen(i: nat, command: Token, previous: Token, start: Point, control: Point, current: Point)

  const ORIGIN := Point(Num(0.0), Num(0.0))

  const FRESH := Pen(0, Word(NaN), Word(NaN), ORIGIN, ORIGIN, ORIGIN)

  function Plus(a: Coord, b: Coord): Coord { if a.Num? && b.Num? then Num(a.v + b.v) else NaN }

  function Mirror(a: Coord, b: Coord): Coord { if a.Num? && b.Num? then Num(2.0 * a.v - b.v) else NaN }

  function Upper(t: Token): char {
    if t.Word? then ' ' else if 'a' <= t.c <= 'z' then ((t.c as int) - 32) as char else t.c
  }

  predicate IsRelative(t: Token) { t.Word? || !('A' <= t.c <= 'Z') }

  function Value(tokens: seq<Token>, i: nat): Coord {
    if i < |tokens| && tokens[i].Word? then tokens[i].value else NaN
  }

  predicate IsCommandOrEnd(tokens: seq<Token>, i: nat) { i >= |tokens| || tokens[i].Letter? }

  /** The point that tokens `i` and `i + 1` stand for. */
  function PointAt(tokens: seq<Token>, i: nat, command: Token, current: Point): Point {
    var x, y := Value(tokens, i), Value(tokens, i + 1);
    if IsRelative(command) then Point(Plus(current.x, x), Plus(current.y, y)) else Point(x, y)
  }

  /** The control point a smooth curve starts with, as the reader finds it. */
  function Reflected(pen: Pen): Point {
    if Upper(pen.previous) in {'C', 'S'}
    then Point(Mirror(pen.current.x, pen.control.x), Mirror(pen.current.y, pen.control.y))
    else pen.current
  }

  predicate Draws(c: char) { c in {'M', 'L', 'H', 'V', 'C', 'S', 'Q', 'T', 'A'} }

  /** One more segment of the current command. */
  function Draw(tokens: seq<Token>, pen: Pen): (Segment, Pen) {
    var i, from := pen.i, pen.current;
    match Upper(pen.command)
    case 'H' =>
      var to := Point(Plus(if IsRelative(pen.command) then from.x else Num(0.0), Value(tokens, i)), from.y);
      (Line(from, to, from), pen.(i := i + 1, current := to))
    case 'V' =>
      var to := Point(from.x, Plus(if IsRelative(pen.command) then from.y else Num(0.0), Value(tokens, i)));
      (Line(from, to, from), pen.(i := i + 1, current := to))
    case 'C' =>
      var c1, c2, to := PointAt(tokens, i, pen.command, from), PointAt(tokens, i + 2, pen.command, from),
          PointAt(tokens, i + 4, pen.command, from);
      (Curve(from, c1, c2, to), pen.(i := i + 6, control := c2, current := to))
    case 'S' =>
      var c2, to := PointAt(tokens, i, pen.command, from), PointAt(tokens, i + 2, pen.command, from);
      (Curve(from, Reflected(pen), c2, to), pen.(i := i + 4, control := c2, current := to))
    case 'Q' =>
      var c, to := PointAt(tokens, i, pen.command, from), PointAt(tokens, i + 2, pen.command, from);
      (Quadratic(from, c, to), pen.(i := i + 4, control := c, current := to))
    case 'T' =>
      var c, to := Reflected(pen), PointAt(tokens, i, pen.command, from);
      (Quadratic(from, c, to), pen.(i := i + 2, control := c, current := to))
    case 'A' =>
      var to := PointAt(tokens, i + 5, pen.command, from);
      var shape := seq(5, k requires 0 <= k < 5 => Value(tokens, i + k));
      (Arc(from, to, shape), pen.(i := i + 7, current := to))
    case _ =>
      var to := PointAt(tokens, i, pen.command, from);
      (Line(from, to, if Upper(pen.command) == 'M' then pen.start else from), pen.(i := i + 2, current := to))
  }

  function NextCommand(tokens: seq<Token>, pen: Pen): Pen
    requires pen.i < |tokens|
  {
    pen.(i := pen.i + 1, command := tokens[pen.i], previous := pen.command)
  }

  /** The first point of a move. */
  function MoveTo(tokens: seq<Token>, pen: Pen): Pen {
    var to := PointAt(tokens, pen.i, pen.command, pen.current);
    pen.(i := pen.i + 2, current := to, start := to)
  }

  function Left(tokens: seq<Token>, pen: Pen): nat { if pen.i < |tokens| then |tokens| - pen.i else 0 }

  /** The segments drawn from here on; `drawing` inside a command's own loop. */
  function Segments(tokens: seq<Token>, pen: Pen, drawing: bool): seq<Segment>
    decreases Left(tokens, pen), if drawing then 1 else 0
  {
    if drawing then
      if IsCommandOrEnd(tokens, pen.i) then Segments(tokens, pen, false)
      else
        var (s, next) := Draw(tokens, pen);
        [s] + Segments(tokens, next, true)
    else if pen.i >= |tokens| then []
    else
      var next := NextCommand(tokens, pen);
      var c := Upper(next.command);
      if c == 'M' then [Move(PointAt(tokens, next.i, next.command, next.current))]
          + Segments(tokens, MoveTo(tokens, next), true)
      else if Draws(c) then Segments(tokens, next, true)
      else if c == 'Z' then Segments(tokens, next.(current := next.start), false)
      else Segments(tokens, next, false)
  }

  // ---- The box of a list of segments -----------------------------------------------------------

  function Along(p: Point, horizontal: bool): Coord { if horizontal then p.x else p.y }

  function AddSegment(r: Range, s: Segment, horizontal: bool, root: real -> real): Range {
    match s
    case Curve(from, c1, c2, to) =>
      AddCurve(r, Along(from, horizontal), Along(c1, horizontal), Along(c2, horizontal), Along(to, horizontal), root)
    case Quadratic(from, c, to) =>
      var cp1x, cp1y := Towards(from.x, c.x, 2.0 / 3.0), Towards(from.y, c.y, 2.0 / 3.0);
      if horizontal then AddCurve(r, from.x, cp1x, cp1y, to.x, root)
      else AddCurve(r, from.y, Shifted(cp1x, from.x, to.x, 1.0 / 3.0), Shifted(cp1y, from.y, to.y, 1.0 / 3.0), to.y,
          root)
    case _ => Extend(r, Along(s.to, horizontal))
  }

  function BoxOf(segments: seq<Segment>, horizontal: bool, root: real -> real): Range {
    if segments == [] then EMPTY
    else AddSegment(BoxOf(segments[..|segments| - 1], horizontal, root), segments[|segments| - 1], horizontal, root)
  }

  lemma AddSegmentContains(r: Range, s: Segment, horizontal: bool, root: real -> real)
    requires Sound(r)
    ensures var b := AddSegment(r, s, horizontal, root);
      && Sound(b) && (forall w :: Contains(r, w) ==> Contains(b, w))
      && (Along(s.to, horizontal).Num? ==> Contains(b, Along(s.to, horizontal).v))
  {
    match s
    case Curve(from, c1, c2, to) =>
      CurveEnds(r, Along(from, horizontal), Along(c1, horizontal), Along(c2, horizontal), Along(to, horizontal), root);
    case Quadratic(from, c, to) =>
      var cp1x, cp1y := Towards(from.x, c.x, 2.0 / 3.0), Towards(from.y, c.y, 2.0 / 3.0);
      if horizontal {
        CurveEnds(r, from.x, cp1x, cp1y, to.x, root);
      } else {
        CurveEnds(r, from.y, Shifted(cp1x, from.x, to.x, 1.0 / 3.0), Shifted(cp1y, from.y, to.y, 1.0 / 3.0), to.y,
            root);
      }
    case _ => ExtendContains(r, Along(s.to, horizontal));
  }

  lemma {:induction false} BoxGrows(segments: seq<Segment>, n: nat, horizontal: bool, root: real -> real)
    requires n <= |segments|
    ensures var b := BoxOf(segments, horizontal, root);
      Sound(b) && forall w :: Contains(BoxOf(segments[..n], horizontal, root), w) ==> Contains(b, w)
    decreases |segments|
  {
    if segments != [] {
      var m := |segments| - 1;
      if n <= m {
        BoxGrows(segments[..m], n, horizontal, root);
        assert segments[..m][..n] == segments[..n];
      } else {
        BoxGrows(segments[..m], m, horizontal, root);
        assert segments[..n] == segments;
      }
      AddSegmentContains(BoxOf(segments[..m], horizontal, root), segments[m], horizontal, root);
    } else {
      assert segments[..n] == segments;
    }
  }

  /** The box contains the end point of every segment, coordinate by coordinate. */
  lemma EndsContained(segments: seq<Segment>, k: nat, horizontal: bool, root: real -> real)
    requires k < |segments| && Along(segments[k].to, horizontal).Num?
    ensures Contains(BoxOf(segments, horizontal, root), Along(segments[k].to, horizontal).v)
  {
    var before := segments[..k];
    assert segments[..k + 1][..k] == before && segments[..k + 1][k] == segments[k];
    BoxGrows(before, k, horizontal, root);
    AddSegmentContains(BoxOf(before, horizontal, root), segments[k], horizontal, root);
    BoxGrows(segments, k + 1, horizontal, root);
  }

  /** The box contains every cubic segment at every parameter from 0 to 1. */
  lemma CurvesContained(segments: seq<Segment>, k: nat, horizontal: bool, root: real -> real, t: real)
    requires k < |segments| && segments[k].Curve? && IsRoot(root) && 0.0 <= t <= 1.0
    requires var s := segments[k];
      && Along(s.from, horizontal).Num? && Along(s.c1, horizontal).Num? && Along(s.c2, horizontal).Num?
         && Along(s.to, horizontal).Num?
    ensures var s := segments[k];
      var q := Cubic(Along(s.from, horizontal).v, Along(s.c1, horizontal).v, Along(s.c2, horizontal).v,
          Along(s.to, horizontal).v);
      Contains(BoxOf(segments, horizontal, root), q.At(t))
  {
    var s := segments[k];
    var q := Cubic(Along(s.from, horizontal).v, Along(s.c1, horizontal).v, Along(s.c2, horizontal).v,
        Along(s.to, horizontal).v);
    var before := segments[..k];
    assert segments[..k + 1][..k] == before && segments[..k + 1][k] == s;
    BoxGrows(before, k, horizontal, root);
    CubicContained(BoxOf(before, horizontal, root), q, root, t);
    BoxGrows(segments, k + 1, horizontal, root);
  }

  /** The segment goes through the coordinate `v`; of a quadratic curve it is the changed cubic that
      is boxed, and of an arc its end. */
  ghost predicate Touches(s: Segment, horizontal: bool, v: real) {
    || Along(s.to, horizontal) == Num(v)
    || (!s.Move? && Along(s.from, horizontal) == Num(v))
    || (s.Curve? && OnCurve(Along(s.from, horizontal), Along(s.c1, horizontal), Along(s.c2, horizontal),
          Along(s.to, horizontal), v))
    || (s.Quadratic? && OnChanged(s, horizontal, v))
  }

  ghost predicate OnCurve(p0: Coord, p1: Coord, p2: Coord, p3: Coord, v: real) {
    && p0.Num? && p1.Num? && p2.Num? && p3.Num?
    && exists t :: 0.0 <= t <= 1.0 && v == Cubic(p0.v, p1.v, p2.v, p3.v).At(t)
  }

  ghost predicate OnChanged(s: Segment, horizontal: bool, v: real)
    requires s.Quadratic?
  {
    var cp1x, cp1y := Towards(s.from.x, s.control.x, 2.0 / 3.0), Towards(s.from.y, s.control.y, 2.0 / 3.0);
    if horizontal then OnCurve(s.from.x, cp1x, cp1y, s.to.x, v)
    else OnCurve(s.from.y, Shifted(cp1x, s.from.x, s.to.x, 1.0 / 3.0), Shifted(cp1y, s.from.y, s.to.y, 1.0 / 3.0),
        s.to.y, v)
  }

  lemma CurveTight(r: Range, p0: Coord, p1: Coord, p2: Coord, p3: Coord, root: real -> real)
    requires Sound(r)
    ensures var b := AddCurve(r, p0, p1, p2, p3, root);
      && (b.lo == r.lo || b.lo == p0 || b.lo == p3 || (b.lo.Num? && OnCurve(p0, p1, p2, p3, b.lo.v)))
      && (b.hi == r.hi || b.hi == p0 || b.hi == p3 || (b.hi.Num? && OnCurve(p0, p1, p2, p3, b.hi.v)))
  {
    if p0.Num? && p1.Num? && p2.Num? && p3.Num? {
      CubicTight(r, Cubic(p0.v, p1.v, p2.v, p3.v), root);
    } else {
      ExtendContains(r, p0);
      ExtendContains(Extend(r, p0), p3);
    }
  }

  lemma SegmentTight(r: Range, s: Segment, horizontal: bool, root: real -> real)
    requires Sound(r)
    ensures var b := AddSegment(r, s, horizontal, root);
      && (b.lo == r.lo || (b.lo.Num? && Touches(s, horizontal, b.lo.v)))
      && (b.hi == r.hi || (b.hi.Num? && Touches(s, horizontal, b.hi.v)))
  {
    AddSegmentContains(r, s, horizontal, root);
    match s
    case Curve(from, c1, c2, to) =>
      CurveTight(r, Along(from, horizontal), Along(c1, horizontal), Along(c2, horizontal), Along(to, horizontal), root);
    case Quadratic(from, c, to) =>
      var cp1x, cp1y := Towards(from.x, c.x, 2.0 / 3.0), Towards(from.y, c.y, 2.0 / 3.0);
      if horizontal {
        CurveTight(r, from.x, cp1x, cp1y, to.x, root);
      } else {
        CurveTight(r, from.y, Shifted(cp1x, from.x, to.x, 1.0 / 3.0), Shifted(cp1y, from.y, to.y, 1.0 / 3.0), to.y,
            root);
      }
    case _ => ExtendContains(r, Along(s.to, horizontal));
  }

  /** The box of a path reaches no further than its segments: each side touches one of them. */
  lemma {:induction false} BoxTight(segments: seq<Segment>, horizontal: bool, root: real -> real)
    ensures var b := BoxOf(segments, horizontal, root);
      && Sound(b)
      && (b.lo.Num? ==> exists k :: 0 <= k < |segments| && Touches(segments[k], horizontal, b.lo.v))
      && (b.hi.Num? ==> exists k :: 0 <= k < |segments| && Touches(segments[k], horizontal, b.hi.v))
    decreases |segments|
  {
    if segments != [] {
      var n := |segments| - 1;
      var before := segments[..n];
      var r, b := BoxOf(before, horizontal, root), BoxOf(segments, horizontal, root);
      BoxTight(before, horizontal, root);
      SegmentTight(r, segments[n], horizontal, root);
      AddSegmentContains(r, segments[n], horizontal, root);
      if r.lo.Num? {
        var k :| 0 <= k < n && Touches(before[k], horizontal, r.lo.v);
        assert segments[k] == before[k];
      }
      if r.hi.Num? {
        var k :| 0 <= k < n && Touches(before[k], horizontal, r.hi.v);
        assert segments[k] == before[k];
      }
    }
  }

  // ---- Straight lines ----------------------------------------------------------------------

  /** Where the last segment ended. */
  function EndOf(segments: seq<Segment>, current: Point): Point {
    if segments == [] then current else segments[|segments| - 1].to
  }

  /** Where the subpath at the end of the segments began: the point of its move. */
  function StartOf(segments: seq<Segment>, start: Point): Point {
    if segments == [] then start
    else
      var n := |segments| - 1;
      if segments[n].Move? then segments[n].to else StartOf(segments[..n], start)
  }

  /** A segment starts where the one before it ended, or where its subpath began. */
  predicate Joined(segments: seq<Segment>, j: nat, current: Point, start: Point)
    requires j < |segments|
  {
    segments[j].Move? || segments[j].from in {EndOf(segments[..j], current), StartOf(segments[..j], start)}
  }

  lemma {:induction false} StartAfter(s: Segment, rest: seq<Segment>, start: Point)
    ensures StartOf([s] + rest, start) == StartOf(rest, if s.Move? then s.to else start)
    decreases |rest|
  {
    if rest != [] {
      var n := |rest| - 1;
      StartAfter(s, rest[..n], start);
      assert ([s] + rest)[..n + 1] == [s] + rest[..n];
    } else {
      assert [s] + rest == [s] && [s][..0] == [];
    }
  }

  lemma JoinedLater(s: Segment, rest: seq<Segment>, j: nat, next: Pen, current: Point, start: Point)
    requires j < |rest| && Joined(rest, j, next.current, next.start)
    requires next.current == s.to && next.start == if s.Move? then s.to else start
    ensures Joined([s] + rest, j + 1, current, start)
  {
    assert ([s] + rest)[..j + 1] == [s] + rest[..j];
    StartAfter(s, rest[..j], start);
  }

  /** The start of the subpath is one of the points gone through. */
  lemma {:induction false} StartMet(segments: seq<Segment>, start: Point)
    ensures var first := StartOf(segments, start);
      first == start || exists i :: 0 <= i < |segments| && segments[i].to == first
    decreases |segments|
  {
    if segments != [] {
      var n := |segments| - 1;
      StartMet(segments[..n], start);
      if i :| 0 <= i < n && segments[..n][i].to == StartOf(segments[..n], start) {
        assert segments[i].to == StartOf(segments[..n], start);
      }
    }
  }

  /** Every segment starts where the one before it ended, or where its subpath began. */
  lemma {:induction false} AllJoined(tokens: seq<Token>, pen: Pen, drawing: bool, j: nat)
    requires j < |Segments(tokens, pen, drawing)|
    ensures Joined(Segments(tokens, pen, drawing), j, pen.current, pen.start)
    decreases Left(tokens, pen), if drawing then 1 else 0
  {
    if drawing {
      if IsCommandOrEnd(tokens, pen.i) {
        AllJoined(tokens, pen, false, j);
      } else {
        var (s, next) := Draw(tokens, pen);
        if j > 0 {
          AllJoined(tokens, next, true, j - 1);
          JoinedLater(s, Segments(tokens, next, true), j - 1, next, pen.current, pen.start);
        }
      }
    } else {
      var next := NextCommand(tokens, pen);
      var c := Upper(next.command);
      if c == 'M' {
        if j > 0 {
          var moved := MoveTo(tokens, next);
          AllJoined(tokens, moved, true, j - 1);
          JoinedLater(Move(PointAt(tokens, next.i, next.command, next.current)), Segments(tokens, moved, true), j - 1,
              moved, pen.current, pen.start);
        }
      } else if Draws(c) {
        AllJoined(tokens, next, true, j);
      } else if c == 'Z' {
        AllJoined(tokens, next.(current := next.start), false, j);
      } else {
        AllJoined(tokens, next, false, j);
      }
    }
  }

  // ---- What the numbers of a path mean ---------------------------------------------------------

  /** The tokens of one segment: the first of them, the command, whether they are the first point of
      a move, and whether the subpath has been closed since the segment before. */
  datatype Group = Group(at: nat, command: Token, moves: bool, closed: bool)

  /** How many numbers a segment of a command takes. */
  function Arity(letter: char): nat {
    if letter in {'H', 'V'} then 1
    else if letter in {'S', 'Q'} then 4
    else if letter == 'C' then 6
    else if letter == 'A' then 7
    else 2
  }

  /** The path cut into groups: a drawing command is followed by one group after the other until the
      next letter, the first of a move being its point; any other command has none. */
  function Groups(tokens: seq<Token>, i: nat, command: Token, drawing: bool, closed: bool): seq<Group>
    decreases if i < |tokens| then |tokens| - i else 0, if drawing then 1 else 0
  {
    if drawing then
      if i >= |tokens| || tokens[i].Letter? then Groups(tokens, i, command, false, closed)
      else [Group(i, command, false, closed)] + Groups(tokens, i + Arity(Upper(command)), command, true, false)
    else if i >= |tokens| then []
    else
      var c := tokens[i];
      if Upper(c) == 'M' then [Group(i + 1, c, true, closed)] + Groups(tokens, i + 3, c, true, false)
      else if Draws(Upper(c)) then Groups(tokens, i + 1, c, true, closed)
      else Groups(tokens, i + 1, c, false, closed || Upper(c) == 'Z')
  }

  /** The groups of a whole path. */
  function GroupsOf(tokens: seq<Token>): seq<Group> { Groups(tokens, 0, Word(NaN), false, false) }

  /** Where the pen stands before the segment after these. */
  function Before(segments: seq<Segment>, closed: bool, current: Point, start: Point): Point {
    if closed then StartOf(segments, start) else EndOf(segments, current)
  }

  /** Token `j` is the coordinate `c`: as it stands, or counted from `base`. Missing and unreadable
      numbers, and those counted from such, are NaN. */
  ghost predicate Reads(tokens: seq<Token>, j: nat, relative: bool, base: Coord, c: Coord) {
    if j < |tokens| && tokens[j].Word? && tokens[j].value.Num? && (relative ==> base.Num?)
    then c == Num(tokens[j].value.v + if relative then base.v else 0.0)
    else c.NaN?
  }

  ghost predicate ReadsPoint(tokens: seq<Token>, j: nat, relative: bool, base: Point, p: Point) {
    Reads(tokens, j, relative, base.x, p.x) && Reads(tokens, j + 1, relative, base.y, p.y)
  }

  /** The segment is what the letter of its command and its own numbers say, `before` being where the
      pen stood: upper-case letters take numbers as they stand, lower-case ones count from there. */
  ghost predicate AsWritten(tokens: seq<Token>, g: Group, before: Point, s: Segment) {
    g.command.Letter?
    && var relative := 'a' <= g.command.c <= 'z';
       var letter := Upper(g.command);
       if g.moves then s.Move? && letter == 'M' && ReadsPoint(tokens, g.at, relative, before, s.to)
       else
         !s.Move? && s.from == before
         && match letter
            case 'H' => s.Line? && Reads(tokens, g.at, relative, before.x, s.to.x) && s.to.y == before.y
            case 'V' => s.Line? && s.to.x == before.x && Reads(tokens, g.at, relative, before.y, s.to.y)
            case 'C' =>
              && s.Curve? && ReadsPoint(tokens, g.at, relative, before, s.c1)
              && ReadsPoint(tokens, g.at + 2, relative, before, s.c2)
              && ReadsPoint(tokens, g.at + 4, relative, before, s.to)
            case 'S' =>
              && s.Curve? && ReadsPoint(tokens, g.at, relative, before, s.c2)
              && ReadsPoint(tokens, g.at + 2, relative, before, s.to)
            case 'Q' =>
              && s.Quadratic? && ReadsPoint(tokens, g.at, relative, before, s.control)
              && ReadsPoint(tokens, g.at + 2, relative, before, s.to)
            case 'T' => s.Quadratic? && ReadsPoint(tokens, g.at, relative, before, s.to)
            case 'A' =>
              && s.Arc? && |s.shape| == 5
              && (forall k :: 0 <= k < 5 ==> Reads(tokens, g.at + k, false, NaN, s.shape[k]))
              && ReadsPoint(tokens, g.at + 5, relative, before, s.to)
            case _ => letter in {'M', 'L'} && s.Line? && ReadsPoint(tokens, g.at, relative, before, s.to)
  }

  lemma PointRead(tokens: seq<Token>, j: nat, command: Token, current: Point)
    requires command.Letter? && Draws(Upper(command))
    ensures ReadsPoint(tokens, j, 'a' <= command.c <= 'z', current, PointAt(tokens, j, command, current))
  {}

  lemma DrawnAsWritten(tokens: seq<Token>, pen: Pen, closed: bool)
    requires Draws(Upper(pen.command))
    ensures var (s, next) := Draw(tokens, pen);
      && AsWritten(tokens, Group(pen.i, pen.command, false, closed), pen.current, s)
      && next.i == pen.i + Arity(Upper(pen.command)) && next.command == pen.command
      && next.current == s.to && next.start == pen.start
  {
    var i := pen.i;
    PointRead(tokens, i, pen.command, pen.current);
    PointRead(tokens, i + 2, pen.command, pen.current);
    PointRead(tokens, i + 4, pen.command, pen.current);
    PointRead(tokens, i + 5, pen.command, pen.current);
  }

  lemma BeforeLater(s: Segment, rest: seq<Segment>, closed: bool, current: Point, start: Point)
    ensures Before([s] + rest, closed, current, start) == Before(rest, closed, s.to, if s.Move? then s.to else start)
  {
    StartAfter(s, rest, start);
  }

  /** The segments drawn from here on are those of the groups from here on. */
  ghost predicate Matches(tokens: seq<Token>, segments: seq<Segment>, groups: seq<Group>, current: Point,
      start: Point)
  {
    && |segments| == |groups|
    && forall k :: 0 <= k < |segments| ==>
         AsWritten(tokens, groups[k], Before(segments[..k], groups[k].closed, current, start), segments[k])
  }

  lemma MatchesLater(tokens: seq<Token>, s: Segment, rest: seq<Segment>, g: Group, groups: seq<Group>, current: Point,
      start: Point)
    requires AsWritten(tokens, g, if g.closed then start else current, s)
    requires Matches(tokens, rest, groups, s.to, if s.Move? then s.to else start)
    ensures Matches(tokens, [s] + rest, [g] + groups, current, start)
  {
    var all, gs := [s] + rest, [g] + groups;
    forall k | 0 <= k < |all|
      ensures AsWritten(tokens, gs[k], Before(all[..k], gs[k].closed, current, start), all[k])
    {
      if k > 0 {
        assert all[..k] == [s] + rest[..k - 1] && all[k] == rest[k - 1] && gs[k] == groups[k - 1];
        BeforeLater(s, rest[..k - 1], gs[k].closed, current, start);
      } else {
        assert all[..0] == [];
      }
    }
  }

  /** Closing the subpath takes the pen to its start. */
  lemma MatchesClosed(tokens: seq<Token>, segments: seq<Segment>, groups: seq<Group>, current: Point, start: Point)
    requires Matches(tokens, segments, groups, start, start) && (groups != [] ==> groups[0].closed)
    ensures Matches(tokens, segments, groups, current, start)
  {
    forall k | 0 <= k < |segments|
      ensures AsWritten(tokens, groups[k], Before(segments[..k], groups[k].closed, current, start), segments[k])
    {
      assert k > 0 ==> segments[..k] != [];
    }
  }

  lemma {:induction false} FirstClosed(tokens: seq<Token>, i: nat, command: Token, drawing: bool)
    ensures var gs := Groups(tokens, i, command, drawing, true); gs != [] ==> gs[0].closed
    decreases if i < |tokens| then |tokens| - i else 0, if drawing then 1 else 0
  {
    if drawing {
      if i >= |tokens| || tokens[i].Letter? { FirstClosed(tokens, i, command, false); }
    } else if i < |tokens| {
      var c := Upper(tokens[i]);
      if c != 'M' { FirstClosed(tokens, i + 1, tokens[i], Draws(c)); }
    }
  }

  lemma DrawMatches(tokens: seq<Token>, pen: Pen, closed: bool)
    requires Draws(Upper(pen.command)) && (closed ==> pen.current == pen.start) && !IsCommandOrEnd(tokens, pen.i)
    requires var next := Draw(tokens, pen).1;
      Matches(tokens, Segments(tokens, next, true), Groups(tokens, next.i, next.command, true, false),
        next.current, next.start)
    ensures Matches(tokens, Segments(tokens, pen, true), Groups(tokens, pen.i, pen.command, true, closed),
              pen.current, pen.start)
  {
    var (s, next) := Draw(tokens, pen);
    DrawnAsWritten(tokens, pen, closed);
    MatchesLater(tokens, s, Segments(tokens, next, true), Group(pen.i, pen.command, false, closed),
      Groups(tokens, next.i, pen.command, true, false), pen.current, pen.start);
  }

  lemma MoveMatches(tokens: seq<Token>, pen: Pen, closed: bool)
    requires pen.i < |tokens| && Upper(tokens[pen.i]) == 'M' && (closed ==> pen.current == pen.start)
    requires var moved := MoveTo(tokens, NextCommand(tokens, pen));
      Matches(tokens, Segments(tokens, moved, true), Groups(tokens, moved.i, moved.command, true, false),
        moved.current, moved.start)
    ensures Matches(tokens, Segments(tokens, pen, false), Groups(tokens, pen.i, pen.command, false, closed),
              pen.current, pen.start)
  {
    var next := NextCommand(tokens, pen);
    var moved := MoveTo(tokens, next);
    PointRead(tokens, next.i, next.command, next.current);
    MatchesLater(tokens, Move(moved.current), Segments(tokens, moved, true),
      Group(next.i, next.command, true, closed), Groups(tokens, moved.i, next.command, true, false),
      pen.current, pen.start);
  }

  lemma {:induction false} SegmentsWritten(tokens: seq<Token>, pen: Pen, drawing: bool, closed: bool)
    requires (drawing ==> Draws(Upper(pen.command))) && (closed ==> pen.current == pen.start)
    ensures Matches(tokens, Segments(tokens, pen, drawing), Groups(tokens, pen.i, pen.command, drawing, closed),
              pen.current, pen.start)
    decreases Left(tokens, pen), if drawing then 1 else 0
  {
    if drawing {
      if IsCommandOrEnd(tokens, pen.i) {
        SegmentsWritten(tokens, pen, false, closed);
      } else {
        DrawnAsWritten(tokens, pen, closed);
        SegmentsWritten(tokens, Draw(tokens, pen).1, true, false);
        DrawMatches(tokens, pen, closed);
      }
    } else if pen.i < |tokens| {
      var next := NextCommand(tokens, pen);
      var c := Upper(next.command);
      if c == 'M' {
        SegmentsWritten(tokens, MoveTo(tokens, next), true, false);
        MoveMatches(tokens, pen, closed);
      } else if Draws(c) {
        SegmentsWritten(tokens, next, true, closed);
      } else if c == 'Z' {
        SegmentsWritten(tokens, next.(current := next.start), false, true);
        FirstClosed(tokens, next.i, next.command, false);
        MatchesClosed(tokens, Segments(tokens, next.(current := next.start), false),
          Groups(tokens, next.i, next.command, false, true), pen.current, pen.start);
      } else {
        SegmentsWritten(tokens, next, false, closed);
      }
    }
  }

  /** Every path, read from its beginning, draws one segment for each group of its numbers, and each
      is what its letter and its numbers say. */
  lemma DrawsAsWritten(tokens: seq<Token>)
    ensures Matches(tokens, Segments(tokens, FRESH, false), GroupsOf(tokens), ORIGIN, ORIGIN)
  {
    SegmentsWritten(tokens, FRESH, false, false);
  }

  /** The tokens of the group. */
  predicate Owns(g: Group, j: int) { g.at <= j < g.at + if g.moves then 2 else Arity(Upper(g.command)) }

  /** The path begins with a letter, and after a command that draws nothing comes another letter. */
  predicate WellCut(tokens: seq<Token>) {
    && (tokens != [] ==> tokens[0].Letter?)
    && forall j :: 0 <= j < |tokens| - 1 && tokens[j].Letter? && !Draws(Upper(tokens[j])) ==> tokens[j + 1].Letter?
  }

  ghost predicate OwnedOnce(tokens: seq<Token>, groups: seq<Group>, i: nat) {
    && (forall k :: 0 <= k < |groups| ==> groups[k].at >= i)
    && (forall j, k, l :: 0 <= k < |groups| && 0 <= l < |groups| && Owns(groups[k], j) && Owns(groups[l], j) ==> k == l)
    && forall j :: i <= j < |tokens| && tokens[j].Word? ==> exists k :: 0 <= k < |groups| && Owns(groups[k], j)
  }

  lemma OwnedLater(tokens: seq<Token>, g: Group, rest: seq<Group>, i: nat, n: nat)
    requires i <= g.at <= n && OwnedOnce(tokens, rest, n)
    requires forall j :: Owns(g, j) <==> g.at <= j < n
    requires forall j :: i <= j < g.at && j < |tokens| ==> tokens[j].Letter?
    ensures OwnedOnce(tokens, [g] + rest, i)
  {
    var all := [g] + rest;
    forall j, k, l | 0 <= k < |all| && 0 <= l < |all| && Owns(all[k], j) && Owns(all[l], j) ensures k == l {
      if k > 0 && l > 0 { assert Owns(rest[k - 1], j) && Owns(rest[l - 1], j); }
    }
    forall j | i <= j < |tokens| && tokens[j].Word? ensures exists k :: 0 <= k < |all| && Owns(all[k], j) {
      if j < n {
        assert Owns(all[0], j);
      } else {
        var k :| 0 <= k < |rest| && Owns(rest[k], j);
        assert Owns(all[k + 1], j);
      }
    }
  }

  lemma OwnedSkipping(tokens: seq<Token>, groups: seq<Group>, i: nat)
    requires i < |tokens| && tokens[i].Letter? && OwnedOnce(tokens, groups, i + 1)
    ensures OwnedOnce(tokens, groups, i)
  {}

  lemma {:induction false} GroupsOwn(tokens: seq<Token>, i: nat, command: Token, drawing: bool, closed: bool)
    requires WellCut(tokens) && (!drawing && i < |tokens| ==> tokens[i].Letter?)
    requires drawing ==> Draws(Upper(command))
    ensures OwnedOnce(tokens, Groups(tokens, i, command, drawing, closed), i)
    decreases if i < |tokens| then |tokens| - i else 0, if drawing then 1 else 0
  {
    if drawing {
      if i >= |tokens| || tokens[i].Letter? {
        GroupsOwn(tokens, i, command, false, closed);
      } else {
        var n := i + Arity(Upper(command));
        GroupsOwn(tokens, n, command, true, false);
        OwnedLater(tokens, Group(i, command, false, closed), Groups(tokens, n, command, true, false), i, n);
      }
    } else if i < |tokens| {
      var c := tokens[i];
      if Upper(c) == 'M' {
        GroupsOwn(tokens, i + 3, c, true, false);
        OwnedLater(tokens, Group(i + 1, c, true, closed), Groups(tokens, i + 3, c, true, false), i, i + 3);
      } else {
        GroupsOwn(tokens, i + 1, c, Draws(Upper(c)), if Draws(Upper(c)) then closed else closed || Upper(c) == 'Z');
        OwnedSkipping(tokens, Groups(tokens, i, command, drawing, closed), i);
      }
    }
  }

  ghost predicate OwnedOnlyBy(groups: seq<Group>, j: nat, k: int) {
    && 0 <= k < |groups| && Owns(groups[k], j)
    && forall l :: 0 <= l < |groups| && Owns(groups[l], j) ==> l == k
  }

  /** In a well-cut path every number belongs to exactly one segment. */
  lemma NumbersOwned(tokens: seq<Token>, j: nat)
    requires WellCut(tokens) && j < |tokens| && tokens[j].Word?
    ensures exists k :: OwnedOnlyBy(GroupsOf(tokens), j, k)
  {
    GroupsOwn(tokens, 0, Word(NaN), false, false);
    OnlyOwner(tokens, GroupsOf(tokens), j);
  }

  lemma OnlyOwner(tokens: seq<Token>, groups: seq<Group>, j: nat)
    requires OwnedOnce(tokens, groups, 0) && j < |tokens| && tokens[j].Word?
    ensures exists k :: OwnedOnlyBy(groups, j, k)
  {
    var k :| 0 <= k < |groups| && Owns(groups[k], j);
    assert OwnedOnlyBy(groups, j, k);
  }

  // ---- Lines and the box ---------------------------------------------------------------------------

  function OnLine(a: real, b: real, t: real): real { a + t * (b - a) }

  lemma Convex(r: Range, a: real, b: real, t: real)
    requires Contains(r, a) && Contains(r, b) && 0.0 <= t <= 1.0
    ensures Contains(r, OnLine(a, b, t))
  {
    if a <= b {
      Product(t, b - a);
      Product(1.0 - t, b - a);
      assert OnLine(a, b, t) == b - (1.0 - t) * (b - a);
    } else {
      Product(t, a - b);
      Product(1.0 - t, a - b);
      Negate(t, a - b);
      assert OnLine(a, b, t) == b + (1.0 - t) * (a - b);
    }
  }

  /** In a path that begins with a move, as the standard demands, the box contains every line. */
  lemma LinesContained(tokens: seq<Token>, k: nat, horizontal: bool, root: real -> real, t: real)
    requires |tokens| > 0 && Upper(tokens[0]) == 'M' && 0.0 <= t <= 1.0
    requires var segments := Segments(tokens, FRESH, false);
      && k < |segments| && segments[k].Line?
      && Along(segments[k].from, horizontal).Num? && Along(segments[k].to, horizontal).Num?
    ensures var segments := Segments(tokens, FRESH, false);
      Contains(BoxOf(segments, horizontal, root), OnLine(Along(segments[k].from, horizontal).v,
          Along(segments[k].to, horizontal).v, t))
  {
    var segments := Segments(tokens, FRESH, false);
    var pen := MoveTo(tokens, NextCommand(tokens, FRESH));
    var rest := Segments(tokens, pen, true);
    assert segments == [Move(pen.current)] + rest && segments[k] == rest[k - 1];
    AllJoined(tokens, pen, true, k - 1);
    StartMet(rest[..k - 1], pen.start);
    if segments[k].from == pen.current {
      EndsContained(segments, 0, horizontal, root);
    } else {
      var i :| 0 <= i < k - 1 && rest[..k - 1][i].to == rest[k - 1].from;
      assert segments[i + 1] == rest[i];
      EndsContained(segments, i + 1, horizontal, root);
    }
    EndsContained(segments, k, horizontal, root);
    Convex(BoxOf(segments, horizontal, root), Along(segments[k].from, horizontal).v,
        Along(segments[k].to, horizontal).v, t);
  }

  // ---- Smooth curves -------------------------------------------------------------------------

  /** Where a segment stands in the path: the letter of its command, how many segments that command
      has drawn before it, the letter of the command before, and whether that one drew anything. */
  datatype Place = Place(letter: char, position: nat, previous: char, drew: bool)

  /** The places of the segments drawn from here on; the present command has drawn `n` of them so
      far, and the one before it `before`. */
  function Places(tokens: seq<Token>, pen: Pen, drawing: bool, n: nat, before: nat): (r: seq<Place>)
    ensures |r| == |Segments(tokens, pen, drawing)|
    decreases Left(tokens, pen), if drawing then 1 else 0
  {
    if drawing then
      if IsCommandOrEnd(tokens, pen.i) then Places(tokens, pen, false, n, before)
      else [Here(pen, n, before)] + Places(tokens, Draw(tokens, pen).1, true, n + 1, before)
    else if pen.i >= |tokens| then []
    else
      var next := NextCommand(tokens, pen);
      var c := Upper(next.command);
      if c == 'M' then [Here(next, 0, n)] + Places(tokens, MoveTo(tokens, next), true, 1, n)
      else if Draws(c) then Places(tokens, next, true, 0, n)
      else Places(tokens, if c == 'Z' then next.(current := next.start) else next, false, 0, n)
  }

  function Here(pen: Pen, n: nat, before: nat): Place { Place(Upper(pen.command), n, Upper(pen.previous), before > 0) }

  function MirrorImage(at: Point, p: Point): Point { Point(Mirror(at.x, p.x), Mirror(at.y, p.y)) }

  /** The (first) control point that sections 8.3.6 and 8.3.7 of SVG 1.1 ask for: the mirror image of
      the last control point of the command just before, if that drew curves of the same degree,
      and the current point otherwise. Each further set of coordinates counts as a command. */
  function Asked(segments: seq<Segment>, k: nat, p: Place): Point
    requires k < |segments| && !segments[k].Move?
  {
    var at := segments[k].from;
    if k == 0 || !(p.position > 0 || p.drew) then at
    else
      match segments[k - 1]
      case Curve(_, _, c2, _) => if p.letter == 'S' then MirrorImage(at, c2) else at
      case Quadratic(_, c, _) => if p.letter == 'T' then MirrorImage(at, c) else at
      case _ => at
  }

  /** The control point the segment has been drawn with. */
  function Given(s: Segment): Point
    requires s.Curve? || s.Quadratic?
  {
    if s.Curve? then s.c1 else s.control
  }

  /** The control point read or derived last, the origin if there is none. */
  function LastControl(segments: seq<Segment>): Point {
    if segments == [] then ORIGIN
    else
      var n := |segments| - 1;
      match segments[n]
      case Curve(_, _, c2, _) => c2
      case Quadratic(_, c, _) => c
      case _ => LastControl(segments[..n])
  }

  /** The places where the reader follows the standard whatever the coordinates are. */
  predicate Follows(p: Place) {
    if p.position > 0 then p.previous in {'C', 'S'}
    else if p.letter == 'S' then p.previous in {'C', 'S'} ==> p.drew
    else p.previous !in {'C', 'S'} && !(p.previous in {'Q', 'T'} && p.drew)
  }

  /** The point is its own mirror image at `at`, axis by axis. */
  predicate Coincides(at: Point, p: Point) {
    && (at.x.NaN? || at.x == p.x)
    && (at.y.NaN? || at.y == p.y)
  }

  lemma MirrorFixed(at: Point, p: Point)
    ensures MirrorImage(at, p) == at <==> Coincides(at, p)
  {}

  predicate IsSmooth(p: Place) { p.letter in {'S', 'T'} }

  /** Segment `k` of all that is drawn, at place `p`, has the control point asked for exactly if
      the place or the coordinates are such. */
  ghost predicate AsClaimed(segments: seq<Segment>, k: nat, p: Place)
    requires k < |segments|
  {
    IsSmooth(p) ==>
      && (if p.letter == 'S' then segments[k].Curve? else segments[k].Quadratic?)
      && (Given(segments[k]) == Asked(segments, k, p) <==>
           Follows(p) || Coincides(segments[k].from, LastControl(segments[..k])))
  }

  /** A command with letter `c` draws such segments. */
  predicate DrawnBy(s: Segment, c: char) {
    (s.Curve? <==> c in {'C', 'S'}) && (s.Quadratic? <==> c in {'Q', 'T'})
  }

  /** What the reader knows about the segments drawn so far. */
  ghost predicate Remembers(drawn: seq<Segment>, pen: Pen, drawing: bool, n: nat, before: nat) {
    && pen.control == LastControl(drawn)
    && (n > 0 ==> drawn != [] && DrawnBy(drawn[|drawn| - 1], Upper(pen.command)))
    && (drawing && n == 0 && before > 0 ==> drawn != [] && DrawnBy(drawn[|drawn| - 1], Upper(pen.previous)))
  }

  /** One smooth segment. */
  lemma SmoothDrawn(tokens: seq<Token>, pen: Pen, drawn: seq<Segment>, n: nat, before: nat, all: seq<Segment>)
    requires Remembers(drawn, pen, true, n, before) && drawn + [Draw(tokens, pen).0] <= all
    ensures AsClaimed(all, |drawn|, Here(pen, n, before))
  {
    var k, p, s := |drawn|, Here(pen, n, before), Draw(tokens, pen).0;
    assert all[..k] == drawn && all[k] == s;
    if IsSmooth(p) {
      MirrorFixed(pen.current, pen.control);
      if n > 0 || before > 0 {
        assert all[k - 1] == drawn[k - 1];
        assert drawn[k - 1].Curve? || drawn[k - 1].Quadratic? ==>
            Asked(all, k, p) in {pen.current, MirrorImage(pen.current, pen.control)};
      }
    }
  }

  lemma ControlKept(tokens: seq<Token>, pen: Pen, drawn: seq<Segment>, n: nat, before: nat)
    requires Remembers(drawn, pen, true, n, before) && Draws(Upper(pen.command))
    ensures var (s, next) := Draw(tokens, pen);
      Remembers(drawn + [s], next, true, n + 1, before) && next.command == pen.command
  {
    var (s, next) := Draw(tokens, pen);
    assert (drawn + [s])[..|drawn|] == drawn;
  }

  lemma {:induction false} SmoothFrom(tokens: seq<Token>, pen: Pen, drawing: bool, n: nat, before: nat,
      drawn: seq<Segment>, j: nat)
    requires Remembers(drawn, pen, drawing, n, before) && (drawing ==> Draws(Upper(pen.command)))
    requires j < |Segments(tokens, pen, drawing)|
    ensures AsClaimed(drawn + Segments(tokens, pen, drawing), |drawn| + j, Places(tokens, pen, drawing, n, before)[j])
    decreases Left(tokens, pen), if drawing then 1 else 0
  {
    var segments := Segments(tokens, pen, drawing);
    if drawing {
      if IsCommandOrEnd(tokens, pen.i) {
        SmoothFrom(tokens, pen, false, n, before, drawn, j);
      } else {
        var (s, next) := Draw(tokens, pen);
        var rest := Segments(tokens, next, true);
        assert drawn + segments == drawn + [s] + rest;
        if j == 0 {
          SmoothDrawn(tokens, pen, drawn, n, before, drawn + segments);
        } else {
          ControlKept(tokens, pen, drawn, n, before);
          SmoothFrom(tokens, next, true, n + 1, before, drawn + [s], j - 1);
        }
      }
    } else {
      SmoothCommand(tokens, pen, n, before, drawn, j);
    }
  }

  lemma {:induction false} SmoothCommand(tokens: seq<Token>, pen: Pen, n: nat, before: nat, drawn: seq<Segment>, j: nat)
    requires Remembers(drawn, pen, false, n, before) && j < |Segments(tokens, pen, false)|
    ensures AsClaimed(drawn + Segments(tokens, pen, false), |drawn| + j, Places(tokens, pen, false, n, before)[j])
    decreases Left(tokens, pen), 0, 0
  {
    var next := NextCommand(tokens, pen);
    var c := Upper(next.command);
    if c == 'M' {
      var s, moved := Move(PointAt(tokens, next.i, next.command, next.current)), MoveTo(tokens, next);
      var rest := Segments(tokens, moved, true);
      assert drawn + Segments(tokens, pen, false) == drawn + [s] + rest;
      if j > 0 {
        assert (drawn + [s])[..|drawn|] == drawn;
        SmoothFrom(tokens, moved, true, 1, n, drawn + [s], j - 1);
      }
    } else if Draws(c) {
      SmoothFrom(tokens, next, true, 0, n, drawn, j);
    } else {
      SmoothFrom(tokens, if c == 'Z' then next.(current := next.start) else next, false, 0, n, drawn, j);
    }
  }

  /** In every path, a smooth segment starts with the control point the standard asks for exactly
      if its place says so or the mirrored control point coincides with the current point. */
  lemma SmoothControls(tokens: seq<Token>, k: nat)
    requires k < |Segments(tokens, FRESH, false)|
    ensures AsClaimed(Segments(tokens, FRESH, false), k, Places(tokens, FRESH, false, 0, 0)[k])
  {
    SmoothFrom(tokens, FRESH, false, 0, 0, [], k);
    assert [] + Segments(tokens, FRESH, false) == Segments(tokens, FRESH, false);
  }

  // Four paths in which a smooth segment goes astray.

  function Numbers(vs: seq<int>): seq<Token> { seq(|vs|, i requires 0 <= i < |vs| => Word(Num(vs[i] as real))) }

  function At(x: int, y: int): Point { Point(Num(x as real), Num(y as real)) }

  /** The pen after "M 0 0" and the letter of the next command. */
  function Begun(c: char): Pen { Pen(4, Letter(c), Letter('M'), ORIGIN, ORIGIN, ORIGIN) }

  predicate Begins(tokens: seq<Token>, c: char) {
    |tokens| > 4 && tokens[0] == Letter('M') && tokens[1] == tokens[2] == Word(Num(0.0)) && tokens[3] == Letter(c)
  }

  lemma BeginsWith(tokens: seq<Token>, c: char, vs: seq<int>)
    requires vs != [] && [Letter('M')] + Numbers([0, 0]) + [Letter(c)] + Numbers(vs) <= tokens
    ensures Begins(tokens, c) && forall i :: 0 <= i < |vs| ==> tokens[4 + i] == Word(Num(vs[i] as real))
  {
    var head := [Letter('M')] + Numbers([0, 0]) + [Letter(c)] + Numbers(vs);
    assert head[0] == Letter('M') && head[1] == head[2] == Word(Num(0.0)) && head[3] == Letter(c);
    forall i | 0 <= i < |vs| ensures tokens[4 + i] == Word(Num(vs[i] as real)) { assert tokens[4 + i] == head[4 + i]; }
    assert forall i :: 0 <= i < 4 ==> tokens[i] == head[i];
  }

  lemma MoveRead(tokens: seq<Token>, c: char)
    requires Begins(tokens, c)
    ensures var moved := Pen(3, Letter('M'), Word(NaN), ORIGIN, ORIGIN, ORIGIN);
      && Segments(tokens, FRESH, false) == [Move(ORIGIN)] + Segments(tokens, moved, true)
      && Places(tokens, FRESH, false, 0, 0) == [Place('M', 0, ' ', false)] + Places(tokens, moved, true, 1, 0)
  {
    assert MoveTo(tokens, NextCommand(tokens, FRESH)) == Pen(3, Letter('M'), Word(NaN), ORIGIN, ORIGIN, ORIGIN);
  }

  lemma AfterOrigin(tokens: seq<Token>, c: char)
    requires Begins(tokens, c) && c in {'S', 'C', 'Q', 'T'}
    ensures Segments(tokens, FRESH, false) == [Move(ORIGIN)] + Segments(tokens, Begun(c), true)
    ensures Places(tokens, FRESH, false, 0, 0) == [Place('M', 0, ' ', false)] + Places(tokens, Begun(c), true, 0, 1)
  {
    MoveRead(tokens, c);
    var moved := Pen(3, Letter('M'), Word(NaN), ORIGIN, ORIGIN, ORIGIN);
    assert NextCommand(tokens, moved) == Begun(c) && Draws(Upper(Letter(c)));
    assert Segments(tokens, moved, true) == Segments(tokens, moved, false) == Segments(tokens, Begun(c), true);
    assert Places(tokens, moved, true, 1, 0) == Places(tokens, moved, false, 1, 0)
        == Places(tokens, Begun(c), true, 0, 1);
  }

  /** Two segments of one command end the path. */
  lemma TwoMore(tokens: seq<Token>, pen: Pen, before: nat)
    requires !IsCommandOrEnd(tokens, pen.i) && !IsCommandOrEnd(tokens, Draw(tokens, pen).1.i)
    requires Draw(tokens, Draw(tokens, pen).1).1.i >= |tokens|
    ensures var (s, next) := Draw(tokens, pen);
      && Segments(tokens, pen, true) == [s, Draw(tokens, next).0]
      && Places(tokens, pen, true, 0, before) == [Here(pen, 0, before), Here(next, 1, before)]
  {
    var next := Draw(tokens, pen).1;
    var last := Draw(tokens, next).1;
    assert Segments(tokens, last, true) == [] && Places(tokens, last, true, 2, before) == [];
  }

  /** One segment, the letter of another command, and one segment of that end the path. */
  lemma OneEach(tokens: seq<Token>, pen: Pen)
    requires !IsCommandOrEnd(tokens, pen.i)
    requires var next := Draw(tokens, pen).1;
      next.i < |tokens| && tokens[next.i] == Letter('T') && !IsCommandOrEnd(tokens, next.i + 1)
    requires Draw(tokens, NextCommand(tokens, Draw(tokens, pen).1)).1.i >= |tokens|
    ensures var (s, next) := Draw(tokens, pen);
      var other := NextCommand(tokens, next);
      && Segments(tokens, pen, true) == [s, Draw(tokens, other).0]
      && Places(tokens, pen, true, 0, 1) == [Here(pen, 0, 1), Here(other, 0, 1)]
  {
    var next := Draw(tokens, pen).1;
    var other := NextCommand(tokens, next);
    var last := Draw(tokens, other).1;
    assert Segments(tokens, next, true) == Segments(tokens, next, false) == Segments(tokens, other, true);
    assert Places(tokens, next, true, 1, 1) == Places(tokens, next, false, 1, 1) == Places(tokens, other, true, 0, 1);
    assert Segments(tokens, last, true) == [] && Places(tokens, last, true, 1, 1) == [];
  }

  /** The third segment drawn has one control point and should have another. */
  ghost predicate Astray(tokens: seq<Token>, given: Point, asked: Point) {
    var segments, places := Segments(tokens, FRESH, false), Places(tokens, FRESH, false, 0, 0);
    && |segments| == 3 && (segments[2].Curve? || segments[2].Quadratic?)
    && Given(segments[2]) == given && Asked(segments, 2, places[2]) == asked && given != asked
  }

  /** "M 0 0 S 1 1 2 0 3 1 4 0": the second curve of a smooth command after a move. */
  lemma SecondSmoothCubic()
    ensures Astray([Letter('M')] + Numbers([0, 0]) + [Letter('S')] + Numbers([1, 1, 2, 0, 3, 1, 4, 0]),
      At(2, 0), At(3, -1))
  {
    var vs := [1, 1, 2, 0, 3, 1, 4, 0];
    var tokens := [Letter('M')] + Numbers([0, 0]) + [Letter('S')] + Numbers(vs);
    BeginsWith(tokens, 'S', vs);
    AfterOrigin(tokens, 'S');
    TwoMore(tokens, Begun('S'), 1);
  }

  /** "M 0 0 T 1 1 2 2": the second curve of a smooth quadratic command after a move. */
  lemma SecondSmoothQuadratic()
    ensures Astray([Letter('M')] + Numbers([0, 0]) + [Letter('T')] + Numbers([1, 1, 2, 2]), At(1, 1), At(2, 2))
  {
    var vs := [1, 1, 2, 2];
    var tokens := [Letter('M')] + Numbers([0, 0]) + [Letter('T')] + Numbers(vs);
    BeginsWith(tokens, 'T', vs);
    AfterOrigin(tokens, 'T');
    TwoMore(tokens, Begun('T'), 1);
  }

  /** "M 0 0 Q 1 1 2 0 T 4 0": a smooth quadratic curve after a quadratic one. */
  lemma SmoothAfterQuadratic()
    ensures Astray([Letter('M')] + Numbers([0, 0]) + [Letter('Q')] + Numbers([1, 1, 2, 0])
      + ([Letter('T')] + Numbers([4, 0])), At(2, 0), At(3, -1))
  {
    var vs := [1, 1, 2, 0];
    var tokens := [Letter('M')] + Numbers([0, 0]) + [Letter('Q')] + Numbers(vs) + ([Letter('T')] + Numbers([4, 0]));
    BeginsWith(tokens, 'Q', vs);
    AfterOrigin(tokens, 'Q');
    assert tokens[8] == Letter('T') && tokens[9] == Word(Num(4.0)) && tokens[10] == Word(Num(0.0));
    OneEach(tokens, Begun('Q'));
  }

  /** "M 0 0 C 0 1 1 1 2 0 T 4 0": a smooth quadratic curve after a cubic one. */
  lemma SmoothAfterCubic()
    ensures Astray([Letter('M')] + Numbers([0, 0]) + [Letter('C')] + Numbers([0, 1, 1, 1, 2, 0])
      + ([Letter('T')] + Numbers([4, 0])), At(3, -1), At(2, 0))
  {
    var vs := [0, 1, 1, 1, 2, 0];
    var tokens := [Letter('M')] + Numbers([0, 0]) + [Letter('C')] + Numbers(vs) + ([Letter('T')] + Numbers([4, 0]));
    BeginsWith(tokens, 'C', vs);
    AfterOrigin(tokens, 'C');
    assert tokens[10] == Letter('T') && tokens[11] == Word(Num(4.0)) && tokens[12] == Word(Num(0.0));
    OneEach(tokens, Begun('C'));
  }

  lemma DrawingGoesOn(tokens: seq<Token>, pen: Pen, drawn: seq<Segment>)
    requires !IsCommandOrEnd(tokens, pen.i)
    ensures var (s, next) := Draw(tokens, pen);
      drawn + Segments(tokens, pen, true) == drawn + [s] + Segments(tokens, next, true) && next.i > pen.i
  {}

  lemma BoxMore(drawn: seq<Segment>, s: Segment, root: real -> real)
    ensures forall h :: BoxOf(drawn + [s], h, root) == AddSegment(BoxOf(drawn, h, root), s, h, root)
  {}

  // ---- The markers ---------------------------------------------------------------------------

  type Angle = real

  /** The trigonometry of markers: the angle of a line, and what an arc adds. */
  datatype Geometry = Geometry(angleTo: (Point, Point) -> Angle,
      arcMarkers: (Point, seq<Coord>, Point) -> (Point, Angle, Angle))

  /** The marker points and their angles, some of them still missing. */
  datatype Marks = Marks(points: seq<Point>, angles: seq<Option<Angle>>)

  predicate Paired(m: Marks) { |m.points| == |m.angles| }

  /** One more marker; a missing angle of the one before is filled in if it is known where the path
      goes on to. */
  function MarkAdded(m: Marks, p: Point, from: Option<Point>, priorTo: Option<Point>, g: Geometry): (r: Marks)
    requires Paired(m)
    ensures Paired(r)
  {
    var n := |m.angles|;
    var angles := if priorTo.Some? && n > 0 && m.angles[n - 1].None?
                  then m.angles[n - 1 := Some(g.angleTo(m.points[n - 1], priorTo.value))]
                  else m.angles;
    Marks(m.points + [p], angles + [if from.Some? then Some(g.angleTo(from.value, p)) else None])
  }

  function MarkSegment(m: Marks, s: Segment, g: Geometry): (r: Marks)
    requires Paired(m)
    ensures Paired(r)
  {
    match s
    case Move(to) => MarkAdded(m, to, None, None, g)
    case Line(_, to, back) => MarkAdded(m, to, Some(back), None, g)
    case Curve(_, c1, c2, to) => MarkAdded(m, to, Some(c2), Some(c1), g)
    case Quadratic(_, c, to) => MarkAdded(m, to, Some(c), Some(c), g)
    case Arc(from, to, shape) =>
      var (halfWay, first, second) := g.arcMarkers(from, shape, to);
      Marks(m.points + [halfWay] + [to], m.angles + [Some(first)] + [Some(second)])
  }

  function MarksOf(segments: seq<Segment>, g: Geometry): (m: Marks)
    ensures Paired(m)
  {
    if segments == [] then Marks([], [])
    else MarkSegment(MarksOf(segments[..|segments| - 1], g), segments[|segments| - 1], g)
  }

  /** The position of the marker at the end of segment `k`. */
  function MarkAt(segments: seq<Segment>, k: nat): nat
    requires k < |segments|
  {
    if segments[k].Arc? then MarksBefore(segments, k) + 1 else MarksBefore(segments, k)
  }

  /** Each segment before segment `k` has one marker, an arc has two. */
  function MarksBefore(segments: seq<Segment>, k: nat): nat
    requires k <= |segments|
  {
    if k == 0 then 0 else MarksBefore(segments, k - 1) + if segments[k - 1].Arc? then 2 else 1
  }

  /** Where the path goes on to from its end, if the next segment is a curve. */
  function Onward(segments: seq<Segment>, k: nat): Option<Point>
    requires k < |segments|
  {
    if k + 1 >= |segments| then None
    else
      match segments[k + 1]
      case Curve(_, c1, _, _) => Some(c1)
      case Quadratic(_, c, _) => Some(c)
      case _ => None
  }

  /** The marker at the end of segment `k` stands there, and looks where the segment arrives from; at
      the end of a move it looks onward if a curve comes next, and has no angle yet otherwise. */
  ghost predicate MarkedRight(segments: seq<Segment>, k: nat, g: Geometry)
    requires k < |segments|
  {
    var m, n, to := MarksOf(segments, g), MarkAt(segments, k), segments[k].to;
    && n < |m.points| && m.points[n] == to
    && m.angles[n] == match segments[k]
                      case Move(_) =>
                        if Onward(segments, k).Some? then Some(g.angleTo(to, Onward(segments, k).value)) else None
                      case Line(_, _, back) => Some(g.angleTo(back, to))
                      case Curve(_, _, c2, _) => Some(g.angleTo(c2, to))
                      case Quadratic(_, c, _) => Some(g.angleTo(c, to))
                      case Arc(from, _, shape) => Some(g.arcMarkers(from, shape, to).2)
  }

  lemma {:induction false} MarksBeforePrefix(segments: seq<Segment>, n: nat, k: nat)
    requires k <= n <= |segments|
    ensures MarksBefore(segments[..n], k) == MarksBefore(segments, k)
  {
    if k > 0 { MarksBeforePrefix(segments, n, k - 1); }
  }

  lemma {:induction false} MarksCounted(segments: seq<Segment>, g: Geometry)
    ensures |MarksOf(segments, g).points| == MarksBefore(segments, |segments|)
    decreases |segments|
  {
    if segments != [] {
      var n := |segments| - 1;
      MarksCounted(segments[..n], g);
      MarksBeforePrefix(segments, n, n);
    }
  }

  lemma {:induction false} MarksIncrease(segments: seq<Segment>, k: nat, n: nat)
    requires k <= n <= |segments|
    ensures MarksBefore(segments, k) <= MarksBefore(segments, n)
    ensures k < n ==> MarkAt(segments, k) < MarksBefore(segments, n)
    ensures k + 1 < n ==> MarkAt(segments, k) + 1 < MarksBefore(segments, n)
  {
    if k < n { MarksIncrease(segments, k, n - 1); }
  }

  lemma MarkedLast(segments: seq<Segment>, g: Geometry)
    requires segments != []
    ensures MarkedRight(segments, |segments| - 1, g)
  {
    var n := |segments| - 1;
    MarksCounted(segments[..n], g);
    MarksBeforePrefix(segments, n, n);
  }

  lemma MarkedLater(segments: seq<Segment>, k: nat, g: Geometry)
    requires k < |segments| - 1 && MarkedRight(segments[..|segments| - 1], k, g)
    ensures MarkedRight(segments, k, g)
  {
    var n := |segments| - 1;
    var before := segments[..n];
    MarksCounted(before, g);
    MarksBeforePrefix(segments, n, n);
    MarksBeforePrefix(segments, n, k);
    MarksIncrease(segments, k, n);
    assert MarkAt(before, k) == MarkAt(segments, k) && before[k] == segments[k];
    if k + 1 < n { assert Onward(before, k) == Onward(segments, k); }
    MarksStay(MarksOf(before, g), segments[n], g);
  }

  /** A segment changes no angle but a missing one at the very end. */
  lemma MarksStay(m: Marks, s: Segment, g: Geometry)
    requires Paired(m)
    ensures var r := MarkSegment(m, s, g);
      && |m.points| < |r.points| && (forall i :: 0 <= i < |m.points| ==> r.points[i] == m.points[i])
      && forall i :: 0 <= i < |m.angles| && (i < |m.angles| - 1 || m.angles[i].Some?) ==> r.angles[i] == m.angles[i]
  {}

  /** Every marker of a path is in its place, with the angle it should have. */
  lemma {:induction false} AllMarked(segments: seq<Segment>, k: nat, g: Geometry)
    requires k < |segments|
    ensures MarkedRight(segments, k, g)
    decreases |segments|
  {
    if k < |segments| - 1 {
      AllMarked(segments[..|segments| - 1], k, g);
      MarkedLater(segments, k, g);
    } else {
      MarkedLast(segments, g);
    }
  }

  // ---- The reader as an object -----------------------------------------------------------------

  class PathParser {
    const tokens: seq<Token>
    const geometry: Geometry
    var i: nat // tokens taken
    var command: Token
    var previousCommand: Token
    var start: Point
    var control: Point
    var current: Point
    var points: seq<Point>
    var angles: seq<Option<Angle>>

    ghost function View(): Pen
      reads this
    {
      Pen(i, command, previousCommand, start, control, current)
    }

    ghost predicate Valid()
      reads this
    {
      |points| == |angles|
    }

    ghost function Marked(): Marks
      reads this
    {
      Marks(points, angles)
    }

    constructor (tokens: seq<Token>, geometry: Geometry)
      ensures this.tokens == tokens && this.geometry == geometry && Valid() && View() == FRESH
    {
      this.tokens, this.geometry := tokens, geometry;
      i, command, previousCommand := 0, Word(NaN), Word(NaN);
      start, control, current, points, angles := ORIGIN, ORIGIN, ORIGIN, [], [];
    }

    method Reset()
      modifies this
      ensures Valid() && View() == FRESH && Marked() == Marks([], [])
    {
      i, command, previousCommand := 0, Word(NaN), Word(NaN);
      start, control, current, points, angles := ORIGIN, ORIGIN, ORIGIN, [], [];
    }

    method GetScalar() returns (v: Coord)
      modifies this`i
      ensures v == Value(tokens, old(i)) && i == old(i) + 1
    {
      v := Value(tokens, i);
      i := i + 1;
    }

    method GetPoint() returns (p: Point)
      modifies this`i
      ensures p == PointAt(tokens, old(i), command, old(current)) && i == old(i) + 2
    {
      var x := GetScalar();
      var y := GetScalar();
      p := Point(x, y);
      if IsRelative(command) { p := Point(Plus(current.x, p.x), Plus(current.y, p.y)); }
    }

    method GetAsControlPoint() returns (p: Point)
      modifies this`i, this`control
      ensures p == control == PointAt(tokens, old(i), command, old(current)) && i == old(i) + 2
    {
      p := GetPoint();
      control := p;
    }

    method GetAsCurrentPoint() returns (p: Point)
      modifies this`i, this`current
      ensures p == current == PointAt(tokens, old(i), command, old(current)) && i == old(i) + 2
    {
      p := GetPoint();
      current := p;
    }

    method GetReflectedControlPoint() returns (p: Point)
      ensures p == Reflected(View())
    {
      if Upper(previousCommand) != 'C' && Upper(previousCommand) != 'S' { return current; }
      p := Point(Mirror(current.x, control.x), Mirror(current.y, control.y));
    }

    /** Adds a marker; a missing angle of the one before can be filled in now. */
    method AddMarker(p: Point, from: Option<Point>, priorTo: Option<Point>)
      requires Valid()
      modifies this`points, this`angles
      ensures Valid() && Marked() == MarkAdded(old(Marked()), p, from, priorTo, geometry)
    {
      if priorTo.Some? && |angles| > 0 && angles[|angles| - 1].None? {
        var angle := geometry.angleTo(points[|points| - 1], priorTo.value);
        angles := angles[|angles| - 1 := Some(angle)];
      }
      AddMarkerAngle(p, if from.None? then None else Some(geometry.angleTo(from.value, p)));
    }

    method AddMarkerAngle(p: Point, a: Option<Angle>)
      requires Valid()
      modifies this`points, this`angles
      ensures Valid() && points == old(points) + [p] && angles == old(angles) + [a]
    {
      points := points + [p];
      angles := angles + [a];
    }

    method DrawHorizontal(bb: Box, root: real -> real) returns (ghost s: Segment)
      requires Valid() && Upper(command) == 'H'
      modifies this, bb
      ensures Drawn(old(View()), s, old(bb.X()), old(bb.Y()), old(Marked()), bb, root)
    {
      var from := current;
      var v := GetScalar();
      var p := Point(Plus(if IsRelative(command) then current.x else Num(0.0), v), current.y);
      AddMarker(p, Some(current), None);
      current := p;
      bb.AddPoint(Some(p.x), Some(p.y));
      s := Line(from, p, from);
    }

    method DrawVertical(bb: Box, root: real -> real) returns (ghost s: Segment)
      requires Valid() && Upper(command) == 'V'
      modifies this, bb
      ensures Drawn(old(View()), s, old(bb.X()), old(bb.Y()), old(Marked()), bb, root)
    {
      var from := current;
      var v := GetScalar();
      var p := Point(current.x, Plus(if IsRelative(command) then current.y else Num(0.0), v));
      AddMarker(p, Some(current), None);
      current := p;
      bb.AddPoint(Some(p.x), Some(p.y));
      s := Line(from, p, from);
    }

    /** A line of an L command, or a further point of a move, whose marker looks away from the
        start of the subpath. */
    method DrawLine(bb: Box, root: real -> real) returns (ghost s: Segment)
      requires Valid() && Upper(command) !in {'H', 'V', 'C', 'S', 'Q', 'T', 'A'}
      modifies this, bb
      ensures Drawn(old(View()), s, old(bb.X()), old(bb.Y()), old(Marked()), bb, root)
    {
      var from := current;
      var back := if Upper(command) == 'M' then start else from;
      var p := GetAsCurrentPoint();
      AddMarker(p, Some(back), None);
      bb.AddPoint(Some(p.x), Some(p.y));
      s := Line(from, p, back);
    }

    method DrawCubic(bb: Box, root: real -> real) returns (ghost s: Segment)
      requires Valid() && Upper(command) in {'C', 'S'}
      modifies this, bb
      ensures Drawn(old(View()), s, old(bb.X()), old(bb.Y()), old(Marked()), bb, root)
    {
      var curr := current;
      var p1;
      if Upper(command) == 'C' { p1 := GetPoint(); } else { p1 := GetReflectedControlPoint(); }
      var cntrl := GetAsControlPoint();
      var cp := GetAsCurrentPoint();
      AddMarker(cp, Some(cntrl), Some(p1));
      bb.AddBezierCurve(curr.x, curr.y, p1.x, p1.y, cntrl.x, cntrl.y, cp.x, cp.y, root);
      s := Curve(curr, p1, cntrl, cp);
    }

    method DrawQuadratic(bb: Box, root: real -> real) returns (ghost s: Segment)
      requires Valid() && Upper(command) in {'Q', 'T'}
      modifies this, bb
      ensures Drawn(old(View()), s, old(bb.X()), old(bb.Y()), old(Marked()), bb, root)
    {
      var curr := current;
      var cntrl;
      if Upper(command) == 'Q' {
        cntrl := GetAsControlPoint();
      } else {
        cntrl := GetReflectedControlPoint();
        control := cntrl;
      }
      var cp := GetAsCurrentPoint();
      AddMarker(cp, Some(cntrl), Some(cntrl));
      bb.AddQuadraticCurve(curr.x, curr.y, cntrl.x, cntrl.y, cp.x, cp.y, root);
      s := Quadratic(curr, cntrl, cp);
    }

    /** Radii, rotation and the two flags. */
    method GetArcShape() returns (shape: seq<Coord>)
      modifies this`i
      ensures i == old(i) + 5 && shape == seq(5, k requires 0 <= k < 5 => Value(tokens, old(i) + k))
    {
      var rx := GetScalar();
      var ry := GetScalar();
      var rotation := GetScalar();
      var large := GetScalar();
      var sweep := GetScalar();
      shape := [rx, ry, rotation, large, sweep];
    }

    method AddArcMarkers(from: Point, shape: seq<Coord>, to: Point)
      requires Valid()
      modifies this`points, this`angles
      ensures Valid() && Marked() == MarkSegment(old(Marked()), Arc(from, to, shape), geometry)
    {
      var (halfWay, first, second) := geometry.arcMarkers(from, shape, to);
      AddMarkerAngle(halfWay, Some(first));
      AddMarkerAngle(to, Some(second));
    }

    method DrawArc(bb: Box, root: real -> real) returns (ghost s: Segment)
      requires Valid() && Upper(command) == 'A'
      modifies this, bb
      ensures Drawn(old(View()), s, old(bb.X()), old(bb.Y()), old(Marked()), bb, root)
    {
      var curr := current;
      var shape := GetArcShape();
      var cp := GetAsCurrentPoint();
      AddArcMarkers(curr, shape, cp);
      bb.AddPoint(Some(cp.x), Some(cp.y));
      s := Arc(curr, cp, shape);
    }

    /** One more segment of the current command has been drawn, boxed and marked. */
    ghost predicate Drawn(pen: Pen, s: Segment, x: Range, y: Range, marks: Marks, bb: Box, root: real -> real)
      reads this, bb
    {
      && Valid() && Paired(marks) && (s, View()) == Draw(tokens, pen)
      && bb.X() == AddSegment(x, s, true, root) && bb.Y() == AddSegment(y, s, false, root)
      && Marked() == MarkSegment(marks, s, geometry)
    }

    method DrawOne(bb: Box, root: real -> real) returns (ghost s: Segment)
      requires Valid()
      modifies this, bb
      ensures Drawn(old(View()), s, old(bb.X()), old(bb.Y()), old(Marked()), bb, root)
    {
      var c := Upper(command);
      if c in {'C', 'S'} { s := DrawCubic(bb, root); }
      else if c in {'Q', 'T'} { s := DrawQuadratic(bb, root); }
      else if c == 'A' { s := DrawArc(bb, root); }
      else if c == 'H' { s := DrawHorizontal(bb, root); }
      else if c == 'V' { s := DrawVertical(bb, root); }
      else { s := DrawLine(bb, root); }
    }

    /** What has been drawn so far is boxed and marked, and the rest is still to be drawn. */
    ghost predicate Underway(drawn: seq<Segment>, drawing: bool, bb: Box, root: real -> real)
      reads this, bb
    {
      && Valid() && drawn + Segments(tokens, View(), drawing) == Segments(tokens, FRESH, false)
      && bb.X() == BoxOf(drawn, true, root) && bb.Y() == BoxOf(drawn, false, root)
      && Marked() == MarksOf(drawn, geometry)
    }

    /** The inner loop of a drawing command. */
    method DrawAll(bb: Box, root: real -> real, ghost before: seq<Segment>) returns (ghost drawn: seq<Segment>)
      requires Underway(before, true, bb, root)
      modifies this, bb
      ensures Underway(drawn, false, bb, root) && i >= old(i)
    {
      drawn := before;
      while !IsCommandOrEnd(tokens, i)
        invariant Underway(drawn, true, bb, root) && i >= old(i)
        decreases Left(tokens, View())
      {
        ghost var pen := View();
        ghost var s := DrawOne(bb, root);
        DrawingGoesOn(tokens, pen, drawn);
        BoxMore(drawn, s, root);
        drawn := drawn + [s];
      }
    }

    /** The first point of a move. */
    method DrawMove(bb: Box, root: real -> real, ghost before: seq<Segment>) returns (ghost drawn: seq<Segment>)
      requires Valid() && bb.X() == BoxOf(before, true, root) && bb.Y() == BoxOf(before, false, root)
      requires before + [Move(PointAt(tokens, i, command, current))] + Segments(tokens, MoveTo(tokens, View()), true)
        == Segments(tokens, FRESH, false)
      requires Marked() == MarksOf(before, geometry)
      modifies this, bb
      ensures Underway(drawn, true, bb, root) && i >= old(i)
    {
      var p := GetAsCurrentPoint();
      AddMarker(p, None, None);
      bb.AddPoint(Some(p.x), Some(p.y));
      start := current;
      drawn := before + [Move(p)];
      assert drawn[..|before|] == before;
    }

    /** One turn of the outer loop: the next command and all it draws. */
    method DrawNext(bb: Box, root: real -> real, ghost before: seq<Segment>) returns (ghost drawn: seq<Segment>)
      requires Underway(before, false, bb, root) && i < |tokens|
      modifies this, bb
      ensures Underway(drawn, false, bb, root) && i > old(i)
    {
      drawn := before;
      previousCommand, command, i := command, tokens[i], i + 1;
      var c := Upper(command);
      if c == 'M' {
        drawn := DrawMove(bb, root, before);
        drawn := DrawAll(bb, root, drawn);
      } else if Draws(c) {
        drawn := DrawAll(bb, root, before);
      } else if c == 'Z' {
        current := start;
      }
    }

    /** Reads the whole path: the box and the markers are those of the segments the tokens draw. */
    method Path(root: real -> real) returns (bb: Box, ghost segments: seq<Segment>)
      modifies this
      ensures Valid() && segments == Segments(tokens, FRESH, false) && fresh(bb)
      ensures bb.X() == BoxOf(segments, true, root) && bb.Y() == BoxOf(segments, false, root)
      ensures Marked() == MarksOf(segments, geometry)
    {
      Reset();
      bb := new Box();
      segments := [];
      while i < |tokens|
        invariant Underway(segments, false, bb, root)
        decreases |tokens| - i
      {
        segments := DrawNext(bb, root, segments);
      }
    }

    /** Fills each missing angle with the next one that is there. */
    method GetMarkerAngles()
      modifies this`angles
      ensures |angles| == |old(angles)|
      ensures forall k :: 0 <= k < |angles| && old(angles)[k].Some? ==> angles[k] == old(angles)[k]
      ensures forall k :: 0 <= k < |angles| && old(angles)[k].None? ==> IsNext(old(angles), k, angles[k])
    {
      var n := 0;
      while n < |angles|
        invariant 0 <= n <= |angles| == |old(angles)|
        invariant forall k :: n <= k < |angles| ==> angles[k] == old(angles)[k]
        invariant forall k :: 0 <= k < n && old(angles)[k].Some? ==> angles[k] == old(angles)[k]
        invariant forall k :: 0 <= k < n && old(angles)[k].None? ==> IsNext(old(angles), k, angles[k])
      {
        if angles[n].None? {
          var j := n + 1;
          while j < |angles| && angles[j].None?
            invariant n < j <= |angles| && forall k :: n <= k < j ==> angles[k].None?
          {
            j := j + 1;
          }
          if j < |angles| { angles := angles[n := angles[j]]; }
        }
        n := n + 1;
      }
    }
  }

  /** `a` is the first angle present after position `k`, or None if there is none. */
  ghost predicate IsNext(angles: seq<Option<Angle>>, k: nat, a: Option<Angle>) {
    if a.Some? then exists j :: k < j < |angles| && angles[j] == a && forall m :: k < m < j ==> angles[m].None?
    else forall m :: k < m < |angles| ==> angles[m].None?
  }
}
