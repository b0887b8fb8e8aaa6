/** The loader's reduction of "." and ".." segments, which splices the list it walks. */
module PathNormalizer {
  import opened Text

  // ---- What a path means ----------------------------------------------------------------

  /** Following one segment from a place: "." stays, ".." undoes the last name if there is one. */
  function Step(place: seq<string>, segment: string): seq<string> {
    if segment == "." then place
    else if segment == ".." && |place| > 0 && place[|place| - 1] != ".." then place[..|place| - 1]
    else place + [segment]
  }

  function Follow(place: seq<string>, path: seq<string>): seq<string>
    decreases path
  {
    if path == [] then place else Follow(Step(place, path[0]), path[1..])
  }

  function Meaning(path: seq<string>): seq<string> { Follow([], path) }

  lemma {:induction false} FollowAppend(place: seq<string>, a: seq<string>, b: seq<string>)
    ensures Follow(place, a + b) == Follow(Follow(place, a), b)
    decreases a
  {
    if a == [] {
      assert a + b == b;
    } else {
      FollowAppend(Step(place, a[0]), a[1..], b);
      assert (a + b)[1..] == a[1..] + b;
    }
  }

  lemma FollowLast(path: seq<string>, segment: string)
    ensures Meaning(path + [segment]) == Step(Meaning(path), segment)
  {
    FollowAppend([], path, [segment]);
    assert [segment][1..] == [];
  }

  /** No name is followed by "..": nothing is left to undo. */
  ghost predicate Reduced(path: seq<string>) {
    forall i :: 0 < i < |path| && path[i] == ".." ==> path[i - 1] == ".."
  }

  lemma {:induction false} MeaningReduced(path: seq<string>)
    ensures Reduced(Meaning(path)) && "." !in Meaning(path)
  {
    if path != [] {
      var n := |path| - 1;
      MeaningReduced(path[..n]);
      assert path == path[..n] + [path[n]];
      FollowLast(path[..n], path[n]);
    }
  }

  // ---- The loop -------------------------------------------------------------------------

  /** Segments `k` and `k + 1` are "..", and what precedes them means a single name. */
  ghost predicate StuckAt(path: seq<string>, k: nat) {
    k + 1 < |path| && path[k] == ".." && path[k + 1] == ".."
    && |Meaning(path[..k])| == 1 && Meaning(path[..k])[0] != ".."
  }

  ghost predicate Stuck(path: seq<string>) {
    exists k: nat :: StuckAt(path, k)
  }

  /** The walked part: its meaning, and whether it is the reduced form of what was read. */
  ghost predicate Walked(path: seq<string>, p: nat, done: seq<string>, stuck: bool) {
    && p <= |path| && Meaning(done) == Meaning(path[..p]) && "." !in done
    && (stuck <==> exists k: nat :: k < p && StuckAt(path, k))
    && (if stuck then |done| > 1 && done[0] != ".." && done[1] == ".." else done == Meaning(path[..p]))
  }

  /** What one turn of the loop makes of the walked part `done`, before segment `d` and `next`. */
  function Turn(done: seq<string>, d: string, next: seq<string>): seq<string> {
    var n := |done|;
    if d == "." then done
    else if d == ".." && !(n == 0 || (n == 1 && next != [] && next[0] == "..") || done[n - 1] == "..") then
      done[..n - 1]
    else done + [d]
  }

  /** What the loop makes of the walked part `done` and the segments after it. */
  function Trimmed(done: seq<string>, rest: seq<string>): seq<string>
    decreases |rest|
  {
    if rest == [] then done else Trimmed(Turn(done, rest[0], rest[1..]), rest[1..])
  }

  /** A turn keeps the meaning. */
  lemma TurnMeaning(done: seq<string>, d: string, next: seq<string>)
    requires "." !in done
    ensures Meaning(Turn(done, d, next)) == Step(Meaning(done), d) && "." !in Turn(done, d, next)
  {
    FollowLast(done, d);
    if |done| > 0 {
      var n := |done| - 1;
      assert done == done[..n] + [done[n]];
      FollowLast(done[..n], done[n]);
      assert Step(Meaning(done[..n]), done[n]) == Meaning(done);
    }
  }

  lemma WalkOn(path: seq<string>, p: nat, done: seq<string>, stuck: bool)
    requires Walked(path, p, done, stuck) && p < |path|
    ensures Walked(path, p + 1, Turn(done, path[p], path[p + 1..]), stuck || StuckAt(path, p))
  {
    var d := path[p];
    assert path[..p + 1] == path[..p] + [d];
    FollowLast(path[..p], d);
    TurnMeaning(done, d, path[p + 1..]);
  }

  /** The loop stands at position `c` of `l`, having read `p` segments of the path. */
  ghost predicate At(path: seq<string>, p: nat, l: seq<string>, c: nat, stuck: bool) {
    && c <= |l| && p <= |path| && l[c..] == path[p..] && Walked(path, p, l[..c], stuck)
    && Trimmed(l[..c], path[p..]) == Trimmed([], path)
  }

  lemma NextSegments(path: seq<string>, p: nat, l: seq<string>, c: nat)
    requires p <= |path| && c < |l| && l[c..] == path[p..]
    ensures p < |path| && l[c] == path[p] && l[c + 1..] == path[p + 1..]
    ensures c + 1 < |l| <==> path[p + 1..] != []
    ensures c + 1 < |l| ==> l[c + 1] == path[p + 1..][0]
  {}

  /** One turn: `l[..c]` becomes `done`, which is what the turn makes of it. */
  lemma TurnOn(path: seq<string>, p: nat, l: seq<string>, c: nat, stuck: bool, done: seq<string>)
    requires At(path, p, l, c, stuck) && c < |l| && p < |path| && done == Turn(l[..c], l[c], path[p + 1..])
    ensures At(path, p + 1, done + l[c + 1..], |done|, stuck || StuckAt(path, p))
  {
    NextSegments(path, p, l, c);
    WalkOn(path, p, l[..c], stuck);
    assert path[p..][0] == l[c] && path[p..][1..] == path[p + 1..];
    assert (done + l[c + 1..])[..|done|] == done && (done + l[c + 1..])[|done|..] == l[c + 1..];
  }

  /** Whether the segment at `c` undoes the one before it. */
  predicate GoesBack(l: seq<string>, c: nat)
    requires c < |l|
  {
    l[c] == ".." && !(c == 0 || (c == 1 && 2 < |l| && l[2] == "..") || l[c - 1] == "..")
  }

  /** The list and the position after a turn of the loop. */
  function TurnAt(l: seq<string>, c: nat): (seq<string>, nat)
    requires c < |l|
  {
    if l[c] == "." then (l[..c] + l[c + 1..], c)
    else if GoesBack(l, c) then (l[..c - 1] + l[c + 1..], c - 1)
    else (l, c + 1)
  }

  /** Which turn it is. */
  lemma WhichTurn(path: seq<string>, p: nat, l: seq<string>, c: nat)
    requires p <= |path| && c < |l| && l[c..] == path[p..]
    ensures p < |path|
    ensures var done := Turn(l[..c], l[c], path[p + 1..]); TurnAt(l, c) == (done + l[c + 1..], |done|)
  {
    NextSegments(path, p, l, c);
    assert l[..c] + [l[c]] + l[c + 1..] == l;
    if GoesBack(l, c) { assert l[..c][..c - 1] == l[..c - 1]; }
  }

  lemma Taken(path: seq<string>, p: nat, l: seq<string>, c: nat, stuck: bool)
    requires At(path, p, l, c, stuck) && c < |l|
    ensures p < |path|
    ensures var (m, d) := TurnAt(l, c); At(path, p + 1, m, d, stuck || StuckAt(path, p))
  {
    WhichTurn(path, p, l, c);
    TurnOn(path, p, l, c, stuck, Turn(l[..c], l[c], path[p + 1..]));
  }

  lemma Started(path: seq<string>)
    ensures At(path, 0, path, 0, false)
  {
    assert path[0..] == path && path[..0] == [];
  }

  lemma Finished(path: seq<string>, p: nat, l: seq<string>, stuck: bool)
    requires At(path, p, l, |l|, stuck)
    ensures Meaning(l) == Meaning(path) && "." !in l && (l == Meaning(path) <==> !Stuck(path))
    ensures l == Trimmed([], path)
  {
    assert l[..|l|] == l && path[..p] == path && path[p..] == [];
    MeaningReduced(path);
  }

  /** Reduces "." and ".." segments in place. The path keeps its meaning and loses every ".";
      it ends in reduced form unless two ".." follow a single name. */
  method TrimDots(path: seq<string>) returns (l: seq<string>)
    ensures Meaning(l) == Meaning(path) && "." !in l
    ensures l == Meaning(path) <==> !Stuck(path)
    ensures l == Trimmed([], path)
  {
    l := path;
    var c := 0;
    ghost var p, stuck := 0, false;
    Started(path);
    while c < |l|
      invariant c >= 0 && At(path, p, l, c, stuck)
      decreases |l| - c
    {
      var d := l[c];
      ghost var (after, place) := TurnAt(l, c);
      Taken(path, p, l, c, stuck);
      if d == "." {
        l, c := l[..c] + l[c + 1..], c - 1;
      } else if GoesBack(l, c) {
        l, c := l[..c - 1] + l[c + 1..], c - 2;
      }
      c := c + 1;
      assert l == after && c == place;
      p, stuck := p + 1, stuck || StuckAt(path, p);
    }
    Finished(path, p, l, stuck);
  }

  // ---- Names relative to a base ------------------------------------------------------------

  datatype Base = NoBase | Base(name: string)

  /** The segments a name stands for: a name starting with '.' is relative to the base's folder. */
  function Absolute(name: string, base: Base): seq<string> {
    var a := Split(name, '/');
    if base.Base? && a[0] != "" && a[0][0] == '.' then
      var k := Split(base.name, '/');
      k[..|k| - 1] + a
    else a
  }

  /** The id of a dependency `name` of module `base`. */
  method Normalize(name: string, base: Base) returns (id: string, ghost segments: seq<string>)
    ensures name == "" ==> id == ""
    ensures name != "" ==>
      && id == Join(segments, '/') && "." !in segments
      && Meaning(segments) == Meaning(Absolute(name, base))
      && (segments == Meaning(Absolute(name, base)) <==> !Stuck(Absolute(name, base)))
  {
    id, segments := name, [];
    if name != "" {
      var l := TrimDots(Absolute(name, base));
      id, segments := Join(l, '/'), l;
    }
  }

  /** A name that begins with '.' is followed from the folder of the module that asks, which is all
      of its id up to the last '/'; any other name is followed from the top. */
  lemma ReadFromFolder(name: string, dir: string, file: string, base: Base)
    requires '/' !in file && name != ""
    ensures name[0] == '.' ==>
      && Meaning(Absolute(name, Base(dir + "/" + file))) == Follow(Meaning(Split(dir, '/')), Split(name, '/'))
      && Meaning(Absolute(name, Base(file))) == Meaning(Split(name, '/'))
    ensures name[0] != '.' || base.NoBase? ==> Meaning(Absolute(name, base)) == Meaning(Split(name, '/'))
  {
    FirstOfSplit(name);
    if name[0] == '.' {
      var a, k := Split(name, '/'), Split(dir, '/');
      assert dir + ['/'] + file == dir + "/" + file;
      SplitJoined(dir, file, '/');
      SplitWhole(file, '/');
      assert (k + [file])[..|k|] == k && [file][..0] + a == a;
      FollowAppend([], k, a);
    }
  }

  lemma FirstOfSplit(name: string)
    requires name != ""
    ensures var a := Split(name, '/'); a[0] != "" && a[0][0] == '.' <==> name[0] == '.'
  {}

  /** Segments without '/' are found again by splitting the id. */
  lemma IdSplits(segments: seq<string>)
    requires segments != [] && forall i :: 0 <= i < |segments| ==> '/' !in segments[i]
    ensures Meaning(Split(Join(segments, '/'), '/')) == Meaning(segments)
  {
    SplitJoin(segments, '/');
  }

  lemma TrimmedOnce(done: seq<string>, d: string, rest: seq<string>)
    ensures Trimmed(done, [d] + rest) == Trimmed(Turn(done, d, rest), rest)
  {
    assert ([d] + rest)[1..] == rest;
  }

  /** "a/../.." stays as it is although it means "..". */
  lemma StuckExample()
    ensures var path := ["a"] + ([".."] + [".."]);
      Stuck(path) && Meaning(path) == [".."] && Trimmed([], path) == path
  {
    var path := ["a"] + ([".."] + [".."]);
    assert path[..1] == [] + ["a"] && path[..2] == path[..1] + [".."] && path == path[..2] + [".."];
    FollowLast([], "a");
    FollowLast(path[..1], "..");
    FollowLast(path[..2], "..");
    assert StuckAt(path, 1);
    TrimmedOnce([], "a", [".."] + [".."]);
    TrimmedOnce(["a"], "..", [".."]);
    TrimmedOnce(["a"] + [".."], "..", []);
    assert [".."] + [] == [".."];
  }
}
