/** A callback list between two call-outs, as a value: the steps its methods take, the history
    of its passes, and the invariant that no surviving callback is skipped or run twice. */
module CallbackState {
  import opened Wrappers

  /** `Internal` callbacks are the three a Deferred installs; `User` ones come from outside. */
  datatype Fn = Internal(k: nat) | User(id: nat)

  type Args = int

  /** One occurrence of a function in the list; `serial` tells occurrences apart and is
      never looked at by the operations. */
  datatype Entry = Entry(fn: Fn, serial: nat)

  datatype Options = Options(once: bool, memory: bool, unique: bool)

  /** One walk over the list: the occurrences it ran, in order, the last serial it started behind,
      the list it left, and the additions that landed where it had already gone past. */
  datatype Pass = Pass(args: Args, start: nat, ran: seq<Entry>, left: seq<Entry>, emptied: bool, skipped: set<Entry>)

  /** The present pass and the past: passes ended, arguments accepted by `fireWith` and those
      whose pass has begun. */
  datatype History = History(
    start: nat, ran: seq<Entry>, mark: nat, emptied: bool, skipped: set<Entry>,
    passes: seq<Pass>, accepted: seq<Args>, fires: seq<Args>)

  datatype State = State(
    options: Options, list: Option<seq<Entry>>, firing: bool, memory: Option<Args>, fired: bool,
    firingLength: int, firingIndex: int, firingStart: nat, stack: Option<seq<Args>>, args: Args, next: nat,
        hist: History)

  function Fresh(options: Options): State {
    State(options, Some([]), false, None, false, 0, 0, 0, if options.once then None else Some([]), 0, 0,
          History(0, [], 0, false, {}, [], [], []))
  }

  // ---- Steps ----------------------------------------------------------------------------

  predicate Has(l: seq<Entry>, fn: Fn) { exists k :: 0 <= k < |l| && l[k].fn == fn }

  function Pushed(l: seq<Entry>, fns: seq<Fn>, unique: bool, next: nat): (r: (seq<Entry>, nat))
    decreases |fns|
  {
    if fns == [] then (l, next)
    else if unique && Has(l, fns[0]) then Pushed(l, fns[1..], unique, next)
    else Pushed(l + [Entry(fns[0], next + 1)], fns[1..], unique, next + 1)
  }

  function Without(l: seq<Entry>, fn: Fn): seq<Entry>
    decreases |l|
  {
    if l == [] then []
    else if l[0].fn == fn then Without(l[1..], fn)
    else [l[0]] + Without(l[1..], fn)
  }

  function Clip(n: int, l: seq<Entry>): nat { if n < 0 then 0 else if n < |l| then n else |l| }

  /** What the pass has gone past, and what lies ahead of it. */
  function Behind(s: State): seq<Entry>
    requires s.list.Some?
  {
    s.list.value[..Clip(s.firingIndex + 1, s.list.value)]
  }

  function Ahead(s: State): seq<Entry>
    requires s.list.Some?
  {
    s.list.value[Clip(s.firingIndex + 1, s.list.value)..]
  }

  function DisableStep(s: State): State { s.(list := None, stack := None, memory := None) }

  function LockStep(s: State): State {
    var t := s.(stack := None);
    if t.memory.None? then DisableStep(t) else t
  }

  function EmptyStep(s: State): State {
    s.(list := Some([]), firingLength := 0, hist := s.hist.(emptied := true))
  }

  /** `remove` of one function: survivors keep their order, and the index keeps its place. */
  function RemoveOne(s: State, fn: Fn): State
    requires s.list.Some?
  {
    var l := s.list.value;
    var rest := Without(l, fn);
    var gone := |Behind(s)| - |Without(Behind(s), fn)|;
    if s.firing
    then s.(list := Some(rest), firingLength := s.firingLength - (|l| - |rest|), firingIndex := s.firingIndex - gone)
    else s.(list := Some(rest))
  }

  function RemoveStep(s: State, fns: seq<Fn>): State
    decreases |fns|
  {
    if s.list.None? || fns == [] then s else RemoveStep(RemoveOne(s, fns[0]), fns[1..])
  }

  /** A pass starts: everything before `firingStart` counts as gone past. */
  function Opened(s: State, args: Args): State
    requires s.list.Some?
  {
    var l, g := s.list.value, Clip(s.firingStart, s.list.value);
    var start := if g > 0 then l[g - 1].serial else 0;
    s.(memory := if s.options.memory then Some(args) else None, fired := true,
       firingIndex := s.firingStart, firingStart := 0, firingLength := |l|, firing := true, args := args,
       hist := s.hist.(start := start, ran := [], mark := start, emptied := false, skipped := {}))
  }

  /** The pass ends and is entered in the history. */
  function Closed(s: State): State {
    var h := s.hist;
    var left := if s.list.Some? then s.list.value else [];
    s.(firing := false, hist := h.(passes := h.passes + [Pass(s.args, h.start, h.ran, left, h.emptied, h.skipped)]))
  }

  /** The callback at the index is called. */
  function Called(s: State): State
    requires s.list.Some? && 0 <= s.firingIndex < |s.list.value|
  {
    var e := s.list.value[s.firingIndex];
    s.(hist := s.hist.(ran := s.hist.ran + [e], mark := e.serial))
  }

  predicate InRange(s: State) {
    s.list.Some? ==> s.firingLength == |s.list.value| && 0 <= s.firingIndex
  }

  /** Calls the callback at the index or, past the end, ends the pass. */
  function Proceed(s: State): State
    requires InRange(s)
    decreases if s.stack.Some? then |s.stack.value| else 0, 1
  {
    if s.list.Some? && s.firingIndex < s.firingLength then Called(s) else Finish(Closed(s))
  }

  /** What follows a pass: the next queued fire, or the end of a list that fires only once. */
  function Finish(s: State): State
    decreases if s.stack.Some? then |s.stack.value| else 0, 0
  {
    if s.list.None? then s
    else if s.stack.Some? then
      if s.stack.value == [] then s else Proceed(Opened(Shifted(s), s.stack.value[0]))
    else if s.memory.Some? then s.(list := Some([]))
    else DisableStep(s)
  }

  function Shifted(s: State): State
    requires s.stack.Some? && s.stack.value != []
  {
    s.(stack := Some(s.stack.value[1..]), hist := s.hist.(fires := s.hist.fires + [s.stack.value[0]]))
  }

  function Fire(s: State, args: Args): State
    requires s.list.Some?
  {
    Proceed(Opened(s, args))
  }

  /** The entries of `l` from position `n` on that stand at or before the index. */
  function Landed(index: int, n: nat, l: seq<Entry>): set<Entry> {
    set k | n <= k < |l| && k <= index :: l[k]
  }

  /** The list of a pass under way has grown to `l`. */
  function Grown(s: State, l: seq<Entry>, next: nat): State
    requires s.list.Some?
  {
    s.(list := Some(l), firingLength := |l|, next := next,
       hist := s.hist.(skipped := s.hist.skipped + Landed(s.firingIndex, |s.list.value|, l)))
  }

  function AddStep(s: State, fns: seq<Fn>): State {
    if s.list.None? then s
    else
      var (l, next) := Pushed(s.list.value, fns, s.options.unique, s.next);
      if s.firing then Grown(s, l, next)
      else
        var t := s.(list := Some(l), next := next);
        if s.memory.Some? then Fire(t.(firingStart := |s.list.value|), s.memory.value) else t
  }

  predicate Accepts(s: State) { s.list.Some? && (!s.fired || s.stack.Some?) }

  function FireStep(s: State, args: Args): State {
    if !Accepts(s) then s
    else
      var t := s.(hist := s.hist.(accepted := s.hist.accepted + [args]));
      if !s.firing then Fire(t.(hist := t.hist.(fires := t.hist.fires + [args])), args)
      else if s.stack.Some? then t.(stack := Some(s.stack.value + [args]))
      else s
  }

  /** The running callback returns. */
  function ReturnStep(s: State): State
    requires InRange(s.(firingIndex := s.firingIndex + 1))
  {
    Proceed(s.(firingIndex := s.firingIndex + 1))
  }

  // ---- Invariant ------------------------------------------------------------------------

  /** Serials rise along the list, above `low` and up to `high`. */
  ghost predicate Rising(l: seq<Entry>, low: nat, high: nat) {
    && (forall e :: e in l ==> low < e.serial <= high)
    && forall i, j :: 0 <= i < j < |l| ==> l[i].serial < l[j].serial
  }

  /** The pass ran occurrences in order, each at most once, and left none behind unrun but those
      that were added behind it, which takes an `empty`. */
  ghost predicate PassOk(p: Pass) {
    && (exists high: nat :: Rising(p.ran, p.start, high))
    && (forall e :: e in p.left ==> e.serial <= p.start || e in p.ran || e in p.skipped)
    && (forall e :: e in p.ran ==> e !in p.skipped) && (!p.emptied ==> p.skipped == {})
  }

  ghost predicate Present(s: State) {
    var h := s.hist;
    && h.start <= h.mark <= s.next && Rising(h.ran, h.start, h.mark) && s.firingIndex >= -1 && SkippedOk(s)
    && (s.list.Some? ==>
         && s.firingLength == |s.list.value|
         && (forall e :: e in Ahead(s) ==> e.serial > h.mark && e !in h.skipped)
         && (forall e :: e in Behind(s) ==> e.serial <= h.start || e in h.ran || e in h.skipped)
         && (!h.emptied ==> s.firingIndex < |s.list.value|))
  }

  ghost predicate SkippedOk(s: State) {
    var h := s.hist;
    && (forall e :: e in h.skipped ==> e.serial <= s.next && e !in h.ran) && (!h.emptied ==> h.skipped == {})
  }

  ghost predicate Queue(s: State) {
    if s.stack.Some? then s.hist.accepted == s.hist.fires + s.stack.value else s.hist.fires <= s.hist.accepted
  }

  /** Callbacks run with the arguments of the latest fire. */
  ghost predicate Latest(s: State) {
    var fires := s.hist.fires;
    && (s.firing ==> fires != [] && s.args == fires[|fires| - 1])
    && (s.memory.Some? ==> fires != [] && s.memory.value == fires[|fires| - 1])
    && forall p :: p in s.hist.passes ==> p.args in fires
  }

  ghost predicate Inv(s: State) {
    && (s.list.Some? ==> Rising(s.list.value, 0, s.next))
    && (s.list.None? ==> s.stack.None? && s.memory.None?)
    && s.firingStart == 0 && (s.firing ==> s.fired && Present(s))
    && (!s.firing && s.stack.Some? ==> s.stack.value == [])
    && (s.options.once ==> s.stack.None?)
    && Queue(s) && Latest(s) && (!s.fired ==> s.hist.accepted == [])
    && forall p :: p in s.hist.passes ==> PassOk(p)
  }

  // ---- The steps keep it ------------------------------------------------------------------

  lemma {:induction false} PushedRises(l: seq<Entry>, fns: seq<Fn>, unique: bool, next: nat)
    requires Rising(l, 0, next)
    ensures var (r, n) := Pushed(l, fns, unique, next);
      l <= r && next <= n && Rising(r, 0, n) && forall k :: |l| <= k < |r| ==> r[k].serial > next
    decreases |fns|
  {
    if fns != [] {
      if unique && Has(l, fns[0]) {
        PushedRises(l, fns[1..], unique, next);
      } else {
        PushedRises(l + [Entry(fns[0], next + 1)], fns[1..], unique, next + 1);
      }
    }
  }

  lemma {:induction false} WithoutSome(l: seq<Entry>, fn: Fn, low: nat, high: nat)
    requires Rising(l, low, high)
    ensures |Without(l, fn)| <= |l| && Rising(Without(l, fn), low, high)
    ensures forall e :: e in Without(l, fn) <==> e in l && e.fn != fn
  {
    if l != [] {
      assert Rising(l[1..], low, high);
      WithoutSome(l[1..], fn, low, high);
    }
  }

  lemma {:induction false} WithoutAppend(a: seq<Entry>, b: seq<Entry>, fn: Fn)
    ensures Without(a + b, fn) == Without(a, fn) + Without(b, fn)
    decreases |a|
  {
    if a == [] {
      assert a + b == b;
    } else {
      WithoutAppend(a[1..], b, fn);
      assert (a + b)[1..] == a[1..] + b;
      assert (a + b)[0] == a[0];
    }
  }

  lemma SlicesOf(a: seq<Entry>, b: seq<Entry>, n: int)
    requires n == |a| || (n > |a| && b == [])
    ensures (a + b)[..Clip(n, a + b)] == a && (a + b)[Clip(n, a + b)..] == b
  {}

  /** Splicing one occurrence out of the list, moving the index and the length along. */
  function Spliced(s: State, d: nat): State
    requires s.list.Some? && d < |s.list.value|
  {
    var l := s.list.value;
    var t := s.(list := Some(l[..d] + l[d + 1..]));
    if s.firing
    then t.(firingLength := if s.firingLength >= d then s.firingLength - 1 else s.firingLength,
            firingIndex := if s.firingIndex >= d then s.firingIndex - 1 else s.firingIndex)
    else t
  }

  predicate Walkable(s: State) {
    s.list.Some? && (s.firing ==> s.firingLength == |s.list.value| && s.firingIndex >= -1)
  }

  /** No occurrence of `fn` before `d`, and one at `d`, or none at all. */
  predicate FirstAt(l: seq<Entry>, fn: Fn, d: int) {
    && -1 <= d < |l| && (d >= 0 ==> l[d].fn == fn)
    && forall k :: 0 <= k < (if d >= 0 then d else |l|) ==> l[k].fn != fn
  }

  lemma WithoutCut(l: seq<Entry>, d: nat, fn: Fn)
    requires d < |l| && l[d].fn == fn
    ensures Without(l[..d] + l[d + 1..], fn) == Without(l, fn)
  {
    WithoutAppend(l[..d], l[d + 1..], fn);
    assert l == l[..d] + ([l[d]] + l[d + 1..]);
    WithoutAppend(l[..d], [l[d]] + l[d + 1..], fn);
    assert ([l[d]] + l[d + 1..])[1..] == l[d + 1..];
  }

  lemma CutBefore(l: seq<Entry>, n: nat, d: nat)
    requires d < n <= |l|
    ensures (l[..d] + l[d + 1..])[..n - 1] == l[..n][..d] + l[..n][d + 1..]
  {}

  lemma CutAfter(l: seq<Entry>, n: nat, d: nat)
    requires n <= d < |l|
    ensures (l[..d] + l[d + 1..])[..n] == l[..n]
  {}

  lemma SplicedRemoves(s: State, d: nat, fn: Fn)
    requires s.list.Some? && d < |s.list.value| && s.list.value[d].fn == fn
    requires Walkable(s)
    ensures RemoveOne(Spliced(s, d), fn) == RemoveOne(s, fn) && Walkable(Spliced(s, d))
  {
    var l, t := s.list.value, Spliced(s, d);
    WithoutCut(l, d, fn);
    if s.firing {
      if s.firingIndex >= d {
        CutBefore(l, Clip(s.firingIndex + 1, l), d);
        WithoutCut(Behind(s), d, fn);
      } else {
        CutAfter(l, Clip(s.firingIndex + 1, l), d);
      }
    }
  }

  lemma {:induction false} WithoutNone(l: seq<Entry>, fn: Fn)
    requires forall k :: 0 <= k < |l| ==> l[k].fn != fn
    ensures Without(l, fn) == l
    decreases |l|
  {
    if l != [] { WithoutNone(l[1..], fn); }
  }

  lemma NothingToRemove(s: State, fn: Fn)
    requires s.list.Some? && FirstAt(s.list.value, fn, -1)
    ensures RemoveOne(s, fn) == s
  {
    WithoutNone(s.list.value, fn);
    WithoutNone(Behind(s), fn);
  }

  /** Removing takes the function out of what is behind the index and of what lies ahead. */
  lemma RemoveOneSplits(s: State, fn: Fn)
    requires s.list.Some? && s.firing && s.firingIndex >= -1 && (s.firingIndex < |s.list.value| || Ahead(s) == [])
    ensures var t := RemoveOne(s, fn); Behind(t) == Without(Behind(s), fn) && Ahead(t) == Without(Ahead(s), fn)
    ensures Without(s.list.value, fn) == Without(Behind(s), fn) + Without(Ahead(s), fn)
  {
    var a, b := Behind(s), Ahead(s);
    assert s.list.value == a + b;
    WithoutAppend(a, b, fn);
    WithoutShorter(a, fn);
    SlicesOf(Without(a, fn), Without(b, fn), RemoveOne(s, fn).firingIndex + 1);
  }

  lemma {:induction false} WithoutShorter(l: seq<Entry>, fn: Fn)
    ensures |Without(l, fn)| <= |l|
  {
    if l != [] { WithoutShorter(l[1..], fn); }
  }

  lemma RemovedPresent(s: State, fn: Fn)
    requires Inv(s) && s.list.Some? && s.firing
    ensures Present(RemoveOne(s, fn))
  {
    RemoveOneSplits(s, fn);
    WithoutSome(Behind(s), fn, 0, s.next);
    WithoutSome(Ahead(s), fn, 0, s.next);
  }

  lemma RemoveOneKeeps(s: State, fn: Fn)
    requires Inv(s) && s.list.Some?
    ensures Inv(RemoveOne(s, fn))
  {
    WithoutSome(s.list.value, fn, 0, s.next);
    if s.firing { RemovedPresent(s, fn); }
  }

  lemma {:induction false} RemoveKeeps(s: State, fns: seq<Fn>)
    requires Inv(s)
    ensures Inv(RemoveStep(s, fns))
    decreases |fns|
  {
    if s.list.Some? && fns != [] {
      RemoveOneKeeps(s, fns[0]);
      RemoveKeeps(RemoveOne(s, fns[0]), fns[1..]);
    }
  }

  /** Inside a pass that has just moved to a new index and not yet called. */
  ghost predicate Ready(s: State) {
    var h := s.hist;
    && (s.list.Some? ==> Rising(s.list.value, 0, s.next))
    && (s.list.None? ==> s.stack.None? && s.memory.None?)
    && s.firingStart == 0 && s.firing && s.fired
    && h.start <= h.mark <= s.next && Rising(h.ran, h.start, h.mark) && s.firingIndex >= 0 && SkippedOk(s)
    && (s.list.Some? ==>
         && s.firingLength == |s.list.value|
         && (forall e :: e in s.list.value[Clip(s.firingIndex, s.list.value)..]
               ==> e.serial > h.mark && e !in h.skipped)
         && (forall e :: e in s.list.value[..Clip(s.firingIndex, s.list.value)]
               ==> e.serial <= h.start || e in h.ran || e in h.skipped)
         && (!h.emptied ==> s.firingIndex <= |s.list.value|))
    && (s.options.once ==> s.stack.None?)
    && Queue(s) && Latest(s)
    && forall p :: p in h.passes ==> PassOk(p)
  }

  lemma OpenedReady(s: State, args: Args)
    requires s.list.Some? && Rising(s.list.value, 0, s.next) && s.firingStart <= |s.list.value|
    requires Queue(s) && (s.options.once ==> s.stack.None?) && forall p :: p in s.hist.passes ==> PassOk(p)
    requires Latest(s.(firing := true, args := args, memory := None))
    ensures Ready(Opened(s, args))
  {
    var l, g := s.list.value, s.firingStart;
    forall e | e in l[g..] ensures e.serial > Opened(s, args).hist.mark {
      var k :| g <= k < |l| && l[k] == e;
    }
    forall e | e in l[..g] ensures e.serial <= Opened(s, args).hist.start {
      var k :| 0 <= k < g && l[k] == e;
    }
  }

  lemma ClosedOk(s: State)
    requires Ready(s) && (s.list.Some? ==> s.firingIndex >= s.firingLength)
    ensures forall p :: p in Closed(s).hist.passes ==> PassOk(p)
  {
    if s.list.Some? { assert s.list.value[..Clip(s.firingIndex, s.list.value)] == s.list.value; }
  }

  lemma CalledKeeps(s: State)
    requires Ready(s) && s.list.Some? && s.firingIndex < s.firingLength
    ensures Inv(Called(s))
  {
    var l, k, t := s.list.value, s.firingIndex, Called(s);
    assert l[k] in l[k..];
    assert Behind(t) == l[..k] + [l[k]];
  }

  /** Between two passes. */
  ghost predicate Over(s: State) {
    && (s.list.Some? ==> Rising(s.list.value, 0, s.next))
    && (s.list.None? ==> s.stack.None? && s.memory.None?)
    && s.firingStart == 0 && !s.firing && s.fired
    && (s.options.once ==> s.stack.None?)
    && Queue(s) && Latest(s)
    && forall p :: p in s.hist.passes ==> PassOk(p)
  }

  lemma ClosedKeeps(s: State)
    requires Ready(s) && (s.list.Some? ==> s.firingIndex >= s.firingLength)
    ensures Over(Closed(s))
  {
    ClosedOk(s);
  }

  lemma ShiftedReady(s: State)
    requires Over(s) && s.list.Some? && s.stack.Some? && s.stack.value != []
    ensures Ready(Opened(Shifted(s), s.stack.value[0]))
  {
    OpenedReady(Shifted(s), s.stack.value[0]);
  }

  lemma {:induction false} ProceedKeeps(s: State)
    requires Ready(s)
    ensures Inv(Proceed(s))
    decreases if s.stack.Some? then |s.stack.value| else 0, 1
  {
    if s.list.Some? && s.firingIndex < s.firingLength {
      CalledKeeps(s);
    } else {
      ClosedKeeps(s);
      FinishKeeps(Closed(s));
    }
  }

  lemma {:induction false} FinishKeeps(s: State)
    requires Over(s)
    ensures Inv(Finish(s))
    decreases if s.stack.Some? then |s.stack.value| else 0, 0
  {
    if s.list.Some? && s.stack.Some? && s.stack.value != [] {
      ShiftedReady(s);
      ProceedKeeps(Opened(Shifted(s), s.stack.value[0]));
    }
  }

  lemma FireKeeps(s: State, args: Args)
    requires s.list.Some? && Rising(s.list.value, 0, s.next) && s.firingStart <= |s.list.value|
    requires Queue(s) && (s.options.once ==> s.stack.None?) && forall p :: p in s.hist.passes ==> PassOk(p)
    requires Latest(s.(firing := true, args := args, memory := None))
    ensures Inv(Fire(s, args))
  {
    OpenedReady(s, args);
    ProceedKeeps(Opened(s, args));
  }

  lemma AddKeeps(s: State, fns: seq<Fn>)
    requires Inv(s)
    ensures Inv(AddStep(s, fns))
  {
    if s.list.Some? {
      PushedRises(s.list.value, fns, s.options.unique, s.next);
      var (l, next) := Pushed(s.list.value, fns, s.options.unique, s.next);
      var t := s.(list := Some(l), next := next);
      if s.firing {
        GrownPresent(s, l, next);
      } else if s.memory.Some? {
        FireKeeps(t.(firingStart := |s.list.value|), s.memory.value);
      }
    }
  }

  ghost predicate Grows(s: State, l: seq<Entry>, next: nat) {
    && Inv(s) && s.list.Some? && s.firing && s.list.value <= l && s.next <= next && Rising(l, 0, next)
    && forall k :: |s.list.value| <= k < |l| ==> l[k].serial > s.next
  }

  lemma GrownAhead(s: State, l: seq<Entry>, next: nat, e: Entry)
    requires Grows(s, l, next) && e in Ahead(Grown(s, l, next))
    ensures e.serial > s.hist.mark && e !in Grown(s, l, next).hist.skipped
  {
    var k :| Clip(s.firingIndex + 1, l) <= k < |l| && l[k] == e;
    if k < |s.list.value| { assert e in Ahead(s); }
  }

  lemma GrownBehind(s: State, l: seq<Entry>, next: nat, e: Entry)
    requires Grows(s, l, next) && e in Behind(Grown(s, l, next))
    ensures e.serial <= s.hist.start || e in s.hist.ran || e in Grown(s, l, next).hist.skipped
  {
    var k :| 0 <= k < Clip(s.firingIndex + 1, l) && l[k] == e;
    if k < |s.list.value| { assert e in Behind(s); }
  }

  lemma GrownPresent(s: State, l: seq<Entry>, next: nat)
    requires Grows(s, l, next)
    ensures Present(Grown(s, l, next))
  {
    var t := Grown(s, l, next);
    forall e | e in Ahead(t) ensures e.serial > t.hist.mark && e !in t.hist.skipped { GrownAhead(s, l, next, e); }
    forall e | e in Behind(t) ensures e.serial <= t.hist.start || e in t.hist.ran || e in t.hist.skipped {
      GrownBehind(s, l, next, e);
    }
  }

  lemma FireStepKeeps(s: State, args: Args)
    requires Inv(s)
    ensures Inv(FireStep(s, args))
  {
    if Accepts(s) && !s.firing {
      var t := s.(hist := s.hist.(accepted := s.hist.accepted + [args], fires := s.hist.fires + [args]));
      FireKeeps(t, args);
    } else if Accepts(s) && s.stack.Some? {
      assert s.hist.accepted + [args] == s.hist.fires + (s.stack.value + [args]);
    }
  }

  lemma ReturnKeeps(s: State)
    requires Inv(s) && s.firing
    ensures InRange(s.(firingIndex := s.firingIndex + 1)) && Inv(ReturnStep(s))
  {
    ProceedKeeps(s.(firingIndex := s.firingIndex + 1));
  }

  lemma DisableKeeps(s: State)
    requires Inv(s)
    ensures Inv(DisableStep(s))
  {}

  lemma EmptyKeeps(s: State)
    requires Inv(s)
    ensures Inv(EmptyStep(s))
  {}

  lemma LockKeeps(s: State)
    requires Inv(s)
    ensures Inv(LockStep(s))
  {}

  lemma SwitchesKeep(s: State)
    requires Inv(s)
    ensures Inv(DisableStep(s)) && Inv(LockStep(s)) && Inv(EmptyStep(s))
  {
    DisableKeeps(s);
    EmptyKeeps(s);
    LockKeeps(s);
  }
}
