/** jQuery's callback list: the object, its runs, and what a run promises. A callback may itself
    add, remove, fire, lock, disable or empty; the walk over the list is therefore cut at each
    call, and `Return` takes it up again. */
module Callbacks {
  import opened CallbackState
  import opened Wrappers

  /** After a push to a list that has fired with memory, the extra pass can start. */
  lemma LateReady(s: State, fns: seq<Fn>)
    requires Inv(s) && s.list.Some? && !s.firing && s.memory.Some?
    ensures var (l, next) := Pushed(s.list.value, fns, s.options.unique, s.next);
      Ready(Opened(s.(list := Some(l), next := next, firingStart := |s.list.value|), s.memory.value))
  {
    PushedRises(s.list.value, fns, s.options.unique, s.next);
    var (l, next) := Pushed(s.list.value, fns, s.options.unique, s.next);
    OpenedReady(s.(list := Some(l), next := next, firingStart := |s.list.value|), s.memory.value);
  }

  class CallbackList {
    const options: Options
    var list: Option<seq<Entry>>
    var firing: bool
    var memory: Option<Args>
    var fired: bool
    var firingLength: int
    var firingIndex: int
    var firingStart: nat
    var stack: Option<seq<Args>>
    var args: Args
    var next: nat
    ghost var hist: History

    ghost function View(): State
      reads this
    {
      State(options, list, firing, memory, fired, firingLength, firingIndex, firingStart, stack, args, next, hist)
    }

    constructor (options: Options)
      ensures View() == Fresh(options) && Inv(View())
    {
      this.options := options;
      list, stack := Some([]), if options.once then None else Some([]);
      firing, fired, memory, args, next := false, false, None, 0, 0;
      firingLength, firingIndex, firingStart := 0, 0, 0;
      hist := Fresh(options).hist;
    }

    /** Calls the callback at the index or, past the end, ends the pass. */
    method Proceed()
      requires Ready(View())
      modifies this
      ensures View() == CallbackState.Proceed(old(View())) && Inv(View())
      decreases if stack.Some? then |stack.value| else 0, 2
    {
      ProceedKeeps(View());
      if list.Some? && firingIndex < firingLength {
        hist := Called(View()).hist;
      } else {
        hist := Closed(View()).hist;
        firing := false;
        ClosedKeeps(old(View()));
        Finish();
      }
    }

    /** What follows a pass: the next queued fire, or the end of a list that fires only once. */
    method Finish()
      requires Over(View())
      modifies this
      ensures View() == CallbackState.Finish(old(View())) && Inv(View())
      decreases if stack.Some? then |stack.value| else 0, 1
    {
      FinishKeeps(View());
      if list.Some? {
        if stack.Some? {
          if stack.value != [] {
            ShiftedReady(View());
            var next := stack.value[0];
            hist := Shifted(View()).hist;
            stack := Some(stack.value[1..]);
            Fire(next);
          }
        } else if memory.Some? {
          list := Some([]);
        } else {
          Disable();
        }
      }
    }

    /** Starts a pass over the list from `firingStart` on. */
    method Fire(args: Args)
      requires list.Some? && Ready(Opened(View(), args))
      modifies this
      ensures View() == CallbackState.Fire(old(View()), args) && Inv(View())
      decreases if stack.Some? then |stack.value| else 0, 3
    {
      ghost var entered := Opened(View(), args);
      hist := entered.hist;
      memory := if options.memory then Some(args) else None;
      fired, this.args := true, args;
      firingIndex, firingStart := firingStart, 0;
      firingLength, firing := |list.value|, true;
      assert View() == entered;
      Proceed();
    }

    method Add(fns: seq<Fn>)
      requires Inv(View())
      modifies this
      ensures View() == AddStep(old(View()), fns) && Inv(View())
    {
      ghost var s := View();
      AddKeeps(s, fns);
      if list.Some? {
        var start := |list.value|;
        Push(fns);
        if firing {
          firingLength := |list.value|;
          hist := hist.(skipped := hist.skipped + Landed(firingIndex, start, list.value));
          assert View() == Grown(s, list.value, next);
        } else if memory.Some? {
          firingStart := start;
          LateReady(s, fns);
          Fire(memory.value);
        }
      }
    }

    /** Appends the functions, leaving out repeated ones when the list is `unique`. */
    method Push(fns: seq<Fn>)
      requires list.Some?
      modifies this`list, this`next
      ensures list.Some? && (list.value, next) == Pushed(old(list).value, fns, options.unique, old(next))
    {
      var i := 0;
      while i < |fns|
        invariant 0 <= i <= |fns| && list.Some?
        invariant Pushed(list.value, fns[i..], options.unique, next)
          == Pushed(old(list).value, fns, options.unique, old(next))
      {
        assert fns[i..][1..] == fns[i + 1..];
        var known := Contains(fns[i]);
        if !(options.unique && known) {
          list := Some(list.value + [Entry(fns[i], next + 1)]);
          next := next + 1;
        }
        i := i + 1;
      }
    }

    method Contains(fn: Fn) returns (found: bool)
      requires list.Some?
      ensures found <==> Has(list.value, fn)
    {
      var i := IndexFrom(fn, 0);
      found := i >= 0;
    }

    /** The first occurrence of `fn` at or after `from`, or -1. */
    method IndexFrom(fn: Fn, from: nat) returns (index: int)
      requires list.Some? && from <= |list.value|
      ensures -1 <= index < |list.value|
      ensures index >= 0 ==> from <= index && list.value[index].fn == fn
      ensures forall k :: from <= k < (if index >= 0 then index else |list.value|) ==> list.value[k].fn != fn
    {
      index := from;
      while index < |list.value|
        invariant from <= index <= |list.value|
        invariant forall k :: from <= k < index ==> list.value[k].fn != fn
      {
        if list.value[index].fn == fn { return; }
        index := index + 1;
      }
      index := -1;
    }

    method Splice(d: nat)
      requires list.Some? && d < |list.value|
      modifies this`list, this`firingLength, this`firingIndex
      ensures View() == Spliced(old(View()), d)
    {
      list := Some(list.value[..d] + list.value[d + 1..]);
      if firing {
        if firingLength >= d { firingLength := firingLength - 1; }
        if firingIndex >= d { firingIndex := firingIndex - 1; }
      }
    }

    /** Splices every occurrence of `fn` out of the list. */
    method RemoveAll(fn: Fn)
      requires Walkable(View())
      modifies this`list, this`firingLength, this`firingIndex
      ensures View() == RemoveOne(old(View()), fn)
    {
      var d := IndexFrom(fn, 0);
      while d >= 0
        invariant Walkable(View()) && FirstAt(list.value, fn, d)
        invariant RemoveOne(View(), fn) == RemoveOne(old(View()), fn)
        decreases if list.Some? then |list.value| else 0, d
      {
        SplicedRemoves(View(), d, fn);
        Splice(d);
        d := IndexFrom(fn, d);
      }
      NothingToRemove(View(), fn);
    }

    method Remove(fns: seq<Fn>)
      requires Inv(View())
      modifies this`list, this`firingLength, this`firingIndex
      ensures View() == RemoveStep(old(View()), fns) && Inv(View())
    {
      RemoveKeeps(View(), fns);
      if list.Some? {
        var i := 0;
        while i < |fns|
          invariant 0 <= i <= |fns| && list.Some? && Inv(View())
          invariant RemoveStep(View(), fns[i..]) == RemoveStep(old(View()), fns)
        {
          assert fns[i..][1..] == fns[i + 1..];
          RemoveOneKeeps(View(), fns[i]);
          RemoveAll(fns[i]);
          i := i + 1;
        }
      }
    }

    method Disable()
      modifies this`list, this`stack, this`memory
      ensures View() == DisableStep(old(View()))
    {
      list, stack, memory := None, None, None;
    }

    method Lock()
      modifies this`list, this`stack, this`memory
      ensures View() == LockStep(old(View()))
    {
      stack := None;
      if memory.None? { Disable(); }
    }

    method Empty()
      modifies this`list, this`firingLength, this`hist
      ensures View() == EmptyStep(old(View()))
    {
      list, firingLength := Some([]), 0;
      hist := hist.(emptied := true);
    }

    method FireWith(args: Args)
      requires Inv(View())
      modifies this
      ensures View() == FireStep(old(View()), args) && Inv(View())
    {
      FireStepKeeps(View(), args);
      if list.Some? && (!fired || stack.Some?) {
        hist := hist.(accepted := hist.accepted + [args]);
        if firing {
          if stack.Some? { stack := Some(stack.value + [args]); }
        } else {
          hist := hist.(fires := hist.fires + [args]);
          OpenedReady(View(), args);
          Fire(args);
        }
      }
    }

    /** The callback that is running returns, and the walk goes on. */
    method Return()
      requires Inv(View()) && firing
      modifies this
      ensures View() == ReturnStep(old(View())) && Inv(View())
    {
      ReturnKeeps(View());
      firingIndex := firingIndex + 1;
      Proceed();
    }
  }

  // ---- Runs -----------------------------------------------------------------------------

  /** What can happen to a list, from outside or from the callback that is running. */
  datatype Op =
    | Add(fns: seq<Fn>) | Remove(fns: seq<Fn>) | FireWith(args: Args)
    | Disable | Lock | Empty | Return

  function Apply(s: State, op: Op): State
    requires s.firing ==> InRange(s.(firingIndex := s.firingIndex + 1))
  {
    match op
    case Add(fns) => AddStep(s, fns)
    case Remove(fns) => RemoveStep(s, fns)
    case FireWith(args) => FireStep(s, args)
    case Disable => DisableStep(s)
    case Lock => LockStep(s)
    case Empty => EmptyStep(s)
    case Return => if s.firing then ReturnStep(s) else s
  }

  lemma ApplyKeeps(s: State, op: Op)
    requires Inv(s)
    ensures (s.firing ==> InRange(s.(firingIndex := s.firingIndex + 1))) && Inv(Apply(s, op))
  {
    match op
    case Add(fns) => AddKeeps(s, fns);
    case Remove(fns) => RemoveKeeps(s, fns);
    case FireWith(args) => FireStepKeeps(s, args);
    case Disable => SwitchesKeep(s);
    case Lock => SwitchesKeep(s);
    case Empty => SwitchesKeep(s);
    case Return => if s.firing { ReturnKeeps(s); }
  }

  /** The list after any sequence of operations. */
  function Run(options: Options, ops: seq<Op>): (s: State)
    ensures Inv(s)
  {
    if ops == [] then Fresh(options)
    else
      var s := Run(options, ops[..|ops| - 1]);
      ApplyKeeps(s, ops[|ops| - 1]);
      Apply(s, ops[|ops| - 1])
  }

  /** While a pass goes on, its length is the list's, until the list is disabled. */
  lemma LengthFollowsList(options: Options, ops: seq<Op>)
    ensures var s := Run(options, ops); s.firing && s.list.Some? ==> s.firingLength == |s.list.value|
  {
    assert Inv(Run(options, ops));
  }

  /** A pass runs nothing twice, and of the callbacks it leaves in the list and did not start
      behind, it has run exactly those that were not added where it had already gone past. */
  lemma PassesRunEachOnce(options: Options, ops: seq<Op>, p: Pass, e: Entry)
    requires p in Run(options, ops).hist.passes
    ensures multiset(p.ran)[e] <= 1
    ensures e in p.left && e.serial > p.start ==> multiset(p.ran)[e] == if e in p.skipped then 0 else 1
    ensures e in p.skipped ==> p.emptied && e !in p.ran
  {
    assert PassOk(p);
    OnceInRising(p.ran, p.start, e);
  }

  lemma OnceInRising(l: seq<Entry>, low: nat, e: Entry)
    requires exists high: nat :: Rising(l, low, high)
    ensures multiset(l)[e] == if e in l then 1 else 0
  {
    if e in l {
      var k :| 0 <= k < |l| && l[k] == e;
      assert e !in l[..k] && e !in l[k + 1..];
      assert l == l[..k] + [e] + l[k + 1..];
    }
  }

  /** Fires begin in the order they were accepted, none is lost while the list can queue, and
      a pass has the arguments of one of them. */
  lemma FiresInOrder(options: Options, ops: seq<Op>)
    ensures var s := Run(options, ops);
      && s.hist.fires <= s.hist.accepted
      && (s.stack.Some? && !s.firing ==> s.hist.fires == s.hist.accepted)
      && (s.stack.Some? ==> s.hist.accepted == s.hist.fires + s.stack.value)
      && forall p :: p in s.hist.passes ==> p.args in s.hist.accepted
  {
    var s := Run(options, ops);
    assert Queue(s) && Latest(s);
  }

  /** During a pass, an addition is skipped exactly if it lands at or before the index; so nothing
      is skipped unless the list has become too short, which takes an `empty`. */
  lemma AdditionsSkipped(s: State, fns: seq<Fn>)
    requires Inv(s) && s.firing && s.list.Some?
    ensures var t, n := AddStep(s, fns), |s.list.value|;
      && t.list.Some? && s.list.value <= t.list.value && s.hist.skipped <= t.hist.skipped
         && t.firingIndex == s.firingIndex
      && (forall k :: n <= k < |t.list.value| ==> (t.list.value[k] in t.hist.skipped <==> k <= s.firingIndex))
      && (forall e :: e in t.hist.skipped - s.hist.skipped ==> e in t.list.value[n..])
      && (t.hist.skipped == s.hist.skipped <==> s.firingIndex < n || t.list == s.list)
  {
    var l := s.list.value;
    PushedRises(l, fns, s.options.unique, s.next);
    var m := Pushed(l, fns, s.options.unique, s.next).0;
    var landed := Landed(s.firingIndex, |l|, m);
    forall k | |l| <= k < |m| ensures m[k] in s.hist.skipped + landed <==> k <= s.firingIndex {
      assert m[k].serial > s.next;
      if m[k] in landed { var j :| |l| <= j < |m| && j <= s.firingIndex && m[j] == m[k]; }
    }
    forall e | e in landed ensures e in m[|l|..] { var j :| |l| <= j < |m| && j <= s.firingIndex && m[j] == e; }
    if s.firingIndex >= |l| && m != l { assert m[|l|] in landed && m[|l|].serial > s.next; }
  }

  /** Whatever a callback does, and when it returns within the pass, what the pass has gone past
      stays behind it or leaves the list. */
  lemma BehindStays(s: State, op: Op, e: Entry)
    requires Inv(s) && s.firing && s.list.Some? && e in Behind(s)
    ensures InRange(s.(firingIndex := s.firingIndex + 1))
    ensures var t := Apply(s, op);
      t.firing && |t.hist.passes| == |s.hist.passes| && t.list.Some? && e in t.list.value ==> e in Behind(t)
  {
    ApplyKeeps(s, op);
    var t := Apply(s, op);
    match op
    case Add(fns) => BehindAdded(s, fns, e);
    case Remove(fns) => BehindRemoved(s, fns, e);
    case Return => BehindReturned(s, e);
    case _ =>
  }

  lemma BehindAdded(s: State, fns: seq<Fn>, e: Entry)
    requires Inv(s) && s.firing && s.list.Some? && e in Behind(s)
    ensures var t := AddStep(s, fns); t.list.Some? && e in Behind(t)
  {
    PushedRises(s.list.value, fns, s.options.unique, s.next);
  }

  lemma BehindReturned(s: State, e: Entry)
    requires Inv(s) && s.firing && s.list.Some? && e in Behind(s) && InRange(s.(firingIndex := s.firingIndex + 1))
    ensures var t := ReturnStep(s);
      |t.hist.passes| == |s.hist.passes| ==> t.list.Some? && (e in t.list.value ==> e in Behind(t))
  {
    if s.firingIndex + 1 >= s.firingLength { PassEnds(s.(firingIndex := s.firingIndex + 1)); }
  }

  lemma {:induction false} BehindRemoved(s: State, fns: seq<Fn>, e: Entry)
    requires Inv(s) && s.firing && s.list.Some? && e in Behind(s)
    ensures var t := RemoveStep(s, fns); t.list.Some? && (e in t.list.value ==> e in Behind(t))
    decreases |fns|
  {
    if fns != [] {
      BehindOne(s, fns[0], e);
      var t := RemoveOne(s, fns[0]);
      if e in Behind(t) { BehindRemoved(t, fns[1..], e); } else { StaysGone(t, fns[1..], e); }
    }
  }

  lemma BehindOne(s: State, fn: Fn, e: Entry)
    requires Inv(s) && s.firing && s.list.Some? && e in Behind(s)
    ensures var t := RemoveOne(s, fn); Inv(t) && t.firing && t.list.Some? && (e in t.list.value ==> e in Behind(t))
  {
    RemoveOneKeeps(s, fn);
    RemoveOneSplits(s, fn);
    WithoutMember(s.list.value, fn, e);
    WithoutMember(Behind(s), fn, e);
  }

  lemma {:induction false} WithoutMember(l: seq<Entry>, fn: Fn, e: Entry)
    ensures e in Without(l, fn) <==> e in l && e.fn != fn
  {
    if l != [] {
      WithoutMember(l[1..], fn, e);
      assert l == [l[0]] + l[1..];
    }
  }

  lemma {:induction false} StaysGone(s: State, fns: seq<Fn>, e: Entry)
    requires Inv(s) && s.firing && s.list.Some? && e !in s.list.value
    ensures var t := RemoveStep(s, fns); t.list.Some? && e !in t.list.value
    decreases |fns|
  {
    if fns != [] {
      RemoveOneKeeps(s, fns[0]);
      WithoutSome(s.list.value, fns[0], 0, s.next);
      StaysGone(RemoveOne(s, fns[0]), fns[1..], e);
    }
  }

  /** Past the end of the list the pass is entered in the history. */
  lemma {:induction false} PassEnds(s: State)
    requires InRange(s) && (s.list.Some? ==> s.firingIndex >= s.firingLength)
    ensures |Proceed(s).hist.passes| > |s.hist.passes|
    decreases if s.stack.Some? then |s.stack.value| else 0
  {
    var c := Closed(s);
    if c.list.Some? && c.stack.Some? && c.stack.value != [] {
      var o := Opened(Shifted(c), c.stack.value[0]);
      if o.firingIndex >= o.firingLength { PassEnds(o); }
    }
  }

  lemma RunOn(options: Options, ops: seq<Op>, op: Op)
    ensures var s := Run(options, ops);
      (s.firing ==> InRange(s.(firingIndex := s.firingIndex + 1))) && Run(options, ops + [op]) == Apply(s, op)
  {
    assert (ops + [op])[..|ops|] == ops;
    ApplyKeeps(Run(options, ops), op);
  }

  lemma PushOne(fn: Fn, next: nat)
    ensures Pushed([], [fn], false, next) == ([Entry(fn, next + 1)], next + 1)
  {
    assert [fn][1..] == [] && [] + [Entry(fn, next + 1)] == [Entry(fn, next + 1)];
  }

  /** A run in which a surviving callback is skipped. */
  lemma SkippedExample()
    ensures
      var f, g := User(1), User(2);
      var s := Run(Options(false, false, false), [Add([f]), FireWith(0)] + [Empty] + [Add([g])] + [Return]);
      s.hist.passes == [Pass(0, 0, [Entry(f, 1)], [Entry(g, 2)], true, {Entry(g, 2)})]
  {
    var f, g, o := User(1), User(2), Options(false, false, false);
    SkippedMiddle(f, g);
    RunOn(o, [Add([f]), FireWith(0)] + [Empty] + [Add([g])], Return);
    var s := Run(o, [Add([f]), FireWith(0)] + [Empty] + [Add([g])]);
    assert ReturnStep(s) == Finish(Closed(s.(firingIndex := 1)));
  }

  lemma SkippedMiddle(f: Fn, g: Fn)
    ensures var s := Run(Options(false, false, false), [Add([f]), FireWith(0)] + [Empty] + [Add([g])]);
      && s.list == Some([Entry(g, 2)]) && s.firing && s.firingIndex == 0 && s.firingLength == 1 && s.stack == Some([])
      && s.hist.passes == [] && s.hist.start == 0 && s.hist.ran == [Entry(f, 1)] && s.args == 0
      && s.hist.emptied && s.hist.skipped == {Entry(g, 2)}
  {
    var o, ops := Options(false, false, false), [Add([f]), FireWith(0)];
    SkippedEmptied(f);
    LandsBehind(Run(o, ops + [Empty]), g);
    RunOn(o, ops + [Empty], Add([g]));
  }

  lemma SkippedEmptied(f: Fn)
    ensures var s := Run(Options(false, false, false), [Add([f]), FireWith(0)] + [Empty]);
      && s.list == Some([]) && s.firing && s.firingIndex == 0 && s.next == 1 && s.stack == Some([]) && s.args == 0
      && s.options == Options(false, false, false)
      && s.hist.passes == [] && s.hist.start == 0 && s.hist.ran == [Entry(f, 1)]
      && s.hist.emptied && s.hist.skipped == {}
  {
    SkippedStart(f);
    RunOn(Options(false, false, false), [Add([f]), FireWith(0)], Empty);
  }

  lemma LandsBehind(s: State, g: Fn)
    requires s.list == Some([]) && s.firing && s.firingIndex == 0 && s.next == 1 && !s.options.unique
    ensures AddStep(s, [g]) == s.(list := Some([Entry(g, 2)]), firingLength := 1, next := 2,
                                  hist := s.hist.(skipped := s.hist.skipped + {Entry(g, 2)}))
  {
    PushOne(g, 1);
    var l := [Entry(g, 2)];
    assert l[0] in Landed(0, 0, l);
    assert Landed(0, 0, l) == {Entry(g, 2)};
  }

  lemma SkippedStart(f: Fn)
    ensures var s := Run(Options(false, false, false), [Add([f]), FireWith(0)]);
      && s.list == Some([Entry(f, 1)]) && s.firing && s.firingIndex == 0 && s.stack == Some([]) && s.args == 0
      && s.hist.ran == [Entry(f, 1)] && s.hist.start == 0 && s.hist.passes == [] && s.next == 1 && s.hist.skipped == {}
      && !s.options.unique
      && s.options == Options(false, false, false) && s.firingStart == 0
  {
    var o := Options(false, false, false);
    PushOne(f, 0);
    RunOn(o, [], Add([f]));
    assert [] + [Add([f])] == [Add([f])];
    RunOn(o, [Add([f])], FireWith(0));
    assert [Add([f])] + [FireWith(0)] == [Add([f]), FireWith(0)];
  }
}
