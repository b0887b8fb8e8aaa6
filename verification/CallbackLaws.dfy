/** What a callback list holds, which fires it accepts, and which callback it calls next, in terms of
    the operations alone. */
module CallbackLaws {
  import opened CallbackState
  import opened Callbacks
  import opened Wrappers

  // ---- What the list holds -------------------------------------------------------------------

  function Fns(l: seq<Entry>): seq<Fn> { seq(|l|, i requires 0 <= i < |l| => l[i].fn) }

  function Appended(l: seq<Fn>, fns: seq<Fn>, unique: bool): seq<Fn>
    decreases |fns|
  {
    if fns == [] then l
    else if unique && fns[0] in l then Appended(l, fns[1..], unique)
    else Appended(l + [fns[0]], fns[1..], unique)
  }

  /** The functions that are not among `gone`, in order. */
  function Kept(l: seq<Fn>, gone: seq<Fn>): seq<Fn>
    decreases |l|
  {
    if l == [] then [] else (if l[0] in gone then [] else [l[0]]) + Kept(l[1..], gone)
  }

  /** The functions of a list after these operations, as long as it is not locked or disabled. */
  function Content(unique: bool, ops: seq<Op>): seq<Fn> {
    if ops == [] then []
    else
      var before := Content(unique, ops[..|ops| - 1]);
      match ops[|ops| - 1]
      case Add(fns) => Appended(before, fns, unique)
      case Remove(fns) => Kept(before, fns)
      case Empty => []
      case _ => before
  }

  predicate Switches(op: Op) { op.Lock? || op.Disable? }

  /** Nothing has locked or disabled the list, and if it fires only once it has not fired. */
  ghost predicate Steady(options: Options, ops: seq<Op>) {
    forall op :: op in ops ==> !Switches(op) && (options.once ==> !op.FireWith?)
  }

  lemma {:induction false} PushedFns(l: seq<Entry>, fns: seq<Fn>, unique: bool, next: nat)
    ensures Fns(Pushed(l, fns, unique, next).0) == Appended(Fns(l), fns, unique)
    decreases |fns|
  {
    if fns != [] {
      HasMeans(l, fns[0]);
      if unique && Has(l, fns[0]) {
        PushedFns(l, fns[1..], unique, next);
      } else {
        var e := Entry(fns[0], next + 1);
        PushedFns(l + [e], fns[1..], unique, next + 1);
        assert Fns(l + [e]) == Fns(l) + [fns[0]];
      }
    }
  }

  lemma HasMeans(l: seq<Entry>, fn: Fn)
    ensures Has(l, fn) <==> fn in Fns(l)
  {
    if k :| 0 <= k < |l| && l[k].fn == fn { assert Fns(l)[k] == fn; }
  }

  lemma {:induction false} WithoutFns(l: seq<Entry>, fn: Fn)
    ensures Fns(Without(l, fn)) == Kept(Fns(l), [fn])
    decreases |l|
  {
    if l != [] {
      WithoutFns(l[1..], fn);
      assert Fns(l)[1..] == Fns(l[1..]);
      if l[0].fn != fn { assert Fns([l[0]] + Without(l[1..], fn)) == [l[0].fn] + Fns(Without(l[1..], fn)); }
    }
  }

  lemma {:induction false} KeptTwice(l: seq<Fn>, fns: seq<Fn>)
    requires fns != []
    ensures Kept(Kept(l, [fns[0]]), fns[1..]) == Kept(l, fns)
    decreases |l|
  {
    if l != [] {
      KeptTwice(l[1..], fns);
      assert l[0] in fns <==> l[0] == fns[0] || l[0] in fns[1..];
      var rest := Kept(l[1..], [fns[0]]);
      if l[0] == fns[0] {
        assert Kept(l, [fns[0]]) == [] + rest == rest;
      } else {
        assert ([l[0]] + rest)[1..] == rest;
      }
    }
  }

  lemma {:induction false} KeptAll(l: seq<Fn>)
    ensures Kept(l, []) == l
    decreases |l|
  {
    if l != [] {
      KeptAll(l[1..]);
      assert l == [l[0]] + l[1..];
    }
  }

  /** What `remove` leaves is what it was not told to remove, in order; the same holds of what the
      pass has still ahead. */
  lemma {:induction false} RemoveLeaves(s: State, fns: seq<Fn>)
    requires Inv(s) && s.list.Some?
    ensures var t := RemoveStep(s, fns);
      t.list.Some? && t.options == s.options && t.stack == s.stack && Fns(t.list.value) == Kept(Fns(s.list.value), fns)
    ensures var t := RemoveStep(s, fns);
      s.firing && t.list.Some? ==> t.firing && Fns(Ahead(t)) == Kept(Fns(Ahead(s)), fns)
    decreases |fns|
  {
    KeptAll(Fns(s.list.value));
    if s.firing { KeptAll(Fns(Ahead(s))); }
    if fns != [] {
      RemoveOneKeeps(s, fns[0]);
      RemoveLeaves(RemoveOne(s, fns[0]), fns[1..]);
      WithoutFns(s.list.value, fns[0]);
      KeptTwice(Fns(s.list.value), fns);
      if s.firing {
        RemoveOneSplits(s, fns[0]);
        WithoutFns(Ahead(s), fns[0]);
        KeptTwice(Fns(Ahead(s)), fns);
      }
    }
  }

  /** The walk and its end leave the list of a list that can queue as it is. */
  lemma {:induction false} ProceedHolds(s: State)
    requires InRange(s) && s.list.Some? && s.stack.Some?
    ensures Proceed(s).list == s.list && Proceed(s).stack.Some? && Proceed(s).options == s.options
    decreases if s.stack.Some? then |s.stack.value| else 0
  {
    if s.firingIndex >= s.firingLength && s.stack.value != [] {
      ProceedHolds(Opened(Shifted(Closed(s)), s.stack.value[0]));
    }
  }

  /** What holds while the list is steady. */
  ghost predicate Holds(options: Options, ops: seq<Op>, s: State) {
    && s.options == options && s.list.Some? && Fns(s.list.value) == Content(options.unique, ops)
    && (options.once ==> !s.firing && s.memory.None?) && (!options.once ==> s.stack.Some?)
  }

  lemma AddHolds(options: Options, ops: seq<Op>, s: State, fns: seq<Fn>)
    requires Inv(s) && Holds(options, ops, s)
    ensures Holds(options, ops + [Add(fns)], AddStep(s, fns))
  {
    assert (ops + [Add(fns)])[..|ops|] == ops;
    PushedFns(s.list.value, fns, options.unique, s.next);
    if !s.firing && s.memory.Some? {
      LateReady(s, fns);
      var (l, next) := Pushed(s.list.value, fns, s.options.unique, s.next);
      ProceedHolds(Opened(s.(list := Some(l), next := next, firingStart := |s.list.value|), s.memory.value));
    }
  }

  lemma RemoveHolds(options: Options, ops: seq<Op>, s: State, fns: seq<Fn>)
    requires Inv(s) && Holds(options, ops, s)
    ensures Holds(options, ops + [Remove(fns)], RemoveStep(s, fns))
  {
    assert (ops + [Remove(fns)])[..|ops|] == ops;
    RemoveLeaves(s, fns);
    RemoveSwitches(s, fns);
  }

  lemma {:induction false} RemoveSwitches(s: State, fns: seq<Fn>)
    ensures var t := RemoveStep(s, fns);
      t.firing == s.firing && t.memory == s.memory && t.stack == s.stack && t.fired == s.fired && t.options == s.options
      && t.hist == s.hist && t.list.Some? == s.list.Some?
    decreases |fns|
  {
    if s.list.Some? && fns != [] { RemoveSwitches(RemoveOne(s, fns[0]), fns[1..]); }
  }

  lemma WalkHolds(options: Options, ops: seq<Op>, s: State, op: Op)
    requires Inv(s) && Holds(options, ops, s) && !options.once && (op.FireWith? || op.Return?)
    ensures (s.firing ==> InRange(s.(firingIndex := s.firingIndex + 1))) && Holds(options, ops + [op], Apply(s, op))
  {
    assert (ops + [op])[..|ops|] == ops;
    ApplyKeeps(s, op);
    if op.FireWith? && !s.firing {
      var t := s.(hist := s.hist.(accepted := s.hist.accepted + [op.args], fires := s.hist.fires + [op.args]));
      ProceedHolds(Opened(t, op.args));
    } else if op.Return? && s.firing {
      ProceedHolds(s.(firingIndex := s.firingIndex + 1));
    }
  }

  lemma HoldsOn(options: Options, ops: seq<Op>, s: State, op: Op)
    requires Inv(s) && Holds(options, ops, s) && !Switches(op) && (options.once ==> !op.FireWith?)
    ensures (s.firing ==> InRange(s.(firingIndex := s.firingIndex + 1))) && Holds(options, ops + [op], Apply(s, op))
  {
    assert (ops + [op])[..|ops|] == ops;
    ApplyKeeps(s, op);
    match op
    case Add(fns) => AddHolds(options, ops, s, fns);
    case Remove(fns) => RemoveHolds(options, ops, s, fns);
    case FireWith(_) => WalkHolds(options, ops, s, op);
    case Return => if !options.once { WalkHolds(options, ops, s, op); }
    case Empty => assert Fns([]) == [];
  }

  /** In every run the list holds what was added and not removed since, in the order added, once
      each if it is a `unique` list. */
  lemma {:induction false} HoldsContent(options: Options, ops: seq<Op>)
    requires Steady(options, ops)
    ensures var s := Run(options, ops); s.list.Some? && Fns(s.list.value) == Content(options.unique, ops)
    ensures Holds(options, ops, Run(options, ops))
  {
    if ops == [] {
      assert Fns([]) == [];
    } else {
      var n := |ops| - 1;
      assert ops == ops[..n] + [ops[n]] && ops[n] in ops && forall op :: op in ops[..n] ==> op in ops;
      HoldsContent(options, ops[..n]);
      HoldsOn(options, ops[..n], Run(options, ops[..n]), ops[n]);
    }
  }

  predicate NoRepeats(l: seq<Fn>) { forall i, j :: 0 <= i < j < |l| ==> l[i] != l[j] }

  lemma {:induction false} AppendedOnce(l: seq<Fn>, fns: seq<Fn>)
    requires NoRepeats(l)
    ensures NoRepeats(Appended(l, fns, true)) && forall f :: f in Appended(l, fns, true) <==> f in l || f in fns
    decreases |fns|
  {
    if fns != [] {
      if fns[0] in l { AppendedOnce(l, fns[1..]); } else { AppendedOnce(l + [fns[0]], fns[1..]); }
      assert fns == [fns[0]] + fns[1..];
    }
  }

  lemma {:induction false} KeptOnce(l: seq<Fn>, gone: seq<Fn>)
    ensures NoRepeats(l) ==> NoRepeats(Kept(l, gone))
    ensures forall f :: f in Kept(l, gone) <==> f in l && f !in gone
    decreases |l|
  {
    if l != [] {
      KeptOnce(l[1..], gone);
      if NoRepeats(l) {
        forall i | 0 <= i < |l[1..]| ensures l[1..][i] != l[0] {}
        assert forall i, j :: 0 <= i < j < |l[1..]| ==> l[1..][i] != l[1..][j] by {
          forall i, j | 0 <= i < j < |l[1..]| ensures l[1..][i] != l[1..][j] { assert l[i + 1] != l[j + 1]; }
        }
      }
      assert l == [l[0]] + l[1..];
    }
  }

  /** A `unique` list never holds a function twice. */
  lemma {:induction false} UniqueHolds(ops: seq<Op>)
    ensures NoRepeats(Content(true, ops))
  {
    if ops != [] {
      UniqueHolds(ops[..|ops| - 1]);
      match ops[|ops| - 1]
      case Add(fns) => AppendedOnce(Content(true, ops[..|ops| - 1]), fns);
      case Remove(fns) => KeptOnce(Content(true, ops[..|ops| - 1]), fns);
      case _ =>
    }
  }

  // ---- Which fires are accepted ---------------------------------------------------------------

  ghost predicate Shut(ops: seq<Op>) { exists op :: op in ops && Switches(op) }

  /** The last operation to lock, disable or empty the list emptied it, if there was any: `empty`
      gives a disabled list its life back. */
  function Alive(ops: seq<Op>): bool {
    if ops == [] then true
    else
      var op := ops[|ops| - 1];
      op.Empty? || (!Switches(op) && Alive(ops[..|ops| - 1]))
  }

  /** The fires accepted: all until the list is first locked or disabled, unless it fires only once;
      and the very first one as long as the list is alive. */
  ghost function Taken(once: bool, ops: seq<Op>): seq<Args> {
    if ops == [] then []
    else
      var before, op := ops[..|ops| - 1], ops[|ops| - 1];
      var taken := Taken(once, before);
      if op.FireWith? && ((!once && !Shut(before)) || (taken == [] && Alive(before))) then taken + [op.args] else taken
  }

  /** What the walk and its end keep. */
  ghost predicate Walked(s: State, t: State) {
    && t.options == s.options && t.hist.accepted == s.hist.accepted && t.fired == s.fired
    && (s.stack.None? ==> t.stack.None?) && (s.list.None? ==> t.list.None?)
    && (s.list.Some? && s.stack.Some? ==> t.list.Some? && t.stack.Some?)
  }

  lemma {:induction false} ProceedWalks(s: State)
    requires InRange(s) && s.fired
    ensures Walked(s, Proceed(s))
    decreases if s.stack.Some? then |s.stack.value| else 0
  {
    var c := Closed(s);
    if (s.list.None? || s.firingIndex >= s.firingLength) && s.list.Some? && s.stack.Some? && s.stack.value != [] {
      ProceedWalks(Opened(Shifted(c), s.stack.value[0]));
    }
  }

  ghost predicate TakenOk(options: Options, ops: seq<Op>, s: State) {
    && s.options == options && s.hist.accepted == Taken(options.once, ops)
    && (s.stack.Some? <==> !options.once && !Shut(ops)) && (s.stack.Some? ==> s.list.Some?)
    && (s.fired <==> s.hist.accepted != []) && (!s.fired ==> !s.firing && (s.list.Some? <==> Alive(ops)))
  }

  lemma ShutOn(ops: seq<Op>, op: Op)
    ensures Shut(ops + [op]) <==> Shut(ops) || Switches(op)
    ensures Alive(ops + [op]) <==> op.Empty? || (!Switches(op) && Alive(ops))
    ensures !op.FireWith? ==> forall once :: Taken(once, ops + [op]) == Taken(once, ops)
  {
    var all := ops + [op];
    assert all[..|ops|] == ops && op in all;
    if o :| o in ops && Switches(o) { assert o in all; }
  }

  lemma FireTaken(options: Options, ops: seq<Op>, s: State, args: Args)
    requires Inv(s) && TakenOk(options, ops, s)
    ensures TakenOk(options, ops + [FireWith(args)], FireStep(s, args))
  {
    ShutOn(ops, FireWith(args));
    assert (ops + [FireWith(args)])[..|ops|] == ops;
    if Accepts(s) && !s.firing {
      var t := s.(hist := s.hist.(accepted := s.hist.accepted + [args], fires := s.hist.fires + [args]));
      ProceedWalks(Opened(t, args));
    }
  }

  lemma OtherTaken(options: Options, ops: seq<Op>, s: State, op: Op)
    requires Inv(s) && TakenOk(options, ops, s) && (op.Add? || op.Remove? || op.Return? || op.Empty?)
    ensures (s.firing ==> InRange(s.(firingIndex := s.firingIndex + 1))) && TakenOk(options, ops + [op], Apply(s, op))
  {
    ShutOn(ops, op);
    ApplyKeeps(s, op);
    match op
    case Add(fns) =>
      if s.list.Some? && !s.firing && s.memory.Some? {
        LateReady(s, fns);
        var (l, next) := Pushed(s.list.value, fns, s.options.unique, s.next);
        ProceedWalks(Opened(s.(list := Some(l), next := next, firingStart := |s.list.value|), s.memory.value));
      }
    case Remove(fns) => RemoveSwitches(s, fns);
    case Return => if s.firing { ProceedWalks(s.(firingIndex := s.firingIndex + 1)); }
    case Empty =>
  }

  lemma SwitchTaken(options: Options, ops: seq<Op>, s: State, op: Op)
    requires Inv(s) && TakenOk(options, ops, s) && Switches(op)
    ensures (s.firing ==> InRange(s.(firingIndex := s.firingIndex + 1))) && TakenOk(options, ops + [op], Apply(s, op))
  {
    ShutOn(ops, op);
    ApplyKeeps(s, op);
  }

  lemma {:induction false} TakenHolds(options: Options, ops: seq<Op>)
    ensures TakenOk(options, ops, Run(options, ops))
  {
    if ops != [] {
      var n := |ops| - 1;
      var before, op := ops[..n], ops[n];
      TakenHolds(options, before);
      RunOn(options, before, op);
      assert before + [op] == ops;
      var s := Run(options, before);
      if op.FireWith? { FireTaken(options, before, s, op.args); }
      else if Switches(op) { SwitchTaken(options, before, s, op); }
      else { OtherTaken(options, before, s, op); }
    }
  }

  /** In every run exactly those fires are accepted. */
  lemma AcceptsUntilShut(options: Options, ops: seq<Op>)
    ensures Run(options, ops).hist.accepted == Taken(options.once, ops)
  {
    TakenHolds(options, ops);
  }

  // ---- Which callback is called ------------------------------------------------------------------

  /** The callback at position `k` of the list is being called with `args`. */
  ghost predicate Calling(s: State, k: nat, args: Args) {
    && s.firing && s.list.Some? && k < |s.list.value| && s.firingIndex == k && s.args == args
    && s.hist.ran != [] && s.hist.ran[|s.hist.ran| - 1] == s.list.value[k]
  }

  /** An accepted fire calls the first callback if none is running, and otherwise waits without
      disturbing the pass under way. */
  lemma FireCallsFirst(s: State, args: Args)
    requires Inv(s) && Accepts(s)
    ensures var t := FireStep(s, args);
      && (!s.firing && s.list.value != [] ==> Calling(t, 0, args) && t.list == s.list && t.hist.start == 0)
      && (!s.firing && s.list.value == [] ==> !t.firing)
      && (s.firing ==>
           && s.stack.Some?
           && t == s.(stack := Some(s.stack.value + [args]), hist := s.hist.(accepted := s.hist.accepted + [args])))
  {
    if !s.firing {
      var t := s.(hist := s.hist.(accepted := s.hist.accepted + [args], fires := s.hist.fires + [args]));
      OpensAtFront(t, args);
    }
  }

  /** A pass that begins calls the first callback, or ends at once. */
  lemma OpensAtFront(s: State, args: Args)
    requires s.list.Some? && s.firingStart == 0
    ensures s.list.value != [] ==>
      Calling(Fire(s, args), 0, args) && Fire(s, args).list == s.list && Fire(s, args).hist.start == 0
      && Fire(s, args).stack == s.stack && Fire(s, args).hist.passes == s.hist.passes
    ensures s.list.value == [] && (s.stack.None? || s.stack.value == []) ==> !Fire(s, args).firing
  {
    var o := Opened(s, args);
    assert o.firingIndex == 0 && o.firingLength == |s.list.value|;
    if s.list.value == [] { assert Proceed(o) == Finish(Closed(o)); }
  }

  /** A callback that returns is followed by the next one; after the last the pass ends, and the
      fire that has waited longest calls the first callback again. */
  lemma ReturnCallsNext(s: State)
    requires Inv(s) && s.firing && s.list.Some?
    ensures InRange(s.(firingIndex := s.firingIndex + 1))
    ensures var t, k := ReturnStep(s), s.firingIndex + 1;
      && (k < |s.list.value| ==> Calling(t, k, s.args) && t.list == s.list && t.hist.passes == s.hist.passes)
      && (k >= |s.list.value| && s.stack.Some? && s.stack.value != [] && s.list.value != [] ==>
           Calling(t, 0, s.stack.value[0]) && t.list == s.list && t.stack == Some(s.stack.value[1..])
           && |t.hist.passes| == |s.hist.passes| + 1 && t.hist.start == 0)
      && (k >= |s.list.value| && (s.stack.None? || s.stack.value == []) ==>
           !t.firing && |t.hist.passes| == |s.hist.passes| + 1)
  {
    ReturnKeeps(s);
    var n := s.(firingIndex := s.firingIndex + 1);
    if n.firingIndex >= |s.list.value| {
      var c := Closed(n);
      assert Proceed(n) == Finish(c);
      if s.stack.Some? && s.stack.value != [] {
        assert Finish(c) == Fire(Shifted(c), s.stack.value[0]);
        OpensAtFront(Shifted(c), s.stack.value[0]);
      }
    }
  }

  /** An addition to a list that has fired with memory is called at once with the last arguments;
      without, and while a callback runs, nothing is called. */
  lemma LateAddition(s: State, fns: seq<Fn>)
    requires Inv(s) && s.list.Some?
    ensures var t, n := AddStep(s, fns), |s.list.value|;
      var l := Pushed(s.list.value, fns, s.options.unique, s.next).0;
      && (!s.firing && s.memory.Some? && |l| > n ==> Calling(t, n, s.memory.value) && t.list == Some(l))
      && (!s.firing && s.memory.None? ==> !t.firing && t.hist == s.hist)
      && (s.firing ==> t.firing && t.firingIndex == s.firingIndex && t.hist.ran == s.hist.ran)
  {
    PushedRises(s.list.value, fns, s.options.unique, s.next);
  }

  ghost predicate Recalls(s: State) {
    && (!s.options.memory ==> s.memory.None?)
    && (s.options.memory && s.hist.fires != [] ==> s.memory == Some(s.hist.fires[|s.hist.fires| - 1]))
  }

  lemma {:induction false} ProceedRecalls(s: State)
    requires InRange(s) && Recalls(s)
    ensures Recalls(Proceed(s))
    decreases if s.stack.Some? then |s.stack.value| else 0
  {
    var c := Closed(s);
    if (s.list.None? || s.firingIndex >= s.firingLength) && s.list.Some? && s.stack.Some? && s.stack.value != [] {
      ProceedRecalls(Opened(Shifted(c), s.stack.value[0]));
    }
  }

  lemma RecallsOn(s: State, op: Op)
    requires Inv(s) && Recalls(s) && op != Disable
    ensures (s.firing ==> InRange(s.(firingIndex := s.firingIndex + 1))) && Recalls(Apply(s, op))
  {
    ApplyKeeps(s, op);
    match op
    case Add(fns) =>
      if s.list.Some? && !s.firing && s.memory.Some? {
        LateReady(s, fns);
        var (l, next) := Pushed(s.list.value, fns, s.options.unique, s.next);
        ProceedRecalls(Opened(s.(list := Some(l), next := next, firingStart := |s.list.value|), s.memory.value));
      }
    case Remove(fns) => RemoveSwitches(s, fns);
    case FireWith(args) =>
      if Accepts(s) && !s.firing {
        var t := s.(hist := s.hist.(accepted := s.hist.accepted + [args], fires := s.hist.fires + [args]));
        ProceedRecalls(Opened(t, args));
      }
    case Return => if s.firing { ProceedRecalls(s.(firingIndex := s.firingIndex + 1)); }
    case _ =>
  }

  /** In every run a list with memory remembers the arguments of the last fire that began, unless it
      has been disabled; one without remembers nothing. */
  lemma {:induction false} MemoryKept(options: Options, ops: seq<Op>)
    requires Disable !in ops
    ensures Recalls(Run(options, ops)) && Run(options, ops).options == options
  {
    TakenHolds(options, ops);
    if ops != [] {
      var n := |ops| - 1;
      assert ops[n] in ops;
      MemoryKept(options, ops[..n]);
      RecallsOn(Run(options, ops[..n]), ops[n]);
    }
  }

  ghost predicate Full(s: State) { !s.hist.emptied && forall p :: p in s.hist.passes ==> !p.emptied }

  lemma {:induction false} ProceedFull(s: State)
    requires InRange(s) && Full(s)
    ensures Full(Proceed(s))
    decreases if s.stack.Some? then |s.stack.value| else 0
  {
    var c := Closed(s);
    if (s.list.None? || s.firingIndex >= s.firingLength) && s.list.Some? && s.stack.Some? && s.stack.value != [] {
      ProceedFull(Opened(Shifted(c), s.stack.value[0]));
    }
  }

  lemma FullOn(s: State, op: Op)
    requires Inv(s) && Full(s) && op != Empty
    ensures (s.firing ==> InRange(s.(firingIndex := s.firingIndex + 1))) && Full(Apply(s, op))
  {
    ApplyKeeps(s, op);
    match op
    case Add(fns) =>
      if s.list.Some? && !s.firing && s.memory.Some? {
        LateReady(s, fns);
        var (l, next) := Pushed(s.list.value, fns, s.options.unique, s.next);
        ProceedFull(Opened(s.(list := Some(l), next := next, firingStart := |s.list.value|), s.memory.value));
      }
    case Remove(fns) => RemoveSwitches(s, fns);
    case FireWith(args) =>
      if Accepts(s) && !s.firing {
        var t := s.(hist := s.hist.(accepted := s.hist.accepted + [args], fires := s.hist.fires + [args]));
        ProceedFull(Opened(t, args));
      }
    case Return => if s.firing { ProceedFull(s.(firingIndex := s.firingIndex + 1)); }
    case _ =>
  }

  /** Without an `empty` no pass skips anything. */
  lemma {:induction false} NeverEmptied(options: Options, ops: seq<Op>)
    requires Empty !in ops
    ensures Full(Run(options, ops))
  {
    if ops != [] {
      var n := |ops| - 1;
      assert ops[n] in ops;
      NeverEmptied(options, ops[..n]);
      FullOn(Run(options, ops[..n]), ops[n]);
    }
  }
}
