/** jQuery's Deferred: three callback lists wired together so that settling one way disables
    the other. Proved over every run of additions, settlements and returning callbacks. */
module Deferred {
  import opened CallbackLaws
  import opened CallbackState
  import opened Callbacks
  import opened Wrappers

  const ONCE := Options(true, true, false)
  const REPEATED := Options(false, true, false)

  /** Settling: note the new state, disable the other side, lock the progress list. */
  const SETTLING := [Internal(0), Internal(1), Internal(2)]

  // ---- A once-and-memory list that is only added to ------------------------------------------

  function Entries(all: seq<Fn>): seq<Entry> {
    seq(|all|, i requires 0 <= i < |all| => Entry(all[i], i + 1))
  }

  function RanIn(passes: seq<Pass>): seq<Entry> {
    if passes == [] then [] else RanIn(passes[..|passes| - 1]) + passes[|passes| - 1].ran
  }

  /** Everything the list has run, in order. */
  function Log(s: State): seq<Entry> {
    RanIn(s.hist.passes) + if s.firing then s.hist.ran else []
  }

  /** Every callback added so far (`all`) has been run, is running, or waits its turn in order. */
  ghost predicate Serves(s: State, all: seq<Fn>) {
    && s.options == ONCE && s.stack.None? && |s.hist.accepted| <= 1
    && (s.list.None? ==> !s.fired && !s.firing && Log(s) == [])
    && (s.fired ==> s.memory.Some? && |s.hist.fires| == 1)
    && (s.list.Some? ==>
         && s.next == |all|
         && (!s.fired ==> s.memory.None? && !s.firing && s.list.value == Entries(all) && Log(s) == [])
         && (s.fired && s.firing ==> 0 <= s.firingIndex < |s.list.value| && Log(s) + Ahead(s) == Entries(all))
         && (s.fired && !s.firing ==> s.list.value == [] && Log(s) == Entries(all)))
  }

  /** The same inside a pass, before the callback at the index is called. */
  ghost predicate Turns(s: State, all: seq<Fn>) {
    && s.options == ONCE && s.stack.None? && |s.hist.accepted| <= 1 && |s.hist.fires| == 1
    && s.list.Some? && s.memory.Some? && s.next == |all| && s.fired && s.firing
    && 0 <= s.firingIndex <= |s.list.value| == s.firingLength
    && Log(s) + s.list.value[s.firingIndex..] == Entries(all)
  }

  lemma ProceedServes(s: State, all: seq<Fn>)
    requires Turns(s, all)
    ensures Serves(Proceed(s), all) && Proceed(s).fired && Proceed(s).list.Some?
      && Proceed(s).hist.fires == s.hist.fires
  {}

  lemma {:induction false} PushedAll(l: seq<Entry>, fns: seq<Fn>, all: seq<Fn>, next: nat)
    requires next == |all|
    ensures var (r, n) := Pushed(l, fns, false, next); r == l + Entries(all + fns)[|all|..] && n == |all + fns|
    decreases |fns|
  {
    if fns == [] {
      assert all + fns == all && Entries(all)[|all|..] == [] && l + [] == l;
    } else {
      var e := Entry(fns[0], next + 1);
      PushedAll(l + [e], fns[1..], all + [fns[0]], next + 1);
      assert all + [fns[0]] + fns[1..] == all + fns;
      var es := Entries(all + fns);
      assert es[|all|..] == [e] + es[|all| + 1..];
      assert l + [e] + es[|all| + 1..] == l + es[|all|..];
    }
  }

  lemma AddFiringServes(s: State, all: seq<Fn>, fns: seq<Fn>)
    requires Serves(s, all) && s.list.Some? && s.firing && s.firingLength == |s.list.value|
    ensures Serves(AddStep(s, fns), all + fns)
  {
    PushedAll(s.list.value, fns, all, s.next);
    var l, k, more := s.list.value, s.firingIndex + 1, Entries(all + fns)[|all|..];
    EntriesMore(all, fns);
    MoreBehind(Log(s), l, k, more);
    assert Ahead(AddStep(s, fns)) == (l + more)[k..] && Log(AddStep(s, fns)) == Log(s);
  }

  lemma EntriesMore(all: seq<Fn>, fns: seq<Fn>)
    ensures Entries(all + fns) == Entries(all) + Entries(all + fns)[|all|..]
  {}

  lemma MoreBehind(log: seq<Entry>, l: seq<Entry>, k: nat, more: seq<Entry>)
    requires k <= |l|
    ensures log + (l + more)[k..] == log + l[k..] + more
  {}

  lemma AddLateServes(s: State, all: seq<Fn>, fns: seq<Fn>)
    requires Serves(s, all) && s.list.Some? && s.fired && !s.firing
    ensures Serves(AddStep(s, fns), all + fns)
  {
    PushedAll([], fns, all, s.next);
    var (r, next) := Pushed([], fns, false, s.next);
    var v := Opened(s.(list := Some(r), next := next, firingStart := 0), s.memory.value);
    assert Entries(all + fns) == Entries(all) + Entries(all + fns)[|all|..];
    assert Log(v) == Log(s) && v.list.value[0..] == r;
    ProceedServes(v, all + fns);
  }

  lemma AddServes(s: State, all: seq<Fn>, fns: seq<Fn>)
    requires Serves(s, all) && Inv(s)
    ensures Serves(AddStep(s, fns), all + fns)
  {
    if s.list.Some? {
      if s.firing {
        AddFiringServes(s, all, fns);
      } else if s.fired {
        AddLateServes(s, all, fns);
      } else {
        PushedAll(s.list.value, fns, all, s.next);
        assert Entries(all + fns) == Entries(all) + Entries(all + fns)[|all|..];
      }
    }
  }

  lemma FireServes(s: State, all: seq<Fn>, args: Args)
    requires Serves(s, all) && Inv(s)
    ensures var t := FireStep(s, args);
      Serves(t, all) && if s.list.Some? && !s.fired then t.fired && t.list.Some? && t.hist.fires == [args] else t == s
  {
    if s.list.Some? && !s.fired {
      var t := s.(hist := s.hist.(accepted := s.hist.accepted + [args], fires := s.hist.fires + [args]));
      assert s.hist.fires == [];
      assert Opened(t, args).list.value[0..] == Entries(all);
      ProceedServes(Opened(t, args), all);
    }
  }

  lemma ReturnServes(s: State, all: seq<Fn>)
    requires Serves(s, all) && Inv(s) && s.firing
    ensures InRange(s.(firingIndex := s.firingIndex + 1)) && Serves(ReturnStep(s), all)
    ensures var t := ReturnStep(s); t.fired && t.list.Some? && t.hist.fires == s.hist.fires
  {
    var t := s.(firingIndex := s.firingIndex + 1);
    assert t.list.value[t.firingIndex..] == Ahead(s);
    ProceedServes(t, all);
  }

  // ---- The three lists -----------------------------------------------------------------------

  datatype Status = Pending | Resolved | Rejected

  /** `doneAdded` and `failAdded` are history: all callbacks ever added to each side. */
  datatype Promise = Promise(status: Status, done: State, fail: State, progress: State, doneAdded: seq<Fn>,
      failAdded: seq<Fn>)

  datatype Op =
    | AddDone(ids: seq<nat>) | AddFail(ids: seq<nat>) | AddProgress(ids: seq<nat>)
    | Resolve(args: Args) | Reject(args: Args) | Notify(args: Args)
    | ReturnDone | ReturnFail | ReturnProgress

  function Users(ids: seq<nat>): seq<Fn> {
    seq(|ids|, i requires 0 <= i < |ids| => User(ids[i]))
  }

  function NewPromise(): Promise {
    Promise(Pending, AddStep(Fresh(ONCE), SETTLING), AddStep(Fresh(ONCE), SETTLING), Fresh(REPEATED), SETTLING,
        SETTLING)
  }

  /** A callback of `s` returns, if one is running. */
  function Back(s: State): State {
    if s.firing && InRange(s.(firingIndex := s.firingIndex + 1)) then ReturnStep(s) else s
  }

  /** Firing the list of one side: if it starts, its first three callbacks note the state,
      disable the other side and lock the progress list. */
  function Settled(p: Promise, args: Args, status: Status): Promise {
    var mine := if status == Resolved then p.done else p.fail;
    var t := FireStep(mine, args);
    var starts := !mine.fired && t.firing;
    var last := if starts then Back(Back(Back(t))) else t;
    var q := if starts then p.(status := status, progress := LockStep(p.progress)) else p;
    if status == Resolved
    then q.(done := last, fail := if starts then DisableStep(p.fail) else p.fail)
    else q.(fail := last, done := if starts then DisableStep(p.done) else p.done)
  }

  function Do(p: Promise, op: Op): Promise {
    match op
    case AddDone(ids) => p.(done := AddStep(p.done, Users(ids)), doneAdded := p.doneAdded + Users(ids))
    case AddFail(ids) => p.(fail := AddStep(p.fail, Users(ids)), failAdded := p.failAdded + Users(ids))
    case AddProgress(ids) => p.(progress := AddStep(p.progress, Users(ids)))
    case Resolve(args) => Settled(p, args, Resolved)
    case Reject(args) => Settled(p, args, Rejected)
    case Notify(args) => p.(progress := FireStep(p.progress, args))
    case ReturnDone => p.(done := Back(p.done))
    case ReturnFail => p.(fail := Back(p.fail))
    case ReturnProgress => p.(progress := Back(p.progress))
  }

  ghost predicate Side(s: State, added: seq<Fn>) {
    Inv(s) && Serves(s, added) && SETTLING <= added
  }

  ghost predicate Good(p: Promise) {
    && Side(p.done, p.doneAdded) && Side(p.fail, p.failAdded) && Inv(p.progress)
    && match p.status
       case Pending => !p.done.fired && !p.fail.fired && p.done.list.Some? && p.fail.list.Some?
       case Resolved => p.done.fired && p.done.list.Some? && p.fail.list.None? && !Accepts(p.progress)
       case Rejected => p.fail.fired && p.fail.list.Some? && p.done.list.None? && !Accepts(p.progress)
  }

  // ---- The steps keep it ------------------------------------------------------------------

  /** The running callback, while the list holds it. */
  ghost predicate Running(s: State, fn: Fn) {
    s.firing && s.list.Some? && 0 <= s.firingIndex < |s.list.value| && s.list.value[s.firingIndex].fn == fn
  }

  lemma BackKeeps(s: State, added: seq<Fn>)
    requires Side(s, added)
    ensures Side(Back(s), added) && Back(s).fired == s.fired && Back(s).list.Some? == s.list.Some?
    ensures Back(s).hist.fires == s.hist.fires
  {
    if s.firing {
      ReturnKeeps(s);
      ReturnServes(s, added);
    }
  }

  /** The first three callbacks of a side run first. */
  lemma SettlingFirst(s: State, added: seq<Fn>, args: Args)
    requires Side(s, added) && !s.fired && s.list.Some?
    ensures var t := FireStep(s, args);
      Running(t, Internal(0)) && Running(Back(t), Internal(1)) && Running(Back(Back(t)), Internal(2))
  {}

  lemma SideFires(s: State, added: seq<Fn>, args: Args)
    requires Side(s, added) && !s.fired && s.list.Some?
    ensures var t := Back(Back(Back(FireStep(s, args))));
      Side(t, added) && t.fired && t.list.Some? && t.hist.fires == [args]
  {
    FireStepKeeps(s, args);
    FireServes(s, added, args);
    var t := FireStep(s, args);
    BackKeeps(t, added);
    BackKeeps(Back(t), added);
    BackKeeps(Back(Back(t)), added);
  }

  lemma SideDisabled(s: State, added: seq<Fn>)
    requires Side(s, added) && !s.fired && s.list.Some?
    ensures Side(DisableStep(s), added) && !DisableStep(s).fired
  {}

  lemma SideStays(s: State, added: seq<Fn>, args: Args)
    requires Side(s, added) && (s.fired || s.list.None?)
    ensures FireStep(s, args) == s
  {}

  lemma LockedRefuses(s: State)
    requires Inv(s)
    ensures Inv(LockStep(s)) && !Accepts(LockStep(s))
  {}

  lemma NewSideKeeps()
    ensures var s := AddStep(Fresh(ONCE), SETTLING); Side(s, SETTLING) && !s.fired && s.list.Some?
  {
    var s := Fresh(ONCE);
    assert Entries([]) == [] && [] + SETTLING == SETTLING;
    AddKeeps(s, SETTLING);
    AddServes(s, [], SETTLING);
  }

  lemma NewGood()
    ensures Good(NewPromise())
  {
    NewSideKeeps();
  }

  lemma SettleKeeps(p: Promise, args: Args, status: Status)
    requires Good(p) && status != Pending
    ensures Good(Settled(p, args, status))
    ensures p.status != Pending ==> Settled(p, args, status) == p
    ensures p.status == Pending ==>
      var q := Settled(p, args, status);
      q.status == status && Settler(q).hist.fires == [args]
  {
    var mine := if status == Resolved then p.done else p.fail;
    var added := if status == Resolved then p.doneAdded else p.failAdded;
    if p.status == Pending {
      SettlingFirst(mine, added, args);
      SideFires(mine, added, args);
      SideDisabled(if status == Resolved then p.fail else p.done,
        if status == Resolved then p.failAdded else p.doneAdded);
      LockedRefuses(p.progress);
    } else {
      SideStays(mine, added, args);
    }
  }

  /** The side that has settled the promise, if one has. */
  function Settler(p: Promise): State {
    if p.status == Rejected then p.fail else p.done
  }

  lemma AddSide(s: State, added: seq<Fn>, fns: seq<Fn>)
    requires Side(s, added)
    ensures Side(AddStep(s, fns), added + fns) && AddStep(s, fns).fired == s.fired
      && AddStep(s, fns).list.Some? == s.list.Some?
    ensures AddStep(s, fns).hist.fires == s.hist.fires
  {
    AddKeeps(s, fns);
    AddServes(s, added, fns);
    if s.list.Some? && !s.firing && s.fired {
      var (l, next) := Pushed(s.list.value, fns, false, s.next);
      var t := Opened(s.(list := Some(l), next := next), s.memory.value);
      PushedAll([], fns, added, s.next);
      var r := Pushed([], fns, false, s.next).0;
      if r == [] { assert Proceed(t) == Finish(Closed(t)); }
    }
  }

  lemma StillRefuses(s: State)
    requires InRange(s) && s.fired && s.stack.None?
    ensures Proceed(s).fired && Proceed(s).stack.None?
  {}

  lemma ProgressRefuses(s: State, fns: seq<Fn>)
    requires Inv(s) && !Accepts(s)
    ensures !Accepts(AddStep(s, fns)) && !Accepts(Back(s))
  {
    if s.list.Some? && !s.firing && s.memory.Some? {
      var (l, next) := Pushed(s.list.value, fns, s.options.unique, s.next);
      StillRefuses(Opened(s.(list := Some(l), next := next, firingStart := |s.list.value|), s.memory.value));
    }
    if s.firing {
      ReturnKeeps(s);
      StillRefuses(s.(firingIndex := s.firingIndex + 1));
    }
  }

  /** What an operation does to the state and to the arguments of the settlement. */
  ghost predicate Advances(p: Promise, op: Op, q: Promise) {
    && Good(q)
    && (p.status != Pending ==> q.status == p.status && Settler(q).hist.fires == Settler(p).hist.fires)
    && (p.status == Pending ==>
         match op
         case Resolve(args) => q.status == Resolved && Settler(q).hist.fires == [args]
         case Reject(args) => q.status == Rejected && Settler(q).hist.fires == [args]
         case _ => q.status == Pending)
    && q.doneAdded == p.doneAdded + (if op.AddDone? then Users(op.ids) else [])
    && q.failAdded == p.failAdded + (if op.AddFail? then Users(op.ids) else [])
  }

  ghost predicate Unsettling(s: State, t: State) {
    t.fired == s.fired && t.list.Some? == s.list.Some? && t.hist.fires == s.hist.fires
  }

  lemma DoneKeeps(p: Promise, op: Op, s: State, more: seq<Fn>)
    requires Good(p) && Side(s, p.doneAdded + more) && Unsettling(p.done, s)
    requires !Settles(op) && !op.AddFail? && (if op.AddDone? then Users(op.ids) == more else more == [])
    ensures Advances(p, op, p.(done := s, doneAdded := p.doneAdded + more))
  {}

  lemma FailKeeps(p: Promise, op: Op, s: State, more: seq<Fn>)
    requires Good(p) && Side(s, p.failAdded + more) && Unsettling(p.fail, s)
    requires !Settles(op) && !op.AddDone? && (if op.AddFail? then Users(op.ids) == more else more == [])
    ensures Advances(p, op, p.(fail := s, failAdded := p.failAdded + more))
  {}

  lemma ProgressKeeps(p: Promise, op: Op, s: State)
    requires Good(p) && Inv(s) && (!Accepts(p.progress) ==> !Accepts(s))
    requires !Settles(op) && !op.AddFail? && !op.AddDone?
    ensures Advances(p, op, p.(progress := s))
  {}

  predicate Settles(op: Op) { op.Resolve? || op.Reject? }

  lemma DoDone(p: Promise, op: Op)
    requires Good(p) && (op.AddDone? || op.ReturnDone?)
    ensures Advances(p, op, Do(p, op))
  {
    if op.AddDone? {
      AddSide(p.done, p.doneAdded, Users(op.ids));
      DoneKeeps(p, op, AddStep(p.done, Users(op.ids)), Users(op.ids));
    } else {
      BackKeeps(p.done, p.doneAdded);
      assert p.doneAdded + [] == p.doneAdded;
      DoneKeeps(p, op, Back(p.done), []);
    }
  }

  lemma DoFail(p: Promise, op: Op)
    requires Good(p) && (op.AddFail? || op.ReturnFail?)
    ensures Advances(p, op, Do(p, op))
  {
    if op.AddFail? {
      AddSide(p.fail, p.failAdded, Users(op.ids));
      FailKeeps(p, op, AddStep(p.fail, Users(op.ids)), Users(op.ids));
    } else {
      BackKeeps(p.fail, p.failAdded);
      assert p.failAdded + [] == p.failAdded;
      FailKeeps(p, op, Back(p.fail), []);
    }
  }

  lemma DoProgress(p: Promise, op: Op)
    requires Good(p) && (op.AddProgress? || op.Notify? || op.ReturnProgress?)
    ensures Advances(p, op, Do(p, op))
  {
    var s := p.progress;
    var fns := if op.AddProgress? then Users(op.ids) else [];
    if !Accepts(s) { ProgressRefuses(s, fns); }
    match op
    case AddProgress(ids) =>
      AddKeeps(s, fns);
      ProgressKeeps(p, op, AddStep(s, fns));
    case Notify(args) =>
      FireStepKeeps(s, args);
      ProgressKeeps(p, op, FireStep(s, args));
    case ReturnProgress =>
      if s.firing { ReturnKeeps(s); }
      ProgressKeeps(p, op, Back(s));
  }

  lemma DoSettle(p: Promise, op: Op)
    requires Good(p) && Settles(op)
    ensures Advances(p, op, Do(p, op))
  {
    SettleKeeps(p, op.args, if op.Resolve? then Resolved else Rejected);
  }

  lemma DoKeeps(p: Promise, op: Op)
    requires Good(p)
    ensures Advances(p, op, Do(p, op))
  {
    if Settles(op) { DoSettle(p, op); }
    else if op.AddDone? || op.ReturnDone? { DoDone(p, op); }
    else if op.AddFail? || op.ReturnFail? { DoFail(p, op); }
    else { DoProgress(p, op); }
  }

  // ---- Runs --------------------------------------------------------------------------------

  function Run(ops: seq<Op>): (p: Promise)
    ensures Good(p)
  {
    if ops == [] then NewGood(); NewPromise()
    else
      var p := Run(ops[..|ops| - 1]);
      DoKeeps(p, ops[|ops| - 1]);
      Do(p, ops[|ops| - 1])
  }

  lemma RunAdvances(ops: seq<Op>)
    requires ops != []
    ensures Advances(Run(ops[..|ops| - 1]), ops[|ops| - 1], Run(ops))
  {
    DoKeeps(Run(ops[..|ops| - 1]), ops[|ops| - 1]);
  }

  /** The first operation of a run that settles. */
  function FirstSettle(ops: seq<Op>): Option<Op> {
    if ops == [] then None
    else
      var earlier := FirstSettle(ops[..|ops| - 1]);
      if earlier.Some? then earlier
      else if Settles(ops[|ops| - 1]) then Some(ops[|ops| - 1])
      else None
  }

  /** The callbacks added to one side over a run, in order. */
  function Added(ops: seq<Op>, done: bool): seq<Fn> {
    if ops == [] then []
    else
      var op := ops[|ops| - 1];
      Added(ops[..|ops| - 1], done) +
        (if done && op.AddDone? then Users(op.ids) else if !done && op.AddFail? then Users(op.ids) else [])
  }

  /** The first settlement decides the state for good, and its arguments are the ones passed on. */
  lemma {:induction false} FirstSettleWins(ops: seq<Op>)
    ensures var p := Run(ops);
      match FirstSettle(ops)
      case None => p.status == Pending
      case Some(op) =>
        && p.status == (if op.Resolve? then Resolved else Rejected)
        && Settles(op) && Settler(p).hist.fires == [op.args]
  {
    if ops != [] {
      FirstSettleWins(ops[..|ops| - 1]);
      RunAdvances(ops);
    }
  }

  lemma AddedOn(p: Promise, op: Op, q: Promise, done: seq<Fn>, fail: seq<Fn>)
    requires Advances(p, op, q) && p.doneAdded == SETTLING + done && p.failAdded == SETTLING + fail
    ensures q.doneAdded == SETTLING + (done + if op.AddDone? then Users(op.ids) else [])
    ensures q.failAdded == SETTLING + (fail + if op.AddFail? then Users(op.ids) else [])
  {}

  lemma {:induction false} AddedRecorded(ops: seq<Op>)
    ensures Run(ops).doneAdded == SETTLING + Added(ops, true) && Run(ops).failAdded == SETTLING + Added(ops, false)
  {
    if ops != [] {
      AddedRecorded(ops[..|ops| - 1]);
      RunAdvances(ops);
      AddedOn(Run(ops[..|ops| - 1]), ops[|ops| - 1], Run(ops), Added(ops[..|ops| - 1], true),
          Added(ops[..|ops| - 1], false));
    }
  }

  /** At most one of the two sides ever runs anything. */
  lemma OneSideRuns(ops: seq<Op>)
    ensures var p := Run(ops); Log(p.done) == [] || Log(p.fail) == []
  {}

  lemma ServesAll(s: State, added: seq<Fn>)
    requires Side(s, added) && s.fired && s.list.Some?
    ensures Log(s) <= Entries(added)
    ensures if s.firing then Log(s) + Ahead(s) == Entries(added) else Log(s) == Entries(added)
    ensures forall pass :: pass in s.hist.passes ==> [pass.args] == s.hist.fires
  {}

  /** Once settled, the callbacks of that side have run exactly once each, in the order they
      were added, before, during or after settling; those still to run wait behind the running one. */
  lemma EveryCallbackOnce(ops: seq<Op>)
    requires Run(ops).status != Pending
    ensures var p := Run(ops);
      var s, all := Settler(p), Entries(SETTLING + Added(ops, p.status == Resolved));
      && Log(s) <= all
      && (!s.firing ==> Log(s) == all)
      && (s.firing ==> s.list.Some? && Log(s) + Ahead(s) == all)
      && forall pass :: pass in s.hist.passes ==> [pass.args] == s.hist.fires
  {
    AddedRecorded(ops);
    ServesAll(Settler(Run(ops)), SETTLING + Added(ops, Run(ops).status == Resolved));
  }

  lemma RefusedStays(s: State, args: Args)
    requires !Accepts(s)
    ensures FireStep(s, args) == s
  {}

  /** A settled promise refuses further progress notifications. */
  lemma NoNotificationAfterSettling(ops: seq<Op>, args: Args)
    requires Run(ops).status != Pending
    ensures Do(Run(ops), Notify(args)) == Run(ops)
  {
    SettledRefuses(Run(ops), args);
  }

  lemma SettledRefuses(p: Promise, args: Args)
    requires Good(p) && p.status != Pending
    ensures Do(p, Notify(args)) == p
  {
    RefusedStays(p.progress, args);
  }

  // ---- Notifications -----------------------------------------------------------------------------

  /** What an operation on a promise does to its progress list; the first settlement locks it. */
  function ProgressOp(settled: bool, op: Op): Option<Callbacks.Op> {
    match op
    case AddProgress(ids) => Some(Callbacks.Op.Add(Users(ids)))
    case Notify(args) => Some(Callbacks.Op.FireWith(args))
    case ReturnProgress => Some(Callbacks.Op.Return)
    case Resolve(_) => if settled then None else Some(Callbacks.Op.Lock)
    case Reject(_) => if settled then None else Some(Callbacks.Op.Lock)
    case _ => None
  }

  function ProgressOps(ops: seq<Op>): seq<Callbacks.Op> {
    if ops == [] then []
    else
      var before := ops[..|ops| - 1];
      var op := ProgressOp(FirstSettle(before).Some?, ops[|ops| - 1]);
      ProgressOps(before) + if op.Some? then [op.value] else []
  }

  lemma ProgressLast(ops: seq<Op>)
    requires ops != []
    ensures var made := ProgressOps(ops[..|ops| - 1]);
      var op := ProgressOp(FirstSettle(ops[..|ops| - 1]).Some?, ops[|ops| - 1]);
      ProgressOps(ops) == if op.Some? then made + [op.value] else made
    ensures forall o: Callbacks.Op ::
      (ProgressOps(ops[..|ops| - 1]) + [o])[..|ProgressOps(ops[..|ops| - 1])|] == ProgressOps(ops[..|ops| - 1])
  {}

  /** The notifications sent before the first settlement. */
  function Notified(ops: seq<Op>): seq<Args> {
    if ops == [] then []
    else
      var before, op := ops[..|ops| - 1], ops[|ops| - 1];
      Notified(before) + if op.Notify? && FirstSettle(before).None? then [op.args] else []
  }

  /** The progress callbacks added, in order. */
  function ProgressAdded(ops: seq<Op>): seq<Fn> {
    if ops == [] then []
    else
      var op := ops[|ops| - 1];
      ProgressAdded(ops[..|ops| - 1]) + if op.AddProgress? then Users(op.ids) else []
  }

  lemma SettlementStarts(p: Promise, args: Args, status: Status)
    requires Good(p) && status != Pending
    ensures Settled(p, args, status).progress == if p.status == Pending then LockStep(p.progress) else p.progress
  {
    SettleKeeps(p, args, status);
    var mine := if status == Resolved then p.done else p.fail;
    var added := if status == Resolved then p.doneAdded else p.failAdded;
    if p.status == Pending { SettlingFirst(mine, added, args); }
  }

  lemma ProgressSettles(p: Promise, op: Op)
    requires Good(p) && Settles(op)
    ensures Do(p, op).progress == if p.status == Pending then LockStep(p.progress) else p.progress
  {
    SettlementStarts(p, op.args, if op.Resolve? then Resolved else Rejected);
  }

  lemma ProgressMoves(p: Promise, op: Op)
    requires !Settles(op) && p.progress.firing ==> InRange(p.progress.(firingIndex := p.progress.firingIndex + 1))
    ensures op.AddProgress? ==> Do(p, op).progress == AddStep(p.progress, Users(op.ids))
    ensures op.Notify? ==> Do(p, op).progress == FireStep(p.progress, op.args)
    ensures op.ReturnProgress? ==> Do(p, op).progress == Back(p.progress)
    ensures op.AddDone? || op.AddFail? || op.ReturnDone? || op.ReturnFail? ==> Do(p, op).progress == p.progress
  {}

  lemma MovesStep(p: Promise, op: Op)
    requires Inv(p.progress) && !Settles(op)
    ensures var o := ProgressOp(p.status != Pending, op);
      && (p.progress.firing ==> InRange(p.progress.(firingIndex := p.progress.firingIndex + 1)))
      && Do(p, op).progress == if o.Some? then Apply(p.progress, o.value) else p.progress
  {
    ApplyKeeps(p.progress, Callbacks.Op.Return);
    ProgressMoves(p, op);
  }

  lemma SettlesStep(p: Promise, op: Op)
    requires Good(p) && Settles(op)
    ensures var o := ProgressOp(p.status != Pending, op);
      && (p.progress.firing ==> InRange(p.progress.(firingIndex := p.progress.firingIndex + 1)))
      && Do(p, op).progress == if o.Some? then Apply(p.progress, o.value) else p.progress
  {
    ApplyKeeps(p.progress, Callbacks.Op.Return);
    ProgressSettles(p, op);
  }

  lemma {:induction false} ProgressIsList(ops: seq<Op>)
    ensures Run(ops).progress == Callbacks.Run(REPEATED, ProgressOps(ops))
  {
    if ops != [] {
      var before, op := ops[..|ops| - 1], ops[|ops| - 1];
      ProgressIsList(before);
      FirstSettleWins(before);
      ProgressLast(ops);
      if Settles(op) { SettlesStep(Run(before), op); } else { MovesStep(Run(before), op); }
      var o := ProgressOp(FirstSettle(before).Some?, op);
      if o.Some? { RunOn(REPEATED, ProgressOps(before), o.value); }
    }
  }

  /** The settlement locks the progress list for good, and nothing else shuts or empties it. */
  lemma {:induction false} NotSwitched(ops: seq<Op>)
    ensures Shut(ProgressOps(ops)) <==> FirstSettle(ops).Some?
    ensures FirstSettle(ops).Some? ==> !Alive(ProgressOps(ops))
    ensures Callbacks.Op.Disable !in ProgressOps(ops) && Callbacks.Op.Empty !in ProgressOps(ops)
  {
    if ops != [] {
      var before, op := ops[..|ops| - 1], ops[|ops| - 1];
      NotSwitched(before);
      ProgressLast(ops);
      SwitchesMore(ProgressOps(before), ProgressOp(FirstSettle(before).Some?, op), ProgressOps(ops));
    }
  }

  lemma SwitchesMore(made: seq<Callbacks.Op>, o: Option<Callbacks.Op>, all: seq<Callbacks.Op>)
    requires all == (if o.Some? then made + [o.value] else made)
    ensures Shut(all) <==> Shut(made) || (o.Some? && Switches(o.value))
    ensures Alive(all) <==>
      if o.None? then Alive(made) else o.value.Empty? || (!Switches(o.value) && Alive(made))
    ensures forall x :: x in all <==> x in made || o == Some(x)
  {
    if o.Some? { ShutOn(made, o.value); }
  }

  lemma TakenMore(made: seq<Callbacks.Op>, o: Option<Callbacks.Op>, all: seq<Callbacks.Op>)
    requires all == (if o.Some? then made + [o.value] else made) && (Shut(made) ==> !Alive(made))
    ensures Taken(false, all) == Taken(false, made)
      + if o.Some? && o.value.FireWith? && !Shut(made) then [o.value.args] else []
  {
    if o.Some? { assert (made + [o.value])[..|made|] == made; }
  }

  lemma {:induction false} TakenNotified(ops: seq<Op>)
    ensures Taken(false, ProgressOps(ops)) == Notified(ops)
  {
    if ops != [] {
      var before, op := ops[..|ops| - 1], ops[|ops| - 1];
      TakenNotified(before);
      NotSwitched(before);
      ProgressLast(ops);
      TakenMore(ProgressOps(before), ProgressOp(FirstSettle(before).Some?, op), ProgressOps(ops));
    }
  }

  lemma ContentMore(made: seq<Callbacks.Op>, o: Option<Callbacks.Op>, all: seq<Callbacks.Op>)
    requires all == (if o.Some? then made + [o.value] else made)
    requires o.Some? ==> !o.value.Remove? && !o.value.Empty?
    ensures Content(false, all) == Content(false, made) + if o.Some? && o.value.Add? then o.value.fns else []
  {
    if o.Some? {
      assert (made + [o.value])[..|made|] == made;
      if o.value.Add? { AppendedAll(Content(false, made), o.value.fns); }
    }
  }

  lemma {:induction false} ContentAdded(ops: seq<Op>)
    ensures Content(false, ProgressOps(ops)) == ProgressAdded(ops)
  {
    if ops != [] {
      var before, op := ops[..|ops| - 1], ops[|ops| - 1];
      ContentAdded(before);
      ProgressLast(ops);
      ContentMore(ProgressOps(before), ProgressOp(FirstSettle(before).Some?, op), ProgressOps(ops));
    }
  }

  lemma {:induction false} AppendedAll(l: seq<Fn>, fns: seq<Fn>)
    ensures Appended(l, fns, false) == l + fns
    decreases |fns|
  {
    if fns != [] {
      AppendedAll(l + [fns[0]], fns[1..]);
      assert l + [fns[0]] + fns[1..] == l + fns;
    }
  }

  /** Every notification sent before the settlement is accepted, in order, and no other. While the
      promise is pending its progress list holds all the callbacks added, and a pass of it calls
      each that it did not start behind. */
  lemma NotificationsReach(ops: seq<Op>)
    ensures var s := Run(ops).progress;
      && s.hist.accepted == Notified(ops) && s.hist.fires <= Notified(ops)
      && (Run(ops).status == Pending ==>
           && s.list.Some? && Fns(s.list.value) == ProgressAdded(ops)
           && (!s.firing ==> s.hist.fires == Notified(ops)))
      && forall pass, e :: pass in s.hist.passes && e in pass.left && e.serial > pass.start ==> e in pass.ran
  {
    var made, s := ProgressOps(ops), Run(ops).progress;
    ProgressIsList(ops);
    FirstSettleWins(ops);
    NotSwitched(ops);
    TakenNotified(ops);
    TakenHolds(REPEATED, made);
    FiresInOrder(REPEATED, made);
    if Run(ops).status == Pending {
      assert Steady(REPEATED, made) by {
        forall o | o in made ensures !Switches(o) { assert !Shut(made); }
      }
      HoldsContent(REPEATED, made);
      ContentAdded(ops);
    }
    NeverEmptied(REPEATED, made);
    forall pass, e | pass in s.hist.passes && e in pass.left && e.serial > pass.start ensures e in pass.ran {
      PassesRunEachOnce(REPEATED, made, pass, e);
    }
  }

  // ---- The object --------------------------------------------------------------------------

  /** The list of one side, with the settling callbacks in it. */
  method NewSide() returns (side: CallbackList)
    ensures fresh(side) && side.View() == AddStep(Fresh(ONCE), SETTLING)
  {
    side := new CallbackList(ONCE);
    side.Add(SETTLING);
  }

  class DeferredObject {
    const done: CallbackList
    const fail: CallbackList
    const progress: CallbackList
    var status: Status
    ghost var doneAdded: seq<Fn>
    ghost var failAdded: seq<Fn>

    ghost function View(): Promise
      reads this, done, fail, progress
    {
      Promise(status, done.View(), fail.View(), progress.View(), doneAdded, failAdded)
    }

    ghost predicate Valid()
      reads this, done, fail, progress
    {
      done != fail && fail != progress && progress != done && Good(View())
    }

    constructor ()
      ensures Valid() && View() == NewPromise() && fresh(done) && fresh(fail) && fresh(progress)
    {
      NewGood();
      var d := NewSide();
      var f := NewSide();
      done, fail := d, f;
      progress := new CallbackList(REPEATED);
      status := Pending;
      doneAdded, failAdded := SETTLING, SETTLING;
    }

    method Done(ids: seq<nat>)
      requires Valid()
      modifies done, this`doneAdded
      ensures Valid() && View() == Do(old(View()), AddDone(ids))
    {
      DoKeeps(View(), AddDone(ids));
      done.Add(Users(ids));
      doneAdded := doneAdded + Users(ids);
    }

    method Fail(ids: seq<nat>)
      requires Valid()
      modifies fail, this`failAdded
      ensures Valid() && View() == Do(old(View()), AddFail(ids))
    {
      DoKeeps(View(), AddFail(ids));
      fail.Add(Users(ids));
      failAdded := failAdded + Users(ids);
    }

    method Progress(ids: seq<nat>)
      requires Valid()
      modifies progress
      ensures Valid() && View() == Do(old(View()), AddProgress(ids))
    {
      DoKeeps(View(), AddProgress(ids));
      progress.Add(Users(ids));
    }

    method Notify(args: Args)
      requires Valid()
      modifies progress
      ensures Valid() && View() == Do(old(View()), Op.Notify(args))
    {
      DoKeeps(View(), Op.Notify(args));
      progress.FireWith(args);
    }

    /** Fires one side's list; the callbacks it calls first are the three settling ones. */
    method Settle(mine: CallbackList, other: CallbackList, args: Args, outcome: Status)
      requires Valid() && outcome != Pending
      requires if outcome == Resolved then mine == done && other == fail else mine == fail && other == done
      modifies this`status, done, fail, progress
      ensures View() == Settled(old(View()), args, outcome)
    {
      ghost var s, added := mine.View(), if outcome == Resolved then doneAdded else failAdded;
      var unfired := !mine.fired;
      mine.FireWith(args);
      assert mine.View() == FireStep(s, args);
      if unfired && mine.firing {
        SettlingFirst(s, added, args);
        FireStepKeeps(s, args);
        RunSettling(mine, other, outcome);
      }
    }

    /** The first three callbacks of a side are called, one after the other, and return. */
    method RunSettling(mine: CallbackList, other: CallbackList, outcome: Status)
      requires mine != other && mine != progress && other != progress && Inv(mine.View())
      requires var t := mine.View();
        Running(t, Internal(0)) && Running(Back(t), Internal(1)) && Running(Back(Back(t)), Internal(2))
      modifies this`status, mine, other, progress
      ensures mine.View() == Back(Back(Back(old(mine.View())))) && other.View() == DisableStep(old(other.View()))
      ensures progress.View() == LockStep(old(progress.View())) && status == outcome
    {
      status := outcome;
      Returning(mine);
      other.Disable();
      Returning(mine);
      progress.Lock();
      Returning(mine);
    }

    /** The running callback of `list` returns. */
    static method Returning(list: CallbackList)
      requires Inv(list.View()) && list.firing
      modifies list
      ensures list.View() == Back(old(list.View())) && Inv(list.View())
    {
      ReturnKeeps(list.View());
      list.Return();
    }

    method Resolve(args: Args)
      requires Valid()
      modifies this`status, done, fail, progress
      ensures Valid() && View() == Do(old(View()), Op.Resolve(args))
    {
      SettleKeeps(View(), args, Resolved);
      Settle(done, fail, args, Resolved);
    }

    method Reject(args: Args)
      requires Valid()
      modifies this`status, done, fail, progress
      ensures Valid() && View() == Do(old(View()), Op.Reject(args))
    {
      SettleKeeps(View(), args, Rejected);
      Settle(fail, done, args, Rejected);
    }
  }
}
