/** Threads waiting for a descriptor to reach a state, and threads that write its state: by the
    synchronized setter, which holds the descriptor's lock until every listener has been called,
    or by compare-and-set, which never takes the lock. */
module StateWaiters {
  import opened ApplicationState
  import opened Wrappers

  type WaiterId = nat // one for each call of `awaitAnyOfStates`
  type WriterId = nat

  datatype Waiter =
    | Checked(states: set<AppState>) // holds the lock: found no match, not yet registered
    | Waiting(states: set<AppState>) // registered, blocked on its latch
    | Leaving(states: set<AppState>) // latch found open, listener still registered
    | Done(states: set<AppState>)

  /** A writer whose value is in place: before and after taking the snapshot of the listeners.
      `hit` is history: the waiters that were waiting for the value when it was written. */
  datatype Writer =
    | Swapped(new_state: AppState, hit: set<WaiterId>, locked: bool)
    | Notifying(new_state: AppState, todo: set<WaiterId>, hit: set<WaiterId>, locked: bool)

  datatype Holder = Nobody | ByWaiter(w: WaiterId) | ByWriter(t: WriterId)

  /** History: `matched` waiters have had one of their states written since their check; `missed`
      ones were overlooked by a writer that read the listeners between their check and their
      registration; `swapped` says whether a compare-and-set has ever changed the state. */
  datatype Sys = Sys(
    state: AppState, lock: Holder, waiters: map<WaiterId, Waiter>, listeners: set<WaiterId>, open: set<WaiterId>,
    writers: map<WriterId, Writer>, matched: set<WaiterId>, missed: set<WaiterId>, swapped: bool)

  predicate Active(w: Waiter) { w.Checked? || w.Waiting? }

  /** The waiters for which writing `v` is what they wait for. */
  function Hit(x: Sys, v: AppState): set<WaiterId> {
    set w | w in x.waiters && Active(x.waiters[w]) && v in x.waiters[w].states
  }

  // ---- Atomic steps ------------------------------------------------------------------------

  datatype Action =
    | Await(w: WaiterId, states: set<AppState>) | Register(w: WaiterId) | Wake(w: WaiterId) | Remove(w: WaiterId)
    | SetState(t: WriterId, v: AppState) | CompareAndSet(t: WriterId, expected: AppState, v: AppState)
    | Snapshot(t: WriterId) | Notify(t: WriterId, w: WaiterId) | Finish(t: WriterId)

  function Moved(x: Sys, w: WaiterId, to: Waiter): Sys { x.(waiters := x.waiters[w := to]) }

  /** The value is in place; an event is fired only if it differs from the old one. */
  function Written(x: Sys, t: WriterId, v: AppState, locked: bool): Sys {
    if v == x.state then x
    else
      x.(state := v, writers := x.writers[t := Swapped(v, Hit(x, v), locked)], matched := x.matched + Hit(x, v),
         lock := if locked then ByWriter(t) else x.lock, swapped := x.swapped || !locked)
  }

  /** The state after a step; None if it cannot be taken. */
  function Next(x: Sys, a: Action): Option<Sys> {
    match a
    case Await(w, states) =>
      if w in x.waiters || x.lock != Nobody then None
      else if x.state in states then Some(Moved(x, w, Done(states)))
      else Some(Moved(x, w, Checked(states)).(lock := ByWaiter(w)))
    case Register(w) =>
      if w !in x.waiters || !x.waiters[w].Checked? then None
      else Some(Moved(x, w, Waiting(x.waiters[w].states)).(lock := Nobody, listeners := x.listeners + {w}))
    case Wake(w) =>
      if w !in x.waiters || !x.waiters[w].Waiting? || w !in x.open then None
      else Some(Moved(x, w, Leaving(x.waiters[w].states)))
    case Remove(w) =>
      if w !in x.waiters || !x.waiters[w].Leaving? then None
      else Some(Moved(x, w, Done(x.waiters[w].states)).(listeners := x.listeners - {w}))
    case SetState(t, v) =>
      if t in x.writers || x.lock != Nobody then None else Some(Written(x, t, v, true))
    case CompareAndSet(t, expected, v) =>
      if t in x.writers then None else Some(if x.state == expected then Written(x, t, v, false) else x)
    case Snapshot(t) =>
      if t !in x.writers || !x.writers[t].Swapped? then None
      else
        var wr := x.writers[t];
        Some(x.(writers := x.writers[t := Notifying(wr.new_state, x.listeners, wr.hit, wr.locked)],
                missed := x.missed + (wr.hit - x.listeners - x.open)))
    case Notify(t, w) =>
      if t !in x.writers || !x.writers[t].Notifying? || w !in x.writers[t].todo || w !in x.waiters then None
      else
        var wr := x.writers[t];
        Some(x.(writers := x.writers[t := Notifying(wr.new_state, wr.todo - {w}, wr.hit, wr.locked)],
                open := if wr.new_state in x.waiters[w].states then x.open + {w} else x.open))
    case Finish(t) =>
      if t !in x.writers || !x.writers[t].Notifying? || x.writers[t].todo != {} then None
      else Some(x.(writers := x.writers - {t}, lock := if x.writers[t].locked then Nobody else x.lock))
  }

  function Start(state: AppState): Sys { Sys(state, Nobody, map[], {}, {}, map[], {}, {}, false) }

  // ---- Invariant ---------------------------------------------------------------------------

  /** Writer `t` has written for `w` and will still call its listener. */
  ghost predicate Pending(x: Sys, t: WriterId, w: WaiterId) {
    t in x.writers && w in x.writers[t].hit && (x.writers[t].Swapped? || w in x.writers[t].todo)
  }

  ghost predicate WaiterOk(x: Sys, w: WaiterId) {
    w in x.waiters ==>
      var it := x.waiters[w];
      && (Active(it) && x.state in it.states ==> w in x.matched)
      && (Active(it) && w in x.matched && w !in x.open ==> w in x.missed || exists t :: Pending(x, t, w))
      && (it.Checked? <==> x.lock == ByWaiter(w))
      && (w in x.listeners <==> it.Waiting? || it.Leaving?)
      && (it.Checked? ==> w !in x.open)
      && (it.Leaving? ==> w in x.open)
      && (!x.swapped && w in x.open ==> w in x.matched)
  }

  ghost predicate WriterOk(x: Sys, t: WriterId) {
    t in x.writers ==>
      var wr := x.writers[t];
      && (wr.locked <==> x.lock == ByWriter(t))
      && (forall w :: w in wr.hit ==> w in x.matched && w in x.waiters && wr.new_state in x.waiters[w].states)
      && (wr.Notifying? ==> forall w :: w in wr.todo ==> w in x.waiters && !x.waiters[w].Checked?)
      && (!x.swapped ==>
           && wr.locked
           && (wr.Swapped? ==> wr.hit <= x.listeners + x.open)
           && (wr.Swapped? ==>
               forall w :: w in x.listeners && w in x.waiters && wr.new_state in x.waiters[w].states ==> w in x.matched)
           && (wr.Notifying? ==>
               forall w :: w in wr.todo && w in x.waiters && wr.new_state in x.waiters[w].states ==> w in x.matched))
  }

  ghost predicate Inv(x: Sys) {
    && (forall w {:trigger WaiterOk(x, w)} :: WaiterOk(x, w))
    && (forall t {:trigger WriterOk(x, t)} :: WriterOk(x, t))
    && (forall w :: w in x.listeners || w in x.open || w in x.matched ==> w in x.waiters)
    && x.missed <= x.matched && (!x.swapped ==> x.missed == {})
    && (x.lock.ByWriter? ==> x.lock.t in x.writers) && (x.lock.ByWaiter? ==> x.lock.w in x.waiters)
  }

  // ---- Every step keeps it -----------------------------------------------------------------

  /** A step that touches no writer leaves every promise of a call standing. */
  lemma PendingKept(x: Sys, y: Sys, w: WaiterId)
    requires forall t :: t in x.writers ==> t in y.writers && y.writers[t] == x.writers[t]
    ensures (exists t :: Pending(x, t, w)) ==> exists t :: Pending(y, t, w)
  {
    if t :| Pending(x, t, w) { assert Pending(y, t, w); }
  }

  /** A waiter's own step. */
  lemma WaiterMoves(x: Sys, y: Sys, w: WaiterId)
    requires Inv(x) && y.writers == x.writers && y.state == x.state && y.open == x.open
    requires y.matched == x.matched && y.missed == x.missed && y.swapped == x.swapped
    requires forall v :: v != w ==> (v in x.waiters <==> v in y.waiters) && (v in x.listeners <==> v in y.listeners)
    requires forall v :: v in x.waiters && v != w ==> y.waiters[v] == x.waiters[v]
    requires w in y.waiters && (w in x.waiters ==> y.waiters[w].states == x.waiters[w].states && !y.waiters[w].Checked?)
    requires y.lock == x.lock || (x.lock == Nobody && y.lock == ByWaiter(w))
      || (x.lock == ByWaiter(w) && y.lock == Nobody)
    requires WaiterOk(y, w) && (w in y.listeners && w !in x.listeners ==> x.lock == ByWaiter(w))
    requires w in x.listeners && w !in y.listeners ==> w in x.open
    ensures Inv(y)
  {
    forall v ensures WaiterOk(y, v) {
      assert WaiterOk(x, v);
      PendingKept(x, y, v);
    }
    forall t ensures WriterOk(y, t) { assert WriterOk(x, t); }
  }

  lemma AwaitKeeps(x: Sys, w: WaiterId, states: set<AppState>)
    requires Inv(x) && Next(x, Await(w, states)).Some?
    ensures Inv(Next(x, Await(w, states)).value)
  {
    var y := Next(x, Await(w, states)).value;
    assert WaiterOk(x, w) && w !in x.listeners;
    assert w !in x.open;
    WaiterMoves(x, y, w);
  }

  lemma WaiterStepsKeep(x: Sys, a: Action)
    requires Inv(x) && Next(x, a).Some? && (a.Register? || a.Wake? || a.Remove?)
    ensures Inv(Next(x, a).value)
  {
    assert WaiterOk(x, a.w);
    var y := Next(x, a).value;
    PendingKept(x, y, a.w);
    WaiterMoves(x, y, a.w);
  }

  lemma WrittenKeeps(x: Sys, t: WriterId, v: AppState, locked: bool)
    requires Inv(x) && t !in x.writers && (locked ==> x.lock == Nobody)
    ensures Inv(Written(x, t, v, locked))
  {
    var y := Written(x, t, v, locked);
    if v != x.state {
      assert WriterOk(x, t);
      forall w ensures WaiterOk(y, w) {
        assert WaiterOk(x, w);
        if u :| Pending(x, u, w) { assert Pending(y, u, w); }
        if w in Hit(x, v) { assert Pending(y, t, w); }
      }
      forall u ensures WriterOk(y, u) {
        assert WriterOk(x, u);
        if u == t && locked {
          forall w | w in Hit(x, v) ensures w in x.listeners { assert WaiterOk(x, w); }
          forall w | w in x.listeners && w in x.waiters && v in x.waiters[w].states && !y.swapped
            ensures w in y.matched
          {
            assert WaiterOk(x, w);
          }
        }
      }
    }
  }

  lemma SnapshotKeeps(x: Sys, t: WriterId)
    requires Inv(x) && Next(x, Snapshot(t)).Some?
    ensures Inv(Next(x, Snapshot(t)).value)
  {
    var y := Next(x, Snapshot(t)).value;
    assert WriterOk(x, t);
    assert !x.swapped ==> y.missed == {};
    forall w | w in x.listeners ensures w in x.waiters && !x.waiters[w].Checked? { assert WaiterOk(x, w); }
    forall w ensures WaiterOk(y, w) {
      assert WaiterOk(x, w);
      if u :| Pending(x, u, w) {
        if u != t || w in x.listeners { assert Pending(y, u, w); }
      }
    }
    forall u ensures WriterOk(y, u) { assert WriterOk(x, u); }
  }

  lemma NotifyKeeps(x: Sys, t: WriterId, w: WaiterId)
    requires Inv(x) && Next(x, Notify(t, w)).Some?
    ensures Inv(Next(x, Notify(t, w)).value)
  {
    var y := Next(x, Notify(t, w)).value;
    assert WriterOk(x, t);
    forall v ensures WaiterOk(y, v) {
      assert WaiterOk(x, v);
      if u :| Pending(x, u, v) {
        if u != t || v != w { assert Pending(y, u, v); }
      }
    }
    forall u ensures WriterOk(y, u) { assert WriterOk(x, u); }
  }

  lemma FinishKeeps(x: Sys, t: WriterId)
    requires Inv(x) && Next(x, Finish(t)).Some?
    ensures Inv(Next(x, Finish(t)).value)
  {
    var y := Next(x, Finish(t)).value;
    assert WriterOk(x, t);
    forall v ensures WaiterOk(y, v) {
      assert WaiterOk(x, v);
      if u :| Pending(x, u, v) { assert Pending(y, u, v); }
    }
    forall u ensures WriterOk(y, u) { assert WriterOk(x, u); }
  }

  lemma NextKeeps(x: Sys, a: Action)
    requires Inv(x) && Next(x, a).Some?
    ensures Inv(Next(x, a).value)
  {
    match a
    case Await(w, states) => AwaitKeeps(x, w, states);
    case Register(w) => WaiterStepsKeep(x, a);
    case Wake(w) => WaiterStepsKeep(x, a);
    case Remove(w) => WaiterStepsKeep(x, a);
    case SetState(t, v) => WrittenKeeps(x, t, v, true);
    case CompareAndSet(t, expected, v) => WrittenKeeps(x, t, v, false);
    case Snapshot(t) => SnapshotKeeps(x, t);
    case Notify(t, w) => NotifyKeeps(x, t, w);
    case Finish(t) => FinishKeeps(x, t);
  }

  // ---- Runs --------------------------------------------------------------------------------

  function Run(state: AppState, trace: seq<Action>): (x: Option<Sys>)
    ensures x.Some? ==> Inv(x.value)
  {
    if trace == [] then Some(Start(state))
    else
      var x := Run(state, trace[..|trace| - 1]);
      if x.None? || Next(x.value, trace[|trace| - 1]).None? then None
      else NextKeeps(x.value, trace[|trace| - 1]); Next(x.value, trace[|trace| - 1])
  }

  ghost predicate SettersOnly(trace: seq<Action>) {
    forall a :: a in trace ==> !a.CompareAndSet?
  }

  lemma {:induction false} SettersSwapNothing(state: AppState, trace: seq<Action>)
    requires SettersOnly(trace) && Run(state, trace).Some?
    ensures !Run(state, trace).value.swapped
  {
    if trace != [] {
      SettersSwapNothing(state, trace[..|trace| - 1]);
      assert trace[|trace| - 1] in trace;
    }
  }

  /** No lost wake-up and no spurious one: when only the synchronized setter writes, and no
      write is under way, a waiter's latch is open exactly if one of its states has been
      written since its check. */
  lemma NoLostWakeUp(state: AppState, trace: seq<Action>, w: WaiterId)
    requires SettersOnly(trace) && Run(state, trace).Some?
    requires var x := Run(state, trace).value; x.writers == map[] && w in x.waiters && x.waiters[w].Waiting?
    ensures var x := Run(state, trace).value; (w in x.open <==> w in x.matched)
    ensures var x := Run(state, trace).value; w !in x.open ==> x.state !in x.waiters[w].states
  {
    SettersSwapNothing(state, trace);
    assert WaiterOk(Run(state, trace).value, w);
  }

  /** While a write is under way, the writer still owes a call to every waiter that it has
      written for and whose latch is closed. */
  lemma OverdueIsPending(state: AppState, trace: seq<Action>, w: WaiterId)
    requires SettersOnly(trace) && Run(state, trace).Some?
    requires var x := Run(state, trace).value;
      w in x.waiters && x.waiters[w].Waiting? && w in x.matched && w !in x.open
    ensures exists t :: Pending(Run(state, trace).value, t, w)
  {
    SettersSwapNothing(state, trace);
    assert WaiterOk(Run(state, trace).value, w);
  }

  // ---- What the history says -----------------------------------------------------------------

  /** The position of the waiter's check, -1 if there is none. */
  function CheckAt(trace: seq<Action>, w: WaiterId): int {
    if trace == [] then -1
    else
      var n := |trace| - 1;
      if trace[n].Await? && trace[n].w == w then n else CheckAt(trace[..n], w)
  }

  predicate WritesBy(a: Action, t: WriterId) { (a.SetState? || a.CompareAndSet?) && a.t == t }

  /** The position of the thread's latest write, -1 if there is none. */
  function WriteAt(trace: seq<Action>, t: WriterId): int {
    if trace == [] then -1
    else
      var n := |trace| - 1;
      if WritesBy(trace[n], t) then n else WriteAt(trace[..n], t)
  }

  /** The step puts one of the states in the place of another. */
  predicate Reaches(x: Sys, a: Action, states: set<AppState>) {
    (a.SetState? || (a.CompareAndSet? && a.expected == x.state)) && a.v != x.state && a.v in states
  }

  /** One of the states has been written since the waiter's check. */
  ghost predicate WrittenSince(state: AppState, trace: seq<Action>, w: WaiterId, states: set<AppState>)
    requires Run(state, trace).Some?
  {
    if trace == [] then false
    else
      var n := |trace| - 1;
      !(trace[n].Await? && trace[n].w == w)
        && (Reaches(Run(state, trace[..n]).value, trace[n], states) || WrittenSince(state, trace[..n], w, states))
  }

  predicate IsActive(x: Sys, w: WaiterId) { w in x.waiters && Active(x.waiters[w]) }

  /** Apart from its check, no step makes a waiter active. */
  lemma ActiveBefore(x: Sys, a: Action, w: WaiterId)
    requires Next(x, a).Some? && IsActive(Next(x, a).value, w) && !(a.Await? && a.w == w)
    ensures IsActive(x, w) && x.waiters[w].states == Next(x, a).value.waiters[w].states
  {}

  lemma MatchedStep(x: Sys, a: Action, w: WaiterId)
    requires Next(x, a).Some? && IsActive(x, w)
    ensures w in Next(x, a).value.matched <==> w in x.matched || Reaches(x, a, x.waiters[w].states)
  {}

  /** An active waiter is matched exactly if one of its states has been written since its check. */
  lemma {:induction false} MatchedMeansWritten(state: AppState, trace: seq<Action>, w: WaiterId)
    requires Run(state, trace).Some? && IsActive(Run(state, trace).value, w)
    ensures var x := Run(state, trace).value; w in x.matched <==> WrittenSince(state, trace, w, x.waiters[w].states)
  {
    if trace != [] {
      var n := |trace| - 1;
      var x := Run(state, trace[..n]).value;
      if !(trace[n].Await? && trace[n].w == w) {
        ActiveBefore(x, trace[n], w);
        MatchedStep(x, trace[n], w);
        MatchedMeansWritten(state, trace[..n], w);
      }
    }
  }

  lemma WriterBefore(x: Sys, a: Action, t: WriterId)
    requires Next(x, a).Some? && t in Next(x, a).value.writers && !WritesBy(a, t)
    ensures t in x.writers && x.writers[t].hit == Next(x, a).value.writers[t].hit
    ensures x.writers[t].new_state == Next(x, a).value.writers[t].new_state
  {}

  lemma HitByWrite(x: Sys, a: Action, t: WriterId, w: WaiterId)
    requires Next(x, a).Some? && t in Next(x, a).value.writers && WritesBy(a, t) && IsActive(x, w)
    ensures var y := Next(x, a).value; w in y.writers[t].hit <==> y.writers[t].new_state in x.waiters[w].states
  {}

  /** A write under way was made for an active waiter of its state exactly if it is later than
      the waiter's check. */
  lemma {:induction false} HitMeansLater(state: AppState, trace: seq<Action>, t: WriterId, w: WaiterId)
    requires Run(state, trace).Some? && IsActive(Run(state, trace).value, w) && t in Run(state, trace).value.writers
    requires var x := Run(state, trace).value; x.writers[t].new_state in x.waiters[w].states
    ensures w in Run(state, trace).value.writers[t].hit <==> CheckAt(trace, w) < WriteAt(trace, t)
  {
    var n := |trace| - 1;
    var x, a := Run(state, trace[..n]).value, trace[n];
    if a.Await? && a.w == w {
      WriterBefore(x, a, t);
      Earlier(trace[..n], t, w);
      assert WriterOk(x, t);
    } else {
      ActiveBefore(x, a, w);
      if WritesBy(a, t) {
        HitByWrite(x, a, t, w);
        Earlier(trace[..n], t, w);
      } else {
        WriterBefore(x, a, t);
        HitMeansLater(state, trace[..n], t, w);
      }
    }
  }

  lemma {:induction false} Earlier(trace: seq<Action>, t: WriterId, w: WaiterId)
    ensures CheckAt(trace, w) < |trace| && WriteAt(trace, t) < |trace|
  {
    if trace != [] { Earlier(trace[..|trace| - 1], t, w); }
  }

  /** Step `k` is the call of writer `t` that opens the waiter's latch. */
  ghost predicate Opens(state: AppState, trace: seq<Action>, k: nat, t: WriterId, w: WaiterId) {
    && k < |trace| && trace[k] == Notify(t, w) && Run(state, trace[..k]).Some?
    && w !in Run(state, trace[..k]).value.open && Run(state, trace[..k + 1]).Some?
       && w in Run(state, trace[..k + 1]).value.open
  }

  lemma {:induction false} OpenedOnce(state: AppState, trace: seq<Action>, w: WaiterId) returns (k: nat, t: WriterId)
    requires Run(state, trace).Some? && w in Run(state, trace).value.open
    ensures Opens(state, trace, k, t, w)
  {
    var n := |trace| - 1;
    if w in Run(state, trace[..n]).value.open {
      k, t := OpenedOnce(state, trace[..n], w);
      assert trace[..n][..k] == trace[..k] && trace[..n][..k + 1] == trace[..k + 1];
    } else {
      k, t := n, trace[n].t;
      assert trace[..n + 1] == trace;
    }
  }

  lemma WaitersStay(x: Sys, a: Action, w: WaiterId)
    requires Next(x, a).Some?
    ensures w in x.waiters ==> w in Next(x, a).value.waiters
    ensures w in x.matched ==> w in Next(x, a).value.matched
  {}

  lemma {:induction false} StaysKnown(state: AppState, trace: seq<Action>, k: nat, w: WaiterId)
    requires k <= |trace| && Run(state, trace).Some?
    ensures Run(state, trace[..k]).Some?
    ensures var x, y := Run(state, trace[..k]).value, Run(state, trace).value;
      (w in x.waiters ==> w in y.waiters) && (w in x.matched ==> w in y.matched)
    decreases |trace|
  {
    if k == |trace| {
      assert trace[..k] == trace;
    } else {
      var n := |trace| - 1;
      assert trace[..n][..k] == trace[..k];
      StaysKnown(state, trace[..n], k, w);
      WaitersStay(Run(state, trace[..n]).value, trace[n], w);
    }
  }

  /** A waiter that is active and was known before has been active since. */
  lemma {:induction false} ActiveSince(state: AppState, trace: seq<Action>, k: nat, w: WaiterId)
    requires k <= |trace| && Run(state, trace).Some? && IsActive(Run(state, trace).value, w)
    requires Run(state, trace[..k]).Some? && w in Run(state, trace[..k]).value.waiters
    ensures IsActive(Run(state, trace[..k]).value, w) && CheckAt(trace[..k], w) == CheckAt(trace, w)
    ensures Run(state, trace[..k]).value.waiters[w].states == Run(state, trace).value.waiters[w].states
    decreases |trace|
  {
    if k == |trace| {
      assert trace[..k] == trace;
    } else {
      ActiveBeforeLast(state, trace, k, w);
      ActiveSince(state, trace[..|trace| - 1], k, w);
    }
  }

  lemma ActiveBeforeLast(state: AppState, trace: seq<Action>, k: nat, w: WaiterId)
    requires k < |trace| && Run(state, trace).Some? && IsActive(Run(state, trace).value, w)
    requires Run(state, trace[..k]).Some? && w in Run(state, trace[..k]).value.waiters
    ensures var before := trace[..|trace| - 1];
      && before[..k] == trace[..k] && CheckAt(before, w) == CheckAt(trace, w)
      && Run(state, before).Some? && IsActive(Run(state, before).value, w)
      && Run(state, before).value.waiters[w].states == Run(state, trace).value.waiters[w].states
  {
    var n := |trace| - 1;
    assert trace[..n][..k] == trace[..k];
    StaysKnown(state, trace[..n], k, w);
    NotNew(Run(state, trace[..n]).value, trace[n], w);
  }

  lemma NotNew(x: Sys, a: Action, w: WaiterId)
    requires Next(x, a).Some? && w in x.waiters && IsActive(Next(x, a).value, w)
    ensures !(a.Await? && a.w == w) && IsActive(x, w) && x.waiters[w].states == Next(x, a).value.waiters[w].states
  {}

  lemma NewWaiter(x: Sys, a: Action, w: WaiterId)
    requires Next(x, a).Some? && w in Next(x, a).value.waiters && w !in x.waiters
    ensures a.Await? && a.w == w
  {}

  lemma {:induction false} HasChecked(state: AppState, trace: seq<Action>, w: WaiterId)
    requires Run(state, trace).Some? && w in Run(state, trace).value.waiters
    ensures CheckAt(trace, w) >= 0
  {
    var n := |trace| - 1;
    if w in Run(state, trace[..n]).value.waiters {
      HasChecked(state, trace[..n], w);
    } else {
      NewWaiter(Run(state, trace[..n]).value, trace[n], w);
    }
  }

  /** The waiter found one of its states at its check, or has to wait for its latch. */
  ghost predicate Decided(x: Sys, w: WaiterId, found: bool) {
    && w in x.waiters
    && if found then x.waiters[w].Done? && w !in x.listeners else Active(x.waiters[w]) || w in x.open
  }

  lemma DecidedStep(x: Sys, a: Action, w: WaiterId, found: bool)
    requires Next(x, a).Some? && Decided(x, w, found)
    ensures Decided(Next(x, a).value, w, found) && Next(x, a).value.waiters[w].states == x.waiters[w].states
    ensures !(a.Await? && a.w == w)
  {}

  lemma DecidedFirst(x: Sys, a: Action, w: WaiterId)
    requires Inv(x) && Next(x, a).Some? && w !in x.waiters && w in Next(x, a).value.waiters
    ensures a == Await(w, Next(x, a).value.waiters[w].states)
    ensures Decided(Next(x, a).value, w, x.state in a.states)
  {
    assert WaiterOk(x, w);
  }

  /** A waiter that finds one of its states at its check is done with that; any other one
      returns only once its latch is open. */
  lemma {:induction false} CheckDecides(state: AppState, trace: seq<Action>, w: WaiterId)
    requires Run(state, trace).Some? && w in Run(state, trace).value.waiters
    ensures var x, c := Run(state, trace).value, CheckAt(trace, w);
      && 0 <= c < |trace| && Run(state, trace[..c]).Some? && trace[c] == Await(w, x.waiters[w].states)
      && Decided(x, w, Run(state, trace[..c]).value.state in x.waiters[w].states)
  {
    var n := |trace| - 1;
    var before := Run(state, trace[..n]).value;
    if w in before.waiters {
      CheckDecides(state, trace[..n], w);
      var c := CheckAt(trace[..n], w);
      assert trace[..n][..c] == trace[..c];
      DecidedStep(before, trace[n], w, Run(state, trace[..c]).value.state in before.waiters[w].states);
    } else {
      DecidedFirst(before, trace[n], w);
    }
  }

  /** What the writes alone make of the state: a compare-and-set counts if it finds what it expects. */
  function LatestState(state: AppState, trace: seq<Action>): AppState {
    if trace == [] then state
    else
      var before := LatestState(state, trace[..|trace| - 1]);
      match trace[|trace| - 1]
      case SetState(_, v) => v
      case CompareAndSet(_, expected, v) => if before == expected then v else before
      case _ => before
  }

  lemma StateStep(x: Sys, a: Action)
    requires Next(x, a).Some?
    ensures Next(x, a).value.state == match a
                                      case SetState(_, v) => v
                                      case CompareAndSet(_, expected, v) => if x.state == expected then v else x.state
                                      case _ => x.state
  {}

  lemma {:induction false} StateIsLatest(state: AppState, trace: seq<Action>)
    requires Run(state, trace).Some?
    ensures Run(state, trace).value.state == LatestState(state, trace)
  {
    if trace != [] {
      var before := trace[..|trace| - 1];
      StateIsLatest(state, before);
      StateStep(Run(state, before).value, trace[|trace| - 1]);
    }
  }

  /** A waiter whose latch was opened although none of its states has been written since its check
      was woken by a writer that had its value in place before the check. */
  lemma SpuriousIsLate(state: AppState, trace: seq<Action>, w: WaiterId) returns (k: nat, t: WriterId)
    requires Run(state, trace).Some? && IsActive(Run(state, trace).value, w) && w in Run(state, trace).value.open
    ensures Opens(state, trace, k, t, w)
    ensures var x := Run(state, trace).value;
      !WrittenSince(state, trace, w, x.waiters[w].states) ==> WriteAt(trace[..k], t) < CheckAt(trace, w)
  {
    k, t := OpenedOnce(state, trace, w);
    var y := Run(state, trace[..k]).value;
    assert trace[..k + 1][..k] == trace[..k];
    ActiveSince(state, trace, k, w);
    StaysKnown(state, trace, k, w);
    HitMeansLater(state, trace[..k], t, w);
    assert WriterOk(y, t);
    MatchedMeansWritten(state, trace, w);
    HasChecked(state, trace, w);
    DifferentSteps(trace[..k], t, w);
  }

  lemma {:induction false} DifferentSteps(trace: seq<Action>, t: WriterId, w: WaiterId)
    ensures CheckAt(trace, w) == WriteAt(trace, t) ==> CheckAt(trace, w) == -1
  {
    if trace != [] {
      DifferentSteps(trace[..|trace| - 1], t, w);
      Earlier(trace[..|trace| - 1], t, w);
    }
  }

  // ---- Who is woken for nothing --------------------------------------------------------------

  /** The thread has put one of the states in place and not yet read the listeners. */
  ghost predicate IsReady(x: Sys, t: WriterId, states: set<AppState>) {
    t in x.writers && x.writers[t].Swapped? && x.writers[t].new_state in states
  }

  /** No writer of one of the states under way can open the waiter's latch. */
  ghost predicate Undisturbed(x: Sys, w: WaiterId, states: set<AppState>) {
    && w in x.waiters && x.waiters[w].states == states && w !in x.open
    && forall t :: t in x.writers && x.writers[t].new_state in states ==>
         x.writers[t].Notifying? && w !in x.writers[t].todo
  }

  lemma UndisturbedStep(x: Sys, a: Action, w: WaiterId, states: set<AppState>)
    requires Undisturbed(x, w, states) && Next(x, a).Some? && !Reaches(x, a, states)
    ensures Undisturbed(Next(x, a).value, w, states)
  {}

  lemma {:induction false} StaysUndisturbed(state: AppState, trace: seq<Action>, more: seq<Action>, w: WaiterId,
      states: set<AppState>)
    requires Run(state, trace).Some? && Undisturbed(Run(state, trace).value, w, states)
    requires Run(state, trace + more).Some? && !WrittenSince(state, trace + more, w, states)
    ensures Undisturbed(Run(state, trace + more).value, w, states)
    decreases |more|
  {
    if more == [] {
      assert trace + more == trace;
    } else {
      var n, all := |more| - 1, trace + more;
      assert all[..|all| - 1] == trace + more[..n] && all[|all| - 1] == more[n];
      StaysKnown(state, trace + more[..n], |trace|, w);
      assert (trace + more[..n])[..|trace|] == trace;
      StaysUndisturbed(state, trace, more[..n], w, states);
      UndisturbedStep(Run(state, trace + more[..n]).value, more[n], w, states);
    }
  }

  /** The waiter registers, then the thread reads the listeners and calls it. */
  lemma ThenCalled(state: AppState, trace: seq<Action>, w: WaiterId, t: WriterId, states: set<AppState>)
    requires Run(state, trace).Some?
    requires var x := Run(state, trace).value;
      w in x.waiters && x.waiters[w] == Checked(states) && IsReady(x, t, states)
    requires !WrittenSince(state, trace, w, states)
    ensures var all := trace + ([Register(w)] + [Snapshot(t)] + [Notify(t, w)]);
      && Run(state, all).Some? && w in Run(state, all).value.open && !WrittenSince(state, all, w, states)
  {
    var x := Run(state, trace).value;
    var x1 := Next(x, Register(w)).value;
    var x2 := Next(x1, Snapshot(t)).value;
    var x3 := Next(x2, Notify(t, w)).value;
    var t1 := trace + [Register(w)];
    var t2 := t1 + [Snapshot(t)];
    NoWriteOn(state, trace, Register(w), x, x1, w, states);
    NoWriteOn(state, t1, Snapshot(t), x1, x2, w, states);
    NoWriteOn(state, t2, Notify(t, w), x2, x3, w, states);
    assert trace + ([Register(w)] + [Snapshot(t)] + [Notify(t, w)]) == t2 + [Notify(t, w)];
  }

  lemma NoWriteOn(state: AppState, trace: seq<Action>, a: Action, x: Sys, y: Sys, w: WaiterId, states: set<AppState>)
    requires Run(state, trace) == Some(x) && Next(x, a) == Some(y)
    requires !WrittenSince(state, trace, w, states) && (a.Register? || a.Snapshot? || a.Notify?)
    ensures Run(state, trace + [a]) == Some(y) && !WrittenSince(state, trace + [a], w, states)
  {
    assert (trace + [a])[..|trace|] == trace;
  }

  /** The run goes on so that the waiter's latch opens with none of its states written since its check. */
  ghost predicate WokenForNothing(state: AppState, trace: seq<Action>, more: seq<Action>, w: WaiterId,
      states: set<AppState>)
  {
    && Run(state, trace + more).Some? && w in Run(state, trace + more).value.open
    && !WrittenSince(state, trace + more, w, states)
  }

  /** A waiter that has checked, and not yet registered, can be woken for nothing exactly if some
      thread has one of its states in place and has not yet read the listeners. */
  lemma SpuriousExactly(state: AppState, trace: seq<Action>, w: WaiterId, states: set<AppState>)
    requires Run(state, trace).Some? && !WrittenSince(state, trace, w, states)
    requires var x := Run(state, trace).value; w in x.waiters && x.waiters[w] == Checked(states)
    ensures (exists more :: WokenForNothing(state, trace, more, w, states)) <==>
      exists t :: IsReady(Run(state, trace).value, t, states)
  {
    var x := Run(state, trace).value;
    assert WaiterOk(x, w);
    if t :| IsReady(x, t, states) {
      ThenCalled(state, trace, w, t, states);
      assert WokenForNothing(state, trace, [Register(w)] + [Snapshot(t)] + [Notify(t, w)], w, states);
    } else {
      forall t | t in x.writers && x.writers[t].new_state in states
        ensures x.writers[t].Notifying? && w !in x.writers[t].todo
      {
        assert WriterOk(x, t) && !IsReady(x, t, states);
      }
      forall more ensures !WokenForNothing(state, trace, more, w, states) {
        if WokenForNothing(state, trace, more, w, states) { StaysUndisturbed(state, trace, more, w, states); }
      }
    }
  }

  // ---- Who is overlooked ---------------------------------------------------------------------

  /** Thread `t`, having written one of the waiter's states since its check, reads the listeners
      at step `s`, before the waiter has registered. */
  ghost predicate OverlookedAt(state: AppState, trace: seq<Action>, w: WaiterId, s: nat, t: WriterId) {
    && s < |trace| && trace[s] == Snapshot(t) && Run(state, trace[..s]).Some?
    && CheckAt(trace[..s], w) < WriteAt(trace[..s], t)
    && var x := Run(state, trace[..s]).value;
       w in x.waiters && x.waiters[w].Checked? && IsReady(x, t, x.waiters[w].states)
  }

  ghost predicate Overlooked(state: AppState, trace: seq<Action>, w: WaiterId) {
    exists s: nat, t :: OverlookedAt(state, trace, w, s, t)
  }

  /** The step reads the listeners for a write that concerns the waiter, which has not registered. */
  ghost predicate Overlooks(x: Sys, a: Action, w: WaiterId) {
    && a.Snapshot? && a.t in x.writers && w in x.writers[a.t].hit
    && w in x.waiters && x.waiters[w].Checked?
  }

  lemma MissedStep(x: Sys, a: Action, w: WaiterId)
    requires Inv(x) && Next(x, a).Some? && IsActive(x, w)
    ensures w in Next(x, a).value.missed <==> w in x.missed || Overlooks(x, a, w)
  {
    assert WaiterOk(x, w);
    if a.Snapshot? { assert WriterOk(x, a.t); }
  }

  lemma {:induction false} MissedMeansOverlooked(state: AppState, trace: seq<Action>, w: WaiterId)
    requires Run(state, trace).Some? && IsActive(Run(state, trace).value, w)
    ensures w in Run(state, trace).value.missed <==> Overlooked(state, trace, w)
  {
    if trace != [] {
      var n := |trace| - 1;
      var x, a := Run(state, trace[..n]).value, trace[n];
      if a.Await? && a.w == w {
        NotYetOverlooked(state, trace, w);
      } else {
        ActiveBefore(x, a, w);
        MissedStep(x, a, w);
        MissedMeansOverlooked(state, trace[..n], w);
        LastOverlooked(state, trace, w);
      }
    }
  }

  lemma NotYetOverlooked(state: AppState, trace: seq<Action>, w: WaiterId)
    requires trace != [] && Run(state, trace).Some?
    requires var a := trace[|trace| - 1]; a.Await? && a.w == w
    ensures !Overlooked(state, trace, w)
  {
    if s: nat, t :| OverlookedAt(state, trace, w, s, t) {
      if s < |trace| - 1 { KnownBefore(state, trace, s, w); }
    }
  }

  lemma KnownBefore(state: AppState, trace: seq<Action>, s: nat, w: WaiterId)
    requires s < |trace| && Run(state, trace).Some? && Run(state, trace[..s]).Some?
    requires w in Run(state, trace[..s]).value.waiters
    ensures w in Run(state, trace[..|trace| - 1]).value.waiters
  {
    var n := |trace| - 1;
    assert trace[..n][..s] == trace[..s];
    StaysKnown(state, trace[..n], s, w);
  }

  lemma OverlookedBefore(state: AppState, trace: seq<Action>, w: WaiterId, s: nat, t: WriterId)
    requires s < |trace| - 1
    ensures OverlookedAt(state, trace, w, s, t) <==> OverlookedAt(state, trace[..|trace| - 1], w, s, t)
  {
    assert trace[..|trace| - 1][..s] == trace[..s];
  }

  /** The last step overlooks the waiter. */
  lemma OverlookedNow(state: AppState, trace: seq<Action>, w: WaiterId, t: WriterId)
    requires trace != [] && Run(state, trace).Some? && IsActive(Run(state, trace[..|trace| - 1]).value, w)
    ensures var n := |trace| - 1;
      OverlookedAt(state, trace, w, n, t) <==>
        trace[n] == Snapshot(t) && Overlooks(Run(state, trace[..n]).value, trace[n], w)
  {
    var n := |trace| - 1;
    var x := Run(state, trace[..n]).value;
    if trace[n] == Snapshot(t) {
      assert WriterOk(x, t);
      if x.writers[t].new_state in x.waiters[w].states { HitMeansLater(state, trace[..n], t, w); }
    }
  }

  lemma StillOverlooked(state: AppState, trace: seq<Action>, w: WaiterId)
    requires trace != [] && Overlooked(state, trace[..|trace| - 1], w)
    ensures Overlooked(state, trace, w)
  {
    var s: nat, t :| OverlookedAt(state, trace[..|trace| - 1], w, s, t);
    OverlookedBefore(state, trace, w, s, t);
  }

  lemma FirstOverlooked(state: AppState, trace: seq<Action>, w: WaiterId)
    requires trace != [] && Run(state, trace).Some? && IsActive(Run(state, trace[..|trace| - 1]).value, w)
    requires Overlooked(state, trace, w) && !Overlooked(state, trace[..|trace| - 1], w)
    ensures Overlooks(Run(state, trace[..|trace| - 1]).value, trace[|trace| - 1], w)
  {
    var s: nat, t :| OverlookedAt(state, trace, w, s, t);
    if s < |trace| - 1 { OverlookedBefore(state, trace, w, s, t); } else { OverlookedNow(state, trace, w, t); }
  }

  lemma LastOverlooked(state: AppState, trace: seq<Action>, w: WaiterId)
    requires trace != [] && Run(state, trace).Some? && IsActive(Run(state, trace[..|trace| - 1]).value, w)
    ensures var n := |trace| - 1;
      Overlooked(state, trace, w) <==>
        Overlooked(state, trace[..n], w) || Overlooks(Run(state, trace[..n]).value, trace[n], w)
  {
    if Overlooked(state, trace[..|trace| - 1], w) {
      StillOverlooked(state, trace, w);
    } else if Overlooked(state, trace, w) {
      FirstOverlooked(state, trace, w);
    } else if trace[|trace| - 1].Snapshot? {
      OverlookedNow(state, trace, w, trace[|trace| - 1].t);
    }
  }

  /** With compare-and-set as well, a waiter is left waiting past one of its states exactly if a
      writer of such a state, having written it since the waiter's check, read the listeners before
      the waiter had registered. */
  lemma OnlyTheGapLosesWakeUps(state: AppState, trace: seq<Action>, w: WaiterId)
    requires Run(state, trace).Some?
    requires var x := Run(state, trace).value;
      x.writers == map[] && w in x.waiters && x.waiters[w].Waiting? && w !in x.open
    ensures var x := Run(state, trace).value; w in x.matched <==> w in x.missed
    ensures var x := Run(state, trace).value;
      WrittenSince(state, trace, w, x.waiters[w].states) <==> Overlooked(state, trace, w)
  {
    assert WaiterOk(Run(state, trace).value, w);
    MatchedMeansWritten(state, trace, w);
    MissedMeansOverlooked(state, trace, w);
  }

  // ---- The two ways a compare-and-set misleads a waiter --------------------------------------

  lemma RunOn(state: AppState, trace: seq<Action>, a: Action, x: Sys, y: Sys)
    requires Run(state, trace) == Some(x) && Next(x, a) == Some(y)
    ensures Run(state, trace + [a]) == Some(y)
  {
    assert (trace + [a])[..|trace|] == trace;
  }

  /** A waiter has checked, and the state has been swapped under it. */
  function Overtaken(): Sys {
    Sys(RUNNING, ByWaiter(0), map[0 := Checked({RUNNING})], {}, {}, map[0 := Swapped(RUNNING, {0}, false)], {0}, {},
        true)
  }

  /** A waiter has checked that it has to wait. */
  function Waited(): Sys { Sys(UNKNOWN, ByWaiter(0), map[0 := Checked({RUNNING})], {}, {}, map[], {}, {}, false) }

  lemma Checking()
    ensures Run(UNKNOWN, [Await(0, {RUNNING})]) == Some(Waited())
  {
    RunOn(UNKNOWN, [], Await(0, {RUNNING}), Start(UNKNOWN), Waited());
    assert [] + [Await(0, {RUNNING})] == [Await(0, {RUNNING})];
  }

  lemma Swapping()
    ensures Next(Waited(), CompareAndSet(0, UNKNOWN, RUNNING)) == Some(Overtaken())
  {
    var x := Waited();
    assert Hit(x, RUNNING) == {0} && {} + {0} == {0};
    assert x.writers[0 := Swapped(RUNNING, {0}, false)] == Overtaken().writers;
  }

  lemma Overtaking()
    ensures Run(UNKNOWN, [Await(0, {RUNNING})] + [CompareAndSet(0, UNKNOWN, RUNNING)]) == Some(Overtaken())
  {
    Checking();
    Swapping();
    RunOn(UNKNOWN, [Await(0, {RUNNING})], CompareAndSet(0, UNKNOWN, RUNNING), Waited(), Overtaken());
  }

  /** The swapping thread finds no listener, and only then the waiter registers. */
  lemma Overlooking()
    ensures Run(UNKNOWN, [Await(0, {RUNNING})] + [CompareAndSet(0, UNKNOWN, RUNNING)] + [Snapshot(0)] + [Register(0)])
      == Some(Sys(RUNNING, Nobody, map[0 := Waiting({RUNNING})], {0}, {},
          map[0 := Notifying(RUNNING, {}, {0}, false)], {0}, {0}, true))
  {
    Overtaking();
    var t2 := [Await(0, {RUNNING})] + [CompareAndSet(0, UNKNOWN, RUNNING)];
    var x2 := Overtaken();
    var x3 := x2.(writers := map[0 := Notifying(RUNNING, {}, {0}, false)], missed := {0});
    assert x2.writers[0 := Notifying(RUNNING, {}, {0}, false)] == x3.writers;
    assert x2.missed + (x2.writers[0].hit - x2.listeners - x2.open) == {0};
    RunOn(UNKNOWN, t2, Snapshot(0), x2, x3);
    var x4 := x3.(waiters := map[0 := Waiting({RUNNING})], lock := Nobody, listeners := {0});
    assert x3.waiters[0 := Waiting({RUNNING})] == x4.waiters && x3.listeners + {0} == {0};
    RunOn(UNKNOWN, t2 + [Snapshot(0)], Register(0), x3, x4);
  }

  /** The state is swapped between a waiter's check and its registration: it waits although the
      state it waits for is there. */
  lemma LostWakeUp() returns (trace: seq<Action>)
    ensures Run(UNKNOWN, trace).Some?
    ensures var x := Run(UNKNOWN, trace).value;
      x.writers == map[] && x.waiters == map[0 := Waiting({RUNNING})] && x.state == RUNNING && x.open == {}
  {
    Overlooking();
    var t4 := [Await(0, {RUNNING})] + [CompareAndSet(0, UNKNOWN, RUNNING)] + [Snapshot(0)] + [Register(0)];
    var x4 := Run(UNKNOWN, t4).value;
    assert x4.writers - {0} == map[];
    RunOn(UNKNOWN, t4, Finish(0), x4, x4.(writers := map[]));
    trace := t4 + [Finish(0)];
  }

  // Two swaps before a waiter's check, the first of which is announced only after it has registered.

  function SwappedOnce(): Sys {
    Sys(RUNNING, Nobody, map[], {}, {}, map[0 := Swapped(RUNNING, {}, false)], {}, {}, true)
  }

  function SwappedBack(writers: map<WriterId, Writer>): Sys { Sys(AUTH, Nobody, map[], {}, {}, writers, {}, {}, true) }

  const LATE := Writer.Swapped(RUNNING, {}, false)

  function Asleep(waiter: Waiter, lock: Holder, listeners: set<WaiterId>): Sys {
    Sys(AUTH, lock, map[0 := waiter], listeners, {}, map[0 := LATE], {}, {}, true)
  }

  lemma SwapsFirst()
    ensures Run(AUTH, [] + [CompareAndSet(0, AUTH, RUNNING)] + [CompareAndSet(1, RUNNING, AUTH)])
      == Some(SwappedBack(map[0 := LATE, 1 := Writer.Swapped(AUTH, {}, false)]))
  {
    var nobody: set<WaiterId> := {};
    assert Hit(Start(AUTH), RUNNING) == nobody && nobody + nobody == nobody;
    RunOn(AUTH, [], CompareAndSet(0, AUTH, RUNNING), Start(AUTH), SwappedOnce());
    var x := SwappedOnce();
    assert Hit(x, AUTH) == nobody;
    assert x.writers[1 := Writer.Swapped(AUTH, {}, false)] == map[0 := LATE, 1 := Writer.Swapped(AUTH, {}, false)];
    RunOn(AUTH, [] + [CompareAndSet(0, AUTH, RUNNING)], CompareAndSet(1, RUNNING, AUTH), x,
          SwappedBack(map[0 := LATE, 1 := Writer.Swapped(AUTH, {}, false)]));
  }

  lemma SecondAnnounced(t: seq<Action>)
    requires Run(AUTH, t) == Some(SwappedBack(map[0 := LATE, 1 := Writer.Swapped(AUTH, {}, false)]))
    ensures Run(AUTH, t + [Snapshot(1)] + [Finish(1)]) == Some(SwappedBack(map[0 := LATE]))
  {
    var x := SwappedBack(map[0 := LATE, 1 := Writer.Swapped(AUTH, {}, false)]);
    var y := SwappedBack(map[0 := LATE, 1 := Notifying(AUTH, {}, {}, false)]);
    assert x.writers[1 := Notifying(AUTH, {}, {}, false)] == y.writers;
    var nobody: set<WaiterId> := {};
    assert nobody + (nobody - nobody - nobody) == nobody;
    RunOn(AUTH, t, Snapshot(1), x, y);
    assert y.writers - {1} == map[0 := LATE];
    RunOn(AUTH, t + [Snapshot(1)], Finish(1), y, SwappedBack(map[0 := LATE]));
  }

  lemma ThenAsleep(t: seq<Action>)
    requires Run(AUTH, t) == Some(SwappedBack(map[0 := LATE]))
    ensures Run(AUTH, t + [Await(0, {RUNNING})] + [Register(0)]) == Some(Asleep(Waiting({RUNNING}), Nobody, {0}))
  {
    var x, y := SwappedBack(map[0 := LATE]), Asleep(Checked({RUNNING}), ByWaiter(0), {});
    RunOn(AUTH, t, Await(0, {RUNNING}), x, y);
    var nobody: set<WaiterId> := {};
    assert nobody + {0} == {0} && y.waiters[0 := Waiting({RUNNING})] == map[0 := Waiting({RUNNING})];
    RunOn(AUTH, t + [Await(0, {RUNNING})], Register(0), y, Asleep(Waiting({RUNNING}), Nobody, {0}));
  }

  lemma ThenWoken(t: seq<Action>)
    requires Run(AUTH, t) == Some(Asleep(Waiting({RUNNING}), Nobody, {0}))
    ensures Run(AUTH, t + [Snapshot(0)] + [Notify(0, 0)])
      == Some(Asleep(Waiting({RUNNING}), Nobody, {0}).(open := {0},
          writers := map[0 := Notifying(RUNNING, {}, {}, false)]))
  {
    var x := Asleep(Waiting({RUNNING}), Nobody, {0});
    var y := x.(writers := map[0 := Notifying(RUNNING, {0}, {}, false)]);
    var nobody: set<WaiterId> := {};
    assert x.writers[0 := Notifying(RUNNING, {0}, {}, false)] == y.writers
        && nobody + (nobody - {0} - nobody) == nobody;
    RunOn(AUTH, t, Snapshot(0), x, y);
    assert y.writers[0 := Notifying(RUNNING, {}, {}, false)] == map[0 := Notifying(RUNNING, {}, {}, false)];
    assert {0} - {0} == nobody && nobody + {0} == {0};
    RunOn(AUTH, t + [Snapshot(0)], Notify(0, 0), y, y.(open := {0},
        writers := map[0 := Notifying(RUNNING, {}, {}, false)]));
  }

  /** A run in which a waiter is woken although none of its states has been there since its check. */
  lemma SpuriousWakeUp() returns (trace: seq<Action>)
    ensures Run(AUTH, trace).Some?
    ensures var x := Run(AUTH, trace).value;
      x.waiters == map[0 := Waiting({RUNNING})] && x.state == AUTH && 0 in x.open && 0 !in x.matched
  {
    var t2 := [] + [CompareAndSet(0, AUTH, RUNNING)] + [CompareAndSet(1, RUNNING, AUTH)];
    SwapsFirst();
    SecondAnnounced(t2);
    var t4 := t2 + [Snapshot(1)] + [Finish(1)];
    ThenAsleep(t4);
    var t6 := t4 + [Await(0, {RUNNING})] + [Register(0)];
    ThenWoken(t6);
    trace := t6 + [Snapshot(0)] + [Notify(0, 0)];
  }

  // ---- The descriptor as an object -----------------------------------------------------------

  /** A one-shot latch that a matching state opens. */
  class Latch {
    const states: set<AppState>
    var open: bool

    constructor (states: set<AppState>)
      ensures this.states == states && !open
    {
      this.states, open := states, false;
    }

    method PropertyChange(new_state: AppState)
      modifies this
      ensures open == (old(open) || new_state in states)
    {
      if new_state in states { open := true; }
    }
  }

  class ApplicationDescriptor {
    var state: AppState
    var listeners: seq<Latch>

    constructor ()
      ensures state == UNKNOWN && listeners == []
    {
      state, listeners := UNKNOWN, [];
    }

    /** Calls every listener if the value has changed. */
    method FirePropertyChange(old_state: AppState, new_state: AppState)
      modifies listeners
      ensures forall l :: l in listeners ==>
        l.open == (old(l.open) || (old_state != new_state && new_state in l.states))
    {
      if old_state != new_state {
        for k := 0 to |listeners|
          invariant forall l :: l in listeners ==>
            l.open == (old(l.open) || (l in listeners[..k] && new_state in l.states))
        {
          listeners[k].PropertyChange(new_state);
        }
      }
    }

    method SetApplicationState(new_state: AppState)
      modifies this`state, listeners
      ensures state == new_state
      ensures forall l :: l in listeners ==>
        l.open == (old(l.open) || (old(state) != new_state && new_state in l.states))
    {
      var old_state := state;
      state := new_state;
      FirePropertyChange(old_state, new_state);
    }

    method CompareAndSetApplicationState(expected: AppState, new_state: AppState) returns (successful: bool)
      modifies this`state, listeners
      ensures successful == (old(state) == expected) && state == if successful then new_state else old(state)
      ensures forall l :: l in listeners ==>
        l.open == (old(l.open) || (successful && expected != new_state && new_state in l.states))
    {
      successful := state == expected;
      if successful {
        state := new_state;
        FirePropertyChange(expected, new_state);
      }
    }

    /** The locked section of `awaitAnyOfStates`: registers a latch unless a state is reached. */
    method CheckOrRegister(states: set<AppState>) returns (latch: Latch?)
      modifies this`listeners
      ensures latch == null <==> state in states
      ensures if latch == null then listeners == old(listeners)
              else fresh(latch) && latch.states == states && !latch.open && listeners == old(listeners) + [latch]
    {
      latch := null;
      if state !in states {
        latch := new Latch(states);
        listeners := listeners + [latch];
      }
    }
  }

  /** The synchronized setter, once it holds the lock, runs to its end whatever else is
      registered: all its steps together write the state and open the matching latches. */
  lemma SetterAlone(x: Sys, t: WriterId, v: AppState) returns (acts: seq<Action>, y: Sys)
    requires Inv(x) && x.lock == Nobody && t !in x.writers && v != x.state
    ensures Performs(x, [SetState(t, v), Snapshot(t)] + acts, y)
    ensures y.state == v && y.lock == Nobody && y.writers == x.writers && y.listeners == x.listeners
    ensures y.open == x.open + set w | w in x.listeners && w in x.waiters && v in x.waiters[w].states
  {
    var a := Next(x, SetState(t, v)).value;
    NextKeeps(x, SetState(t, v));
    var b := Next(a, Snapshot(t)).value;
    NextKeeps(a, Snapshot(t));
    acts, y := NotifyAll(b, t);
    var all := [SetState(t, v), Snapshot(t)] + acts;
    assert all[1..] == [Snapshot(t)] + acts && all[1..][1..] == acts;
    assert Performs(a, all[1..], y);
    assert y.writers == x.writers;
  }

  /** Whoever holds the lock, a waiter whose latch is open returns by steps of its own. */
  lemma OpenReturns(x: Sys, w: WaiterId) returns (acts: seq<Action>, y: Sys)
    requires w in x.waiters && x.waiters[w].Waiting? && w in x.open
    ensures Performs(x, acts, y) && y.state == x.state && y.writers == x.writers && y.lock == x.lock
    ensures y.waiters == x.waiters[w := Done(x.waiters[w].states)] && y.listeners == x.listeners - {w}
  {
    acts := [Wake(w), Remove(w)];
    var a := Next(x, Wake(w)).value;
    y := Next(a, Remove(w)).value;
    assert acts[1..] == [Remove(w)] && acts[1..][1..] == [];
    assert Performs(a, acts[1..], y);
  }

  lemma {:induction false} PerformsOn(x: Sys, a: seq<Action>, y: Sys, b: seq<Action>, z: Sys)
    requires Performs(x, a, y) && Performs(y, b, z)
    ensures Performs(x, a + b, z)
    decreases |a|
  {
    if a == [] {
      assert a + b == b;
    } else {
      PerformsOn(Next(x, a[0]).value, a[1..], y, b, z);
      assert (a + b)[1..] == a[1..] + b;
    }
  }

  /** The thread that writes for the waiter reads the listeners, if it has not, and calls it. */
  lemma PendingOpens(x: Sys, t: WriterId, w: WaiterId) returns (acts: seq<Action>, y: Sys)
    requires Inv(x) && !x.swapped && w in x.waiters && x.waiters[w].Waiting? && w !in x.open && Pending(x, t, w)
    ensures Performs(x, acts, y) && y.state == x.state && y.waiters == x.waiters && w in y.open
    ensures forall a :: a in acts ==> a in [Snapshot(t), Notify(t, w)]
  {
    assert WriterOk(x, t);
    var z := x;
    acts := [];
    if x.writers[t].Swapped? {
      z := Next(x, Snapshot(t)).value;
      acts := [Snapshot(t)];
      assert Performs(z, acts[1..], z);
    }
    y := Next(z, Notify(t, w)).value;
    assert [Notify(t, w)][1..] == [] && Performs(y, [], y);
    assert Performs(z, [Notify(t, w)], y);
    PerformsOn(x, acts, z, [Notify(t, w)], y);
    acts := acts + [Notify(t, w)];
  }

  /** When only the synchronized setter writes, a waiter for which a state has been written since
      its check can return whatever the others do: what is left to do is the writer's and its own. */
  lemma MatchedReturns(state: AppState, trace: seq<Action>, w: WaiterId) returns (acts: seq<Action>, y: Sys)
    requires SettersOnly(trace) && Run(state, trace).Some?
    requires var x := Run(state, trace).value; w in x.waiters && x.waiters[w].Waiting? && w in x.matched
    ensures var x := Run(state, trace).value;
      Performs(x, acts, y) && y.state == x.state && y.waiters == x.waiters[w := Done(x.waiters[w].states)]
  {
    SettersSwapNothing(state, trace);
    var x := Run(state, trace).value;
    assert WaiterOk(x, w);
    var z := x;
    acts := [];
    if w !in x.open {
      var t :| Pending(x, t, w);
      acts, z := PendingOpens(x, t, w);
    }
    var last;
    last, y := OpenReturns(z, w);
    PerformsOn(x, acts, z, last, y);
    acts := acts + last;
  }

  ghost predicate Performs(x: Sys, acts: seq<Action>, y: Sys)
    decreases |acts|
  {
    if acts == [] then x == y else Next(x, acts[0]).Some? && Performs(Next(x, acts[0]).value, acts[1..], y)
  }

  lemma {:induction false} NotifyAll(x: Sys, t: WriterId) returns (acts: seq<Action>, y: Sys)
    requires Inv(x) && t in x.writers && x.writers[t].Notifying? && x.writers[t].locked
    ensures Performs(x, acts, y)
    ensures y.state == x.state && y.lock == Nobody && y.writers == x.writers - {t} && y.listeners == x.listeners
    ensures y.open == x.open
      + set w | w in x.writers[t].todo && w in x.waiters && x.writers[t].new_state in x.waiters[w].states
    decreases |x.writers[t].todo|
  {
    var wr := x.writers[t];
    assert WriterOk(x, t);
    if wr.todo == {} {
      acts, y := [Finish(t)], Next(x, Finish(t)).value;
      assert acts[1..] == [];
    } else {
      var w :| w in wr.todo;
      var z := Next(x, Notify(t, w)).value;
      NextKeeps(x, Notify(t, w));
      assert |wr.todo - {w}| < |wr.todo|;
      acts, y := NotifyAll(z, t);
      acts := [Notify(t, w)] + acts;
    }
  }
}
