/** The network's registry of scheduled scanners under concurrent use. Threads take atomic
    steps at the granularity of the registry lock, the swap of a scanner's `enabled` flag and
    the snapshot of its listeners, in any interleaving. */
module ScannerRegistry {
  import opened Wrappers

  type Future = nat
  type Thread = nat

  /** Where a thread is inside an operation. */
  datatype PC<S> =
    | Idle
    | Adding(s: S)                             // holds the lock; listener registered
    | Cancelling(s: S, future: Option<Future>) // taken out of the map, lock released
    | Unregistering(s: S)                      // schedule cancelled
    | Swapped(s: S, enable: bool)              // flag changed, listeners not yet read
    | Notifying(s: S, enable: bool, left: nat) // listener calls still to make
    | Sweeping(todo: set<S>, enable: bool)     // holds the lock, between two scanners
    | SweepSwapped(s: S, todo: set<S>, enable: bool)
    | SweepNotifying(s: S, todo: set<S>, enable: bool, left: nat)

  /** `owner`, `seen` and `crashed` are history: the scanner a schedule was made for, the scanners
      whose latest value handled by the network was `true`, and the schedules that ended because
      a scan threw and that nobody has cancelled since. */
  datatype Sys<S> = Sys(
    enabled: set<S>, listeners: map<S, nat>, sched: map<S, Option<Future>>, live: set<Future>, next: Future,
    lock: Option<Thread>, pcs: map<Thread, PC<S>>, owner: map<Future, S>, seen: set<S>, crashed: set<Future>)

  function Count<S>(x: Sys<S>, s: S): nat { if s in x.listeners then x.listeners[s] else 0 }

  function At<S>(x: Sys<S>, t: Thread): PC<S> { if t in x.pcs then x.pcs[t] else Idle }

  function Goto<S>(x: Sys<S>, t: Thread, pc: PC<S>): Sys<S> { x.(pcs := x.pcs[t := pc]) }

  function Held<S>(x: Sys<S>, s: S): Option<Future> { if s in x.sched then x.sched[s] else None }

  function Single(f: Option<Future>): set<Future> { if f.Some? then {f.value} else {} }

  function Cancelled<S>(x: Sys<S>, f: Option<Future>): Sys<S> {
    x.(live := x.live - Single(f), crashed := x.crashed - Single(f))
  }

  // ---- What the locked sections do ----------------------------------------------------------

  /** A new schedule for `s` replaces the one held, which is cancelled. */
  function Schedule<S>(x: Sys<S>, s: S): Sys<S> {
    var y := Cancelled(x, Held(x, s));
    y.(sched := x.sched[s := Some(x.next)], live := y.live + {x.next},
       owner := x.owner[x.next := s], next := x.next + 1, seen := x.seen + {s})
  }

  /** The network's listener, called with a scanner's new value. */
  function Event<S>(x: Sys<S>, s: S, enable: bool): Sys<S> {
    if enable then Schedule(x, s) else Cancelled(x, Held(x, s)).(seen := x.seen - {s})
  }

  function Register<S>(x: Sys<S>, s: S): Sys<S> {
    if s in x.enabled then Schedule(x, s) else x.(sched := x.sched[s := None], seen := x.seen - {s})
  }

  function Swap<S>(x: Sys<S>, s: S, enable: bool): Sys<S> {
    x.(enabled := if enable then x.enabled + {s} else x.enabled - {s})
  }

  // ---- Atomic steps ------------------------------------------------------------------------

  datatype Action<S> =
    | AddBegin(s: S) | AddEnd
    | RemoveBegin(s: S) | Cancel | Unregister
    | Set(s: S, enable: bool) | Snapshot | Handle
    | SweepBegin(enable: bool) | SweepSet(s: S) | SweepEnd
    | Crash(f: Future) // a scan throws, which ends its schedule

  /** The state after thread `t` takes the step; None if it cannot. */
  function Next<S>(x: Sys<S>, t: Thread, a: Action<S>): Option<Sys<S>> {
    var pc := At(x, t);
    match a
    case AddBegin(s) =>
      if pc != Idle || x.lock.Some? then None
      else if s in x.sched then Some(x)
      else Some(Goto(x.(lock := Some(t), listeners := x.listeners[s := Count(x, s) + 1]), t, Adding(s)))
    case AddEnd =>
      if !pc.Adding? then None else Some(Goto(Register(x, pc.s).(lock := None), t, Idle))
    case RemoveBegin(s) =>
      if pc != Idle || x.lock.Some? then None
      else if s !in x.sched then Some(x)
      else Some(Goto(x.(sched := x.sched - {s}), t, Cancelling(s, x.sched[s])))
    case Cancel =>
      if !pc.Cancelling? then None else Some(Goto(Cancelled(x, pc.future), t, Unregistering(pc.s)))
    case Unregister =>
      if !pc.Unregistering? then None
      else Some(Goto(x.(listeners := x.listeners[pc.s := if Count(x, pc.s) > 0 then Count(x, pc.s) - 1 else 0]), t,
          Idle))
    case Set(s, enable) =>
      if pc != Idle then None
      else Some(Goto(Swap(x, s, enable), t, if (s in x.enabled) != enable then Swapped(s, enable) else Idle))
    case Snapshot =>
      if pc.Swapped? then Some(Goto(x, t, Notifying(pc.s, pc.enable, Count(x, pc.s))))
      else if pc.SweepSwapped? then Some(Goto(x, t, SweepNotifying(pc.s, pc.todo, pc.enable, Count(x, pc.s))))
      else None
    case Handle =>
      if pc.Notifying? then
        if pc.left == 0 then Some(Goto(x, t, Idle))
        else if x.lock.Some? then None
        else Some(Goto(Event(x, pc.s, pc.enable), t, Notifying(pc.s, pc.enable, pc.left - 1)))
      else if pc.SweepNotifying? then
        if pc.left == 0 then Some(Goto(x, t, Sweeping(pc.todo, pc.enable)))
        else Some(Goto(Event(x, pc.s, pc.enable), t, SweepNotifying(pc.s, pc.todo, pc.enable, pc.left - 1)))
      else None
    case SweepBegin(enable) =>
      if pc != Idle || x.lock.Some? then None else Some(Goto(x.(lock := Some(t)), t, Sweeping(x.sched.Keys, enable)))
    case SweepSet(s) =>
      if !pc.Sweeping? || s !in pc.todo then None
      else
        var rest := pc.todo - {s};
        Some(Goto(Swap(x, s, pc.enable), t,
             if (s in x.enabled) != pc.enable then SweepSwapped(s, rest, pc.enable) else Sweeping(rest, pc.enable)))
    case SweepEnd =>
      if !pc.Sweeping? || pc.todo != {} then None else Some(Goto(x.(lock := None), t, Idle))
    case Crash(f) => if f in x.live then Some(x.(live := x.live - {f}, crashed := x.crashed + {f})) else None
  }

  // ---- The invariant -----------------------------------------------------------------------

  predicate Locking<S>(pc: PC<S>) {
    pc.Adding? || pc.Sweeping? || pc.SweepSwapped? || pc.SweepNotifying?
  }

  /** The map holds `f` for its scanner. */
  ghost predicate InMap<S>(x: Sys<S>, f: Future) {
    f in x.owner && Held(x, x.owner[f]) == Some(f)
  }

  /** Some `removeScanner` call has taken `f` out and not yet cancelled it. */
  ghost predicate TakenOut<S>(x: Sys<S>, f: Future) {
    exists t: Thread :: t in x.pcs && x.pcs[t].Cancelling? && x.pcs[t].future == Some(f)
      && f in x.owner && x.owner[f] == x.pcs[t].s
  }

  ghost predicate LiveOk<S>(x: Sys<S>, f: Future) {
    f < x.next && f in x.owner && (InMap(x, f) || TakenOut(x, f))
  }

  /** A registered scanner holds a live schedule (or one whose scan threw) exactly if the
      network last saw it enabled. */
  ghost predicate HeldOk<S>(x: Sys<S>, s: S) {
    && (s in x.seen <==> Held(x, s).Some? && Held(x, s).value in x.live + x.crashed)
    && (Held(x, s).Some? ==> Held(x, s).value < x.next && Held(x, s).value in x.owner && x.owner[Held(x, s).value] == s)
  }

  ghost predicate ThreadOk<S>(x: Sys<S>, t: Thread) {
    var pc := At(x, t);
    && (Locking(pc) <==> x.lock == Some(t))
    && (pc.Adding? ==> pc.s !in x.sched)
    && (pc.Cancelling? && pc.future.Some? ==>
         && pc.future.value < x.next && pc.future.value in x.owner && x.owner[pc.future.value] == pc.s
         && Held(x, pc.s) != pc.future)
  }

  ghost predicate Inv<S>(x: Sys<S>) {
    && (forall f {:trigger LiveOk(x, f)} :: f in x.live ==> LiveOk(x, f))
    && (forall s {:trigger HeldOk(x, s)} :: s in x.sched ==> HeldOk(x, s))
    && (forall t {:trigger ThreadOk(x, t)} :: ThreadOk(x, t))
    && (forall f :: f in x.crashed ==> f < x.next)
  }

  // ---- Every step keeps it -----------------------------------------------------------------

  /** What a step of `t` that only moves `t` along, without touching the registry, keeps. */
  lemma MovesKeep<S>(x: Sys<S>, y: Sys<S>, t: Thread)
    requires Inv(x) && y.sched == x.sched && y.live == x.live && y.next == x.next && y.owner == x.owner
    requires y.seen == x.seen && y.crashed == x.crashed && y.lock == x.lock
    requires y.pcs == x.pcs[t := At(y, t)] && !At(x, t).Cancelling? && !At(y, t).Cancelling? && !At(y, t).Adding?
    requires Locking(At(x, t)) == Locking(At(y, t))
    ensures Inv(y)
  {
    forall f | f in y.live ensures LiveOk(y, f) {
      assert LiveOk(x, f);
      if TakenOut(x, f) {
        var u :| u in x.pcs && x.pcs[u].Cancelling? && x.pcs[u].future == Some(f) && x.owner[f] == x.pcs[u].s;
        assert y.pcs[u] == x.pcs[u];
      }
    }
    forall s | s in y.sched ensures HeldOk(y, s) { assert HeldOk(x, s); }
    forall u ensures ThreadOk(y, u) { assert ThreadOk(x, u) && (u != t ==> At(y, u) == At(x, u)); }
  }

  /** What a locked section does to the map entry of `s`. */
  ghost predicate Updates<S>(x: Sys<S>, s: S, y: Sys<S>) {
    y == Schedule(x, s) || (s !in x.sched && y == x.(sched := x.sched[s := None], seen := x.seen - {s}))
        || y == Event(x, s, false)
  }

  lemma UpdateLive<S>(x: Sys<S>, s: S, y: Sys<S>, f: Future)
    requires Inv(x) && Updates(x, s, y) && f in y.live
    ensures LiveOk(y, f)
  {
    assert s in x.sched ==> HeldOk(x, s);
    if f in x.live {
      assert LiveOk(x, f);
      if TakenOut(x, f) {
        var u :| u in x.pcs && x.pcs[u].Cancelling? && x.pcs[u].future == Some(f) && x.owner[f] == x.pcs[u].s;
        assert y.pcs[u] == x.pcs[u];
      }
    }
  }

  lemma UpdateHeld<S>(x: Sys<S>, s: S, y: Sys<S>, r: S)
    requires Inv(x) && Updates(x, s, y) && r in y.sched
    ensures HeldOk(y, r)
  {
    assert s in x.sched ==> HeldOk(x, s);
    if r in x.sched { assert HeldOk(x, r); }
  }

  /** A locked section that updates the map entry of `s` and cancels what it held. */
  lemma UpdateKeeps<S>(x: Sys<S>, s: S, y: Sys<S>)
    requires Inv(x) && (forall u {:trigger At(x, u)} :: !At(x, u).Adding?) && Updates(x, s, y)
    ensures Inv(y)
  {
    forall f | f in y.live ensures LiveOk(y, f) { UpdateLive(x, s, y, f); }
    forall r | r in y.sched ensures HeldOk(y, r) { UpdateHeld(x, s, y, r); }
    forall u ensures ThreadOk(y, u) { assert ThreadOk(x, u) && At(y, u) == At(x, u); }
  }

  lemma UnlockedNoAdding<S>(x: Sys<S>)
    requires Inv(x) && x.lock.None?
    ensures forall u {:trigger At(x, u)} :: !At(x, u).Adding?
  {
    forall u ensures !At(x, u).Adding? { assert ThreadOk(x, u); }
  }

  lemma SoleHolder<S>(x: Sys<S>, t: Thread)
    requires Inv(x) && Locking(At(x, t)) && !At(x, t).Adding?
    ensures forall u {:trigger At(x, u)} :: !At(x, u).Adding?
  {
    assert ThreadOk(x, t);
    forall u ensures !At(x, u).Adding? { assert ThreadOk(x, u); }
  }

  lemma HandleKeeps<S>(x: Sys<S>, t: Thread)
    requires Inv(x) && Next(x, t, Handle).Some?
    ensures Inv(Next(x, t, Handle).value)
  {
    var pc, y := At(x, t), Next(x, t, Handle).value;
    if pc.left == 0 {
      MovesKeep(x, y, t);
    } else {
      if pc.Notifying? { UnlockedNoAdding(x); } else { SoleHolder(x, t); }
      var z := Event(x, pc.s, pc.enable);
      UpdateKeeps(x, pc.s, z);
      MovesKeep(z, y, t);
    }
  }

  /** `addScanner` enters its locked section. */
  lemma AddBeginKeeps<S>(x: Sys<S>, t: Thread, s: S)
    requires Inv(x) && Next(x, t, AddBegin(s)).Some?
    ensures Inv(Next(x, t, AddBegin(s)).value)
  {
    var y := Next(x, t, AddBegin(s)).value;
    if s !in x.sched { LockKeeps(x, y, t); }
  }

  /** A step that takes the lock, or gives it up, and changes nothing else in the registry. */
  lemma LockKeeps<S>(x: Sys<S>, y: Sys<S>, t: Thread)
    requires Inv(x) && y.sched == x.sched && y.live == x.live && y.next == x.next && y.owner == x.owner
    requires y.seen == x.seen && y.crashed == x.crashed
    requires y.pcs == x.pcs[t := At(y, t)] && !At(x, t).Cancelling? && !At(y, t).Cancelling?
    requires At(y, t).Adding? ==> At(y, t).s !in y.sched
    requires if Locking(At(x, t)) then y.lock.None? && !Locking(At(y, t))
      else x.lock.None? && y.lock == Some(t) && Locking(At(y, t))
    ensures Inv(y)
  {
    assert ThreadOk(x, t);
    forall f | f in y.live ensures LiveOk(y, f) {
      assert LiveOk(x, f);
      if TakenOut(x, f) {
        var u :| u in x.pcs && x.pcs[u].Cancelling? && x.pcs[u].future == Some(f) && x.owner[f] == x.pcs[u].s;
        assert y.pcs[u] == x.pcs[u];
      }
    }
    forall s | s in y.sched ensures HeldOk(y, s) { assert HeldOk(x, s); }
    forall u ensures ThreadOk(y, u) { assert ThreadOk(x, u) && (u != t ==> At(y, u) == At(x, u)); }
  }

  lemma AddEndKeeps<S>(x: Sys<S>, t: Thread)
    requires Inv(x) && Next(x, t, AddEnd).Some?
    ensures Inv(Next(x, t, AddEnd).value)
  {
    var pc := At(x, t);
    assert ThreadOk(x, t);
    var z := Goto(x, t, Sweeping({}, true));
    MovesKeep(x, z, t);
    SoleHolder(z, t);
    var r := Register(z, pc.s);
    UpdateKeeps(z, pc.s, r);
    var y := Next(x, t, AddEnd).value;
    assert y.pcs == r.pcs[t := Idle];
    LockKeeps(r, y, t);
  }

  lemma RemoveBeginKeeps<S>(x: Sys<S>, t: Thread, s: S)
    requires Inv(x) && Next(x, t, RemoveBegin(s)).Some?
    ensures Inv(Next(x, t, RemoveBegin(s)).value)
  {
    var y := Next(x, t, RemoveBegin(s)).value;
    if s in x.sched {
      assert HeldOk(x, s);
      forall f | f in y.live ensures LiveOk(y, f) {
        assert LiveOk(x, f);
        if TakenOut(x, f) {
          var u :| u in x.pcs && x.pcs[u].Cancelling? && x.pcs[u].future == Some(f) && x.owner[f] == x.pcs[u].s;
          assert y.pcs[u] == x.pcs[u];
        } else if x.owner[f] == s {
          assert y.pcs[t] == Cancelling(s, Some(f));
        }
      }
      forall r | r in y.sched ensures HeldOk(y, r) { assert HeldOk(x, r); }
      forall u ensures ThreadOk(y, u) { assert ThreadOk(x, u) && (u != t ==> At(y, u) == At(x, u)); }
    }
  }

  lemma CancelKeeps<S>(x: Sys<S>, t: Thread)
    requires Inv(x) && Next(x, t, Cancel).Some?
    ensures Inv(Next(x, t, Cancel).value)
  {
    var pc, y := At(x, t), Next(x, t, Cancel).value;
    assert ThreadOk(x, t);
    forall f | f in y.live ensures LiveOk(y, f) {
      assert LiveOk(x, f);
      if TakenOut(x, f) {
        var u :| u in x.pcs && x.pcs[u].Cancelling? && x.pcs[u].future == Some(f) && x.owner[f] == x.pcs[u].s;
        assert u != t && y.pcs[u] == x.pcs[u];
      }
    }
    forall r | r in y.sched ensures HeldOk(y, r) { assert HeldOk(x, r); }
    forall u ensures ThreadOk(y, u) { assert ThreadOk(x, u) && (u != t ==> At(y, u) == At(x, u)); }
  }

  lemma CrashKeeps<S>(x: Sys<S>, t: Thread, f: Future)
    requires Inv(x) && Next(x, t, Crash(f)).Some?
    ensures Inv(Next(x, t, Crash(f)).value)
  {
    var y := Next(x, t, Crash(f)).value;
    assert LiveOk(x, f);
    forall g | g in y.live ensures LiveOk(y, g) {
      assert LiveOk(x, g);
      if TakenOut(x, g) {
        var u :| u in x.pcs && x.pcs[u].Cancelling? && x.pcs[u].future == Some(g) && x.owner[g] == x.pcs[u].s;
        assert y.pcs[u] == x.pcs[u];
      }
    }
    forall r | r in y.sched ensures HeldOk(y, r) { assert HeldOk(x, r); }
    forall u ensures ThreadOk(y, u) { assert ThreadOk(x, u) && At(y, u) == At(x, u); }
  }

  lemma NextKeeps<S>(x: Sys<S>, t: Thread, a: Action<S>)
    requires Inv(x) && Next(x, t, a).Some?
    ensures Inv(Next(x, t, a).value)
  {
    var y := Next(x, t, a).value;
    match a
    case AddBegin(s) => AddBeginKeeps(x, t, s);
    case AddEnd => AddEndKeeps(x, t);
    case RemoveBegin(s) => RemoveBeginKeeps(x, t, s);
    case Cancel => CancelKeeps(x, t);
    case Unregister => MovesKeep(x, y, t);
    case Set(s, enable) => MovesKeep(x, y, t);
    case Snapshot => MovesKeep(x, y, t);
    case Handle => HandleKeeps(x, t);
    case SweepBegin(enable) => LockKeeps(x, y, t);
    case SweepSet(s) => MovesKeep(x, y, t);
    case SweepEnd => LockKeeps(x, y, t);
    case Crash(f) => CrashKeeps(x, t, f);
  }

  // ---- Runs --------------------------------------------------------------------------------

  function Start<S>(enabled: set<S>): Sys<S> {
    Sys(enabled, map[], map[], {}, 0, None, map[], map[], {}, {})
  }

  datatype Move<S> = By(thread: Thread, action: Action<S>)

  /** The state after an interleaving; None if some step was not possible. */
  function Run<S>(x: Sys<S>, trace: seq<Move<S>>): Option<Sys<S>>
    decreases |trace|
  {
    if trace == [] then Some(x)
    else
      var y := Next(x, trace[0].thread, trace[0].action);
      if y.None? then None else Run(y.value, trace[1..])
  }

  lemma {:induction false} RunKeeps<S>(x: Sys<S>, trace: seq<Move<S>>)
    requires Inv(x) && Run(x, trace).Some?
    ensures Inv(Run(x, trace).value)
    decreases |trace|
  {
    if trace != [] {
      NextKeeps(x, trace[0].thread, trace[0].action);
      RunKeeps(Next(x, trace[0].thread, trace[0].action).value, trace[1..]);
    }
  }

  lemma StartOk<S>(enabled: set<S>)
    ensures Inv(Start(enabled))
  {
    forall t ensures ThreadOk(Start(enabled), t) {}
  }

  /** In every interleaving, a live schedule is the one the map holds for its scanner or one
      that a `removeScanner` call has taken out and not yet cancelled. */
  lemma LiveIsHeldOrTakenOut<S>(enabled: set<S>, trace: seq<Move<S>>, f: Future)
    requires var y := Run(Start(enabled), trace); y.Some? && f in y.value.live
    ensures var y := Run(Start(enabled), trace).value; InMap(y, f) || TakenOut(y, f)
  {
    StartOk(enabled);
    RunKeeps(Start(enabled), trace);
    assert LiveOk(Run(Start(enabled), trace).value, f);
  }

  ghost predicate Quiescent<S>(x: Sys<S>) {
    x.lock.None? && forall t {:trigger At(x, t)} :: At(x, t) == Idle
  }

  function LiveOf<S>(x: Sys<S>, s: S): set<Future> {
    set f | f in x.live && f in x.owner && x.owner[f] == s
  }

  /** Once all operations have ended, a scanner has one live schedule if it is registered and
      the network last saw it enabled, and none otherwise. */
  lemma QuiescentSchedules<S>(x: Sys<S>, s: S)
    requires Inv(x) && Quiescent(x) && x.crashed == {}
    ensures LiveOf(x, s) == if s in x.sched && s in x.seen then Single(x.sched[s]) else {}
    ensures |LiveOf(x, s)| == if s in x.sched && s in x.seen then 1 else 0
  {
    forall t | t in x.pcs ensures !x.pcs[t].Cancelling? { assert At(x, t) == Idle; }
    forall f | f in LiveOf(x, s) ensures s in x.sched && x.sched[s] == Some(f) { assert LiveOk(x, f); }
    if s in x.sched { assert HeldOk(x, s); }
  }

  // ---- One operation at a time -----------------------------------------------------------------

  function Events<S>(x: Sys<S>, s: S, enable: bool, n: nat): (y: Sys<S>)
    ensures y.pcs == x.pcs && y.lock == x.lock && y.crashed <= x.crashed && y.listeners == x.listeners
      && y.enabled == x.enabled
    decreases n
  {
    if n == 0 then x else Events(Event(x, s, enable), s, enable, n - 1)
  }

  function AddScanner<S>(x: Sys<S>, s: S): Sys<S> {
    if s in x.sched then x else Register(x.(listeners := x.listeners[s := Count(x, s) + 1]), s)
  }

  function Unlistened<S>(x: Sys<S>, s: S): Sys<S> {
    x.(listeners := x.listeners[s := if Count(x, s) > 0 then Count(x, s) - 1 else 0])
  }

  function RemoveScanner<S>(x: Sys<S>, s: S): Sys<S> {
    if s !in x.sched then x else Unlistened(Cancelled(x.(sched := x.sched - {s}), x.sched[s]), s)
  }

  function SetEnabled<S>(x: Sys<S>, s: S, enable: bool): Sys<S> {
    var y := Swap(x, s, enable);
    if (s in x.enabled) == enable then y else Events(y, s, enable, Count(x, s))
  }

  function SetScanEnabled<S>(x: Sys<S>, order: seq<S>, enable: bool): (y: Sys<S>)
    ensures y.pcs == x.pcs && y.lock == x.lock && y.crashed <= x.crashed
    decreases |order|
  {
    if order == [] then x else SetScanEnabled(SetEnabled(x, order[0], enable), order[1..], enable)
  }

  /** The network listens to exactly its scanners and has seen their latest value. */
  ghost predicate Agrees<S>(x: Sys<S>, s: S) {
    Count(x, s) == (if s in x.sched then 1 else 0) && (s in x.sched ==> (s in x.seen <==> s in x.enabled))
  }

  lemma AddAgrees<S>(x: Sys<S>, s: S, r: S)
    requires Agrees(x, s) && Agrees(x, r)
    ensures Agrees(AddScanner(x, s), r)
  {}

  lemma RemoveAgrees<S>(x: Sys<S>, s: S, r: S)
    requires Agrees(x, s) && Agrees(x, r)
    ensures Agrees(RemoveScanner(x, s), r)
  {}

  lemma SetAgrees<S>(x: Sys<S>, s: S, enable: bool, r: S)
    requires Agrees(x, s) && Agrees(x, r)
    ensures Agrees(SetEnabled(x, s, enable), r)
  {
    var y := Swap(x, s, enable);
    if s in x.sched {
      assert Events(y, s, enable, 1) == Event(y, s, enable);
    }
  }

  lemma {:induction false} SweepAgrees<S>(x: Sys<S>, order: seq<S>, enable: bool, r: S)
    requires Agrees(x, r) && forall s :: s in order ==> Agrees(x, s)
    ensures Agrees(SetScanEnabled(x, order, enable), r)
    decreases |order|
  {
    if order != [] {
      var y := SetEnabled(x, order[0], enable);
      SetAgrees(x, order[0], enable, r);
      forall s | s in order[1..] ensures Agrees(y, s) { SetAgrees(x, order[0], enable, s); }
      SweepAgrees(y, order[1..], enable, r);
    }
  }

  /** If the last event the network handled agrees with the flag, an idle network has exactly one
      live schedule for a scanner that is registered and enabled, and none otherwise. */
  lemma ExactlyOneSchedule<S>(x: Sys<S>, s: S)
    requires Inv(x) && Quiescent(x) && x.crashed == {} && (s in x.sched ==> (s in x.seen <==> s in x.enabled))
    ensures |LiveOf(x, s)| == if s in x.sched && s in x.enabled then 1 else 0
  {
    QuiescentSchedules(x, s);
  }

  /** Adding a scanner registers it; if it is enabled, an idle network then runs it once. */
  lemma AddedRuns<S>(x: Sys<S>, s: S)
    requires Inv(x) && Quiescent(x) && x.crashed == {} && (s in x.sched ==> (s in x.seen <==> s in x.enabled))
    ensures var y := AddScanner(x, s); s in y.sched && |LiveOf(y, s)| == if s in x.enabled then 1 else 0
  {
    if s in x.sched {
      ExactlyOneSchedule(x, s);
    } else {
      var y := AddScanner(x, s);
      NotLive(x, s);
      assert LiveOf(y, s) == if s in x.enabled then {x.next} else {};
    }
  }

  /** An idle network has no live schedule of a scanner that is not registered. */
  lemma NotLive<S>(x: Sys<S>, s: S)
    requires Inv(x) && Quiescent(x) && x.crashed == {} && s !in x.sched
    ensures LiveOf(x, s) == {} && x.next !in x.live
  {
    QuiescentSchedules(x, s);
    assert x.next in x.live ==> LiveOk(x, x.next);
  }

  // ---- An operation run alone is its atomic steps -------------------------------------------

  /** Thread `t` takes these steps from `x` and ends in `y`, in the same place as it began. */
  ghost predicate Performs<S>(x: Sys<S>, t: Thread, acts: seq<Action<S>>, y: Sys<S>)
    decreases |acts|
  {
    if acts == [] then x == y
    else Next(x, t, acts[0]).Some? && Performs(Next(x, t, acts[0]).value, t, acts[1..], y)
  }

  lemma {:induction false} PerformsKeeps<S>(x: Sys<S>, t: Thread, acts: seq<Action<S>>, y: Sys<S>)
    requires Inv(x) && Performs(x, t, acts, y)
    ensures Inv(y)
    decreases |acts|
  {
    if acts != [] {
      NextKeeps(x, t, acts[0]);
      PerformsKeeps(Next(x, t, acts[0]).value, t, acts[1..], y);
    }
  }

  lemma {:induction false} PerformsMore<S>(x: Sys<S>, t: Thread, a: seq<Action<S>>, y: Sys<S>, b: seq<Action<S>>,
      z: Sys<S>)
    requires Performs(x, t, a, y) && Performs(y, t, b, z)
    ensures Performs(x, t, a + b, z)
    decreases |a|
  {
    if a == [] {
      assert a + b == b;
    } else {
      PerformsMore(Next(x, t, a[0]).value, t, a[1..], y, b, z);
      assert (a + b)[1..] == a[1..] + b;
    }
  }

  lemma Performs1<S>(x: Sys<S>, t: Thread, a: Action<S>)
    requires Next(x, t, a).Some?
    ensures Performs(x, t, [a], Next(x, t, a).value)
  {
    assert [a][1..] == [];
  }

  lemma Then<S>(x: Sys<S>, t: Thread, a: Action<S>, rest: seq<Action<S>>, y: Sys<S>)
    requires Next(x, t, a).Some? && Performs(Next(x, t, a).value, t, rest, y)
    ensures Performs(x, t, [a] + rest, y)
  {
    assert ([a] + rest)[1..] == rest;
  }

  lemma AddOnce<S>(x: Sys<S>, t: Thread, s: S)
    requires x.lock.None? && At(x, t) == Idle && s !in x.sched
    ensures var y := Next(x, t, AddBegin(s));
      y.Some? && Next(y.value, t, AddEnd) == Some(Goto(AddScanner(x, s), t, Idle))
  {
    assert x.pcs[t := Adding(s)][t := Idle] == x.pcs[t := Idle];
  }

  lemma AddAlone<S>(x: Sys<S>, t: Thread, s: S)
    requires x.lock.None? && At(x, t) == Idle
    ensures s !in x.sched ==> Performs(x, t, [AddBegin(s)] + [AddEnd], Goto(AddScanner(x, s), t, Idle))
    ensures s in x.sched ==> Performs(x, t, [AddBegin(s)], AddScanner(x, s))
  {
    if s !in x.sched {
      AddOnce(x, t, s);
      var y := Next(x, t, AddBegin(s)).value;
      Performs1(y, t, AddEnd);
      Then(x, t, AddBegin(s), [AddEnd], Next(y, t, AddEnd).value);
    } else {
      Performs1(x, t, AddBegin(s));
    }
  }

  lemma RemoveAlone<S>(x: Sys<S>, t: Thread, s: S)
    requires x.lock.None? && At(x, t) == Idle
    ensures s in x.sched ==> Performs(x, t, [RemoveBegin(s)] + ([Cancel] + [Unregister]),
      Goto(RemoveScanner(x, s), t, Idle))
    ensures s !in x.sched ==> Performs(x, t, [RemoveBegin(s)], RemoveScanner(x, s))
  {
    var y := Next(x, t, RemoveBegin(s)).value;
    if s in x.sched {
      var z := Next(y, t, Cancel).value;
      Performs1(z, t, Unregister);
      Then(y, t, Cancel, [Unregister], Next(z, t, Unregister).value);
      Then(x, t, RemoveBegin(s), [Cancel] + [Unregister], Next(z, t, Unregister).value);
    } else {
      Performs1(x, t, RemoveBegin(s));
    }
  }

  /** The listener calls of one notification, from either of the two places they happen. */
  function Handles<S>(n: nat): seq<Action<S>>
    decreases n
  {
    if n == 0 then [Handle] else [Handle] + Handles(n - 1)
  }

  lemma {:induction false} EventsPlace<S>(x: Sys<S>, t: Thread, pc: PC<S>, to: PC<S>, s: S, enable: bool, n: nat)
    ensures Goto(Events(Goto(x, t, pc), s, enable, n), t, to) == Goto(Events(x, s, enable, n), t, to)
    decreases n
  {
    if n > 0 { EventsPlace(Event(x, s, enable), t, pc, to, s, enable, n - 1); }
  }

  lemma HandleOnce<S>(x: Sys<S>, t: Thread, s: S, enable: bool, n: nat)
    requires x.lock.None? && At(x, t) == Notifying(s, enable, n) && n > 0
    ensures var z := Goto(Event(x, s, enable), t, Notifying(s, enable, n - 1));
      Next(x, t, Handle) == Some(z) && z.lock.None? && At(z, t) == Notifying(s, enable, n - 1)
  {}

  lemma {:induction false} HandlesAlone<S>(x: Sys<S>, t: Thread, s: S, enable: bool, n: nat)
    requires x.lock.None? && At(x, t) == Notifying(s, enable, n)
    ensures Performs(x, t, Handles(n), Goto(Events(x, s, enable, n), t, Idle))
    decreases n
  {
    if n == 0 {
      Performs1(x, t, Handle);
    } else {
      var y, pc := Event(x, s, enable), Notifying(s, enable, n - 1);
      HandleOnce(x, t, s, enable, n);
      HandlesAlone(Goto(y, t, pc), t, s, enable, n - 1);
      EventsPlace(y, t, pc, Idle, s, enable, n - 1);
      Then(x, t, Handle, Handles(n - 1), Goto(Events(x, s, enable, n), t, Idle));
    }
  }

  /** A notification whose calls happen inside `setScanEnabled`. */
  lemma {:induction false} SweepHandlesAlone<S>(x: Sys<S>, t: Thread, s: S, todo: set<S>, enable: bool, n: nat)
    requires At(x, t) == SweepNotifying(s, todo, enable, n)
    ensures Performs(x, t, Handles(n), Goto(Events(x, s, enable, n), t, Sweeping(todo, enable)))
    decreases n
  {
    if n == 0 {
      Performs1(x, t, Handle);
    } else {
      var y, pc := Event(x, s, enable), SweepNotifying(s, todo, enable, n - 1);
      assert Next(x, t, Handle) == Some(Goto(y, t, pc));
      SweepHandlesAlone(Goto(y, t, pc), t, s, todo, enable, n - 1);
      EventsPlace(y, t, pc, Sweeping(todo, enable), s, enable, n - 1);
      Then(x, t, Handle, Handles(n - 1), Goto(Events(x, s, enable, n), t, Sweeping(todo, enable)));
    }
  }

  function SetSteps<S>(x: Sys<S>, s: S, enable: bool): seq<Action<S>> {
    if (s in x.enabled) == enable then [Set(s, enable)] else [Set(s, enable)] + ([Snapshot] + Handles(Count(x, s)))
  }

  lemma SetAlone<S>(x: Sys<S>, t: Thread, s: S, enable: bool)
    requires x.lock.None? && At(x, t) == Idle
    ensures Performs(x, t, SetSteps(x, s, enable), Goto(SetEnabled(x, s, enable), t, Idle))
  {
    if (s in x.enabled) == enable {
      Performs1(x, t, Set(s, enable));
    } else {
      var w, n := Swap(x, s, enable), Count(x, s);
      var y, pc := Goto(w, t, Swapped(s, enable)), Notifying(s, enable, n);
      var last := Goto(SetEnabled(x, s, enable), t, Idle);
      HandlesAlone(Goto(w, t, pc), t, s, enable, n);
      EventsPlace(w, t, pc, Idle, s, enable, n);
      Replaced(w, t, Swapped(s, enable), pc);
      SnapshotThen(x, t, Set(s, enable), y, Goto(w, t, pc), n, last);
    }
  }

  function SweepSteps<S>(x: Sys<S>, s: S, enable: bool): seq<Action<S>> {
    if (s in x.enabled) == enable then [SweepSet(s)] else [SweepSet(s)] + ([Snapshot] + Handles(Count(x, s)))
  }

  lemma SweepOneAlone<S>(x: Sys<S>, t: Thread, s: S, todo: set<S>, enable: bool)
    requires At(x, t) == Sweeping(todo, enable) && s in todo
    ensures Performs(x, t, SweepSteps(x, s, enable), Goto(SetEnabled(x, s, enable), t, Sweeping(todo - {s}, enable)))
  {
    if (s in x.enabled) == enable {
      Performs1(x, t, SweepSet(s));
    } else {
      var w, n, rest := Swap(x, s, enable), Count(x, s), todo - {s};
      var y, pc := Goto(w, t, SweepSwapped(s, rest, enable)), SweepNotifying(s, rest, enable, n);
      var last := Goto(SetEnabled(x, s, enable), t, Sweeping(rest, enable));
      SweepHandlesAlone(Goto(w, t, pc), t, s, rest, enable, n);
      EventsPlace(w, t, pc, Sweeping(rest, enable), s, enable, n);
      Replaced(w, t, SweepSwapped(s, rest, enable), pc);
      SnapshotThen(x, t, SweepSet(s), y, Goto(w, t, pc), n, last);
    }
  }

  lemma Replaced<S>(w: Sys<S>, t: Thread, a: PC<S>, b: PC<S>)
    ensures Goto(Goto(w, t, a), t, b) == Goto(w, t, b)
  {}

  /** A setter's step, the reading of the listeners and the calls make up one run. */
  lemma SnapshotThen<S>(x: Sys<S>, t: Thread, a: Action<S>, y: Sys<S>, z: Sys<S>, n: nat, last: Sys<S>)
    requires Next(x, t, a) == Some(y) && Next(y, t, Snapshot) == Some(z) && Performs(z, t, Handles(n), last)
    ensures Performs(x, t, [a] + ([Snapshot] + Handles(n)), last)
  {
    Then(y, t, Snapshot, Handles(n), last);
    Then(x, t, a, [Snapshot] + Handles(n), last);
  }

  function AllSweepSteps<S>(x: Sys<S>, order: seq<S>, enable: bool): seq<Action<S>>
    decreases |order|
  {
    if order == [] then [SweepEnd]
    else SweepSteps(x, order[0], enable) + AllSweepSteps(SetEnabled(x, order[0], enable), order[1..], enable)
  }

  ghost predicate Orders<S>(order: seq<S>, todo: set<S>) {
    && todo == (set s | s in order)
    && forall i, j :: 0 <= i < j < |order| ==> order[i] != order[j]
  }

  lemma OrderRest<S>(order: seq<S>, todo: set<S>)
    requires Orders(order, todo) && order != []
    ensures order[0] in todo && Orders(order[1..], todo - {order[0]})
  {
    assert order == [order[0]] + order[1..];
    assert order[0] !in order[1..];
    assert todo - {order[0]} == set s | s in order[1..];
  }

  lemma Released<S>(x: Sys<S>, t: Thread, pc: PC<S>)
    ensures Goto(Goto(x, t, pc).(lock := None), t, Idle) == Goto(x.(lock := None), t, Idle)
  {}

  /** The whole of `setScanEnabled`, the scanners in any order. */
  lemma {:induction false} SweepAlone<S>(x: Sys<S>, t: Thread, order: seq<S>, todo: set<S>, enable: bool)
    requires Orders(order, todo) && At(x, t) == Sweeping(todo, enable)
    ensures Performs(x, t, AllSweepSteps(x, order, enable),
      Goto(SetScanEnabled(x, order, enable).(lock := None), t, Idle))
    decreases |order|
  {
    if order == [] {
      assert todo == {};
      Performs1(x, t, SweepEnd);
    } else {
      OrderRest(order, todo);
      var s, rest := order[0], todo - {order[0]};
      SweepOneAlone(x, t, s, todo, enable);
      var y := SetEnabled(x, s, enable);
      var z := Goto(y, t, Sweeping(rest, enable));
      SweepAlone(z, t, order[1..], rest, enable);
      SweepPlace(y, t, Sweeping(rest, enable), order[1..], enable);
      Released(SetScanEnabled(y, order[1..], enable), t, Sweeping(rest, enable));
      PerformsMore(x, t, SweepSteps(x, s, enable), z, AllSweepSteps(z, order[1..], enable),
                   Goto(SetScanEnabled(x, order, enable).(lock := None), t, Idle));
    }
  }

  /** Where a thread stands does not matter to what the operations do. */
  lemma {:induction false} SweepPlace<S>(x: Sys<S>, t: Thread, pc: PC<S>, order: seq<S>, enable: bool)
    ensures SetScanEnabled(Goto(x, t, pc), order, enable) == Goto(SetScanEnabled(x, order, enable), t, pc)
    ensures AllSweepSteps(Goto(x, t, pc), order, enable) == AllSweepSteps(x, order, enable)
    decreases |order|
  {
    if order != [] {
      SetPlace(x, t, pc, order[0], enable);
      SweepPlace(SetEnabled(x, order[0], enable), t, pc, order[1..], enable);
    }
  }

  lemma SetPlace<S>(x: Sys<S>, t: Thread, pc: PC<S>, s: S, enable: bool)
    ensures SetEnabled(Goto(x, t, pc), s, enable) == Goto(SetEnabled(x, s, enable), t, pc)
  {
    EventsStay(Swap(x, s, enable), t, pc, s, enable, Count(x, s));
  }

  lemma {:induction false} EventsStay<S>(x: Sys<S>, t: Thread, pc: PC<S>, s: S, enable: bool, n: nat)
    ensures Events(Goto(x, t, pc), s, enable, n) == Goto(Events(x, s, enable, n), t, pc)
    decreases n
  {
    if n > 0 { EventsStay(Event(x, s, enable), t, pc, s, enable, n - 1); }
  }

  datatype Op<S> =
    | Add(s: S) | Remove(s: S) | SetOne(s: S, enable: bool)
    | SetAll(order: seq<S>, enable: bool) // in the order the map is iterated

  ghost function Do<S>(x: Sys<S>, op: Op<S>): (y: Sys<S>)
    ensures y.pcs == x.pcs && y.lock == x.lock && y.crashed <= x.crashed
  {
    match op
    case Add(s) => AddScanner(x, s)
    case Remove(s) => RemoveScanner(x, s)
    case SetOne(s, enable) => SetEnabled(x, s, enable)
    case SetAll(order, enable) => if Orders(order, x.sched.Keys) then SetScanEnabled(x, order, enable) else x
  }

  /** Each operation, run to its end by one thread, is a run of the atomic steps. */
  lemma DoneAlone<S>(x: Sys<S>, t: Thread, op: Op<S>) returns (acts: seq<Action<S>>)
    requires Quiescent(x)
    ensures Performs(x, t, acts, Goto(Do(x, op), t, Idle)) || Performs(x, t, acts, Do(x, op))
  {
    assert At(x, t) == Idle;
    acts := [];
    match op
    case Add(s) =>
      AddAlone(x, t, s);
      acts := if s in x.sched then [AddBegin(s)] else [AddBegin(s)] + [AddEnd];
    case Remove(s) =>
      RemoveAlone(x, t, s);
      acts := if s in x.sched then [RemoveBegin(s)] + ([Cancel] + [Unregister]) else [RemoveBegin(s)];
    case SetOne(s, enable) =>
      SetAlone(x, t, s, enable);
      acts := SetSteps(x, s, enable);
    case SetAll(order, enable) =>
      if Orders(order, x.sched.Keys) { acts := SetAllAlone(x, t, order, enable); }
  }

  lemma SetAllAlone<S>(x: Sys<S>, t: Thread, order: seq<S>, enable: bool) returns (acts: seq<Action<S>>)
    requires Quiescent(x) && Orders(order, x.sched.Keys)
    ensures Performs(x, t, acts, Goto(SetScanEnabled(x, order, enable), t, Idle))
  {
    assert At(x, t) == Idle;
    var y := x.(lock := Some(t));
    var z := Goto(y, t, Sweeping(x.sched.Keys, enable));
    SweepAlone(z, t, order, x.sched.Keys, enable);
    SweepPlace(y, t, Sweeping(x.sched.Keys, enable), order, enable);
    Released(SetScanEnabled(y, order, enable), t, Sweeping(x.sched.Keys, enable));
    SweepLock(x, t, order, enable);
    var last := Goto(SetScanEnabled(x, order, enable), t, Idle);
    Then(x, t, SweepBegin(enable), AllSweepSteps(z, order, enable), last);
    acts := [SweepBegin(enable)] + AllSweepSteps(z, order, enable);
  }

  /** Holding the lock does not matter to what the sweep does. */
  lemma {:induction false} SweepLock<S>(x: Sys<S>, t: Thread, order: seq<S>, enable: bool)
    requires x.lock.None?
    ensures SetScanEnabled(x.(lock := Some(t)), order, enable) == SetScanEnabled(x, order, enable).(lock := Some(t))
    decreases |order|
  {
    if order != [] {
      EventsLock(Swap(x, order[0], enable), t, order[0], enable, Count(x, order[0]));
      SweepLock(SetEnabled(x, order[0], enable), t, order[1..], enable);
    }
  }

  lemma {:induction false} EventsLock<S>(x: Sys<S>, t: Thread, s: S, enable: bool, n: nat)
    ensures Events(x.(lock := Some(t)), s, enable, n) == Events(x, s, enable, n).(lock := Some(t))
    decreases n
  {
    if n > 0 { EventsLock(Event(x, s, enable), t, s, enable, n - 1); }
  }

  /** With every thread idle, the invariant does not depend on which threads there are. */
  lemma IdleKeeps<S>(x: Sys<S>, y: Sys<S>)
    requires Inv(x) && Quiescent(x) && Quiescent(y) && y == x.(pcs := y.pcs)
    ensures Inv(y)
  {
    forall t | t in x.pcs ensures !x.pcs[t].Cancelling? { assert At(x, t) == Idle; }
    forall f | f in y.live ensures LiveOk(y, f) { assert LiveOk(x, f); }
    forall s | s in y.sched ensures HeldOk(y, s) { assert HeldOk(x, s); }
    forall u ensures ThreadOk(y, u) { assert ThreadOk(x, u) && At(x, u) == Idle && At(y, u) == Idle; }
  }

  lemma DoKeeps<S>(x: Sys<S>, op: Op<S>)
    requires Inv(x) && Quiescent(x)
    ensures Inv(Do(x, op)) && Quiescent(Do(x, op))
  {
    var acts := DoneAlone(x, 0, op);
    var y := Do(x, op);
    forall t ensures At(y, t) == Idle { assert At(x, t) == Idle; }
    forall t ensures At(Goto(y, 0, Idle), t) == Idle { assert At(y, t) == Idle; }
    if Performs(x, 0, acts, Goto(y, 0, Idle)) {
      PerformsKeeps(x, 0, acts, Goto(y, 0, Idle));
      IdleKeeps(Goto(y, 0, Idle), y);
    } else if Performs(x, 0, acts, y) {
      PerformsKeeps(x, 0, acts, y);
    }
  }

  ghost function DoAll<S>(x: Sys<S>, ops: seq<Op<S>>): Sys<S>
    decreases |ops|
  {
    if ops == [] then x else DoAll(Do(x, ops[0]), ops[1..])
  }

  lemma {:induction false} DoAllKeeps<S(!new)>(x: Sys<S>, ops: seq<Op<S>>)
    requires Inv(x) && Quiescent(x) && x.crashed == {} && forall s :: Agrees(x, s)
    ensures var y := DoAll(x, ops); Inv(y) && Quiescent(y) && y.crashed == {} && forall s :: Agrees(y, s)
    decreases |ops|
  {
    if ops != [] {
      var y := Do(x, ops[0]);
      DoKeeps(x, ops[0]);
      forall r ensures Agrees(y, r) {
        match ops[0]
        case Add(s) => AddAgrees(x, s, r);
        case Remove(s) => RemoveAgrees(x, s, r);
        case SetOne(s, enable) => SetAgrees(x, s, enable, r);
        case SetAll(order, enable) => SweepAgrees(x, order, enable, r);
      }
      DoAllKeeps(y, ops[1..]);
    }
  }

  /** When operations run one at a time, a scanner has exactly one live schedule if and only if
      it is registered and enabled, and none otherwise. */
  lemma OneAtATime<S(!new)>(enabled: set<S>, ops: seq<Op<S>>, s: S)
    ensures var y := DoAll(Start(enabled), ops); |LiveOf(y, s)| == if s in y.sched && s in y.enabled then 1 else 0
  {
    StartOk(enabled);
    DoAllKeeps(Start(enabled), ops);
    assert Agrees(DoAll(Start(enabled), ops), s);
    ExactlyOneSchedule(DoAll(Start(enabled), ops), s);
  }

  /** The last addition or removal of `s` is an addition. */
  function IsAdded<S(==)>(ops: seq<Op<S>>, s: S): bool {
    if ops == [] then false
    else
      var n := |ops| - 1;
      match ops[n]
      case Add(r) => r == s || IsAdded(ops[..n], s)
      case Remove(r) => r != s && IsAdded(ops[..n], s)
      case _ => IsAdded(ops[..n], s)
  }

  /** The value last given to the scanner, by itself or together with all that are registered. */
  function IsOn<S(==)>(enabled: set<S>, ops: seq<Op<S>>, s: S): bool {
    if ops == [] then s in enabled
    else
      var n := |ops| - 1;
      match ops[n]
      case SetOne(r, enable) => if r == s then enable else IsOn(enabled, ops[..n], s)
      case SetAll(_, enable) => if IsAdded(ops[..n], s) then enable else IsOn(enabled, ops[..n], s)
      case _ => IsOn(enabled, ops[..n], s)
  }

  /** Each `setScanEnabled` goes through the scanners registered by then, in some order. */
  ghost predicate Fits<S(!new)>(ops: seq<Op<S>>) {
    forall k :: 0 <= k < |ops| && ops[k].SetAll? ==>
      && (forall s :: s in ops[k].order <==> IsAdded(ops[..k], s))
      && forall i, j :: 0 <= i < j < |ops[k].order| ==> ops[k].order[i] != ops[k].order[j]
  }

  lemma {:induction false} DoAllLast<S>(x: Sys<S>, ops: seq<Op<S>>, op: Op<S>)
    ensures DoAll(x, ops + [op]) == Do(DoAll(x, ops), op)
    decreases |ops|
  {
    if ops == [] {
      assert [] + [op] == [op] && [op][1..] == [];
    } else {
      assert (ops + [op])[1..] == ops[1..] + [op];
      DoAllLast(Do(x, ops[0]), ops[1..], op);
    }
  }

  lemma {:induction false} EventsHold<S>(x: Sys<S>, s: S, enable: bool, n: nat)
    requires n > 0 ==> s in x.sched
    ensures Events(x, s, enable, n).sched.Keys == x.sched.Keys
    decreases n
  {
    if n > 0 { EventsHold(Event(x, s, enable), s, enable, n - 1); }
  }

  lemma {:induction false} SweepSets<S>(x: Sys<S>, order: seq<S>, enable: bool, s: S)
    requires forall r :: r in order ==> r in x.sched
    ensures var y := SetScanEnabled(x, order, enable);
      y.sched.Keys == x.sched.Keys && (s in y.enabled <==> if s in order then enable else s in x.enabled)
    decreases |order|
  {
    if order != [] {
      EventsHold(Swap(x, order[0], enable), order[0], enable, Count(x, order[0]));
      assert SetEnabled(x, order[0], enable).sched.Keys == x.sched.Keys;
      forall r | r in order[1..] ensures r in x.sched { assert r in order; }
      SweepSets(SetEnabled(x, order[0], enable), order[1..], enable, s);
    }
  }

  /** What one operation does to the registration and the flag of a scanner. */
  lemma DoDecides<S>(x: Sys<S>, op: Op<S>, s: S)
    requires forall r :: Count(x, r) == if r in x.sched then 1 else 0
    ensures var y := Do(x, op);
      && (s in y.sched <==> if op == Add(s) then true else if op == Remove(s) then false else s in x.sched)
      && (s in y.enabled <==>
           if op.SetOne? && op.s == s then op.enable
           else if op.SetAll? && Orders(op.order, x.sched.Keys) && s in x.sched then op.enable
           else s in x.enabled)
  {
    match op
    case Add(_) =>
    case Remove(_) =>
    case SetOne(r, enable) => EventsHold(Swap(x, r, enable), r, enable, Count(x, r));
    case SetAll(order, enable) => if Orders(order, x.sched.Keys) { SweepSets(x, order, enable, s); }
  }

  lemma {:induction false} LastWord<S(!new)>(enabled: set<S>, ops: seq<Op<S>>, s: S)
    requires Fits(ops)
    ensures var y := DoAll(Start(enabled), ops);
      (s in y.sched <==> IsAdded(ops, s)) && (s in y.enabled <==> IsOn(enabled, ops, s))
    decreases |ops|
  {
    if ops != [] {
      var n := |ops| - 1;
      var before := ops[..n];
      assert ops == before + [ops[n]];
      assert forall k :: 0 <= k < n ==> before[k] == ops[k] && before[..k] == ops[..k];
      forall r ensures r in DoAll(Start(enabled), before).sched <==> IsAdded(before, r) {
        LastWord(enabled, before, r);
      }
      LastWord(enabled, before, s);
      DoAllLast(Start(enabled), before, ops[n]);
      StartOk(enabled);
      DoAllKeeps(Start(enabled), before);
      var x := DoAll(Start(enabled), before);
      forall r ensures Count(x, r) == if r in x.sched then 1 else 0 { assert Agrees(x, r); }
      DoDecides(x, ops[n], s);
    }
  }

  /** After any operations, one at a time, a scanner is registered exactly if the last addition or
      removal of it was an addition, it is enabled exactly if it was last set so, and it runs
      exactly if both hold. */
  lemma LastWordCounts<S(!new)>(enabled: set<S>, ops: seq<Op<S>>, s: S)
    requires Fits(ops)
    ensures var y := DoAll(Start(enabled), ops);
      && (s in y.sched <==> IsAdded(ops, s)) && (s in y.enabled <==> IsOn(enabled, ops, s))
      && |LiveOf(y, s)| == if IsAdded(ops, s) && IsOn(enabled, ops, s) then 1 else 0
  {
    LastWord(enabled, ops, s);
    OneAtATime(enabled, ops, s);
  }

  lemma EventKeeps<S>(x: Sys<S>, s: S, enable: bool)
    requires Inv(x) && Quiescent(x)
    ensures Inv(Event(x, s, enable)) && Quiescent(Event(x, s, enable))
  {
    var y := Event(x, s, enable);
    forall u ensures !At(x, u).Adding? && At(y, u) == Idle { assert At(x, u) == Idle; }
    UpdateKeeps(x, s, y);
  }

  lemma SwapKeeps<S>(x: Sys<S>, s: S, enable: bool)
    requires Inv(x)
    ensures Inv(Swap(x, s, enable))
  {
    var y := Swap(x, s, enable);
    forall f | f in y.live ensures LiveOk(y, f) { assert LiveOk(x, f); }
    forall r | r in y.sched ensures HeldOk(y, r) { assert HeldOk(x, r); }
    forall u ensures ThreadOk(y, u) { assert ThreadOk(x, u) && At(y, u) == At(x, u); }
  }

  lemma {:induction false} SweepLast<S>(x: Sys<S>, order: seq<S>, s: S, enable: bool)
    ensures SetScanEnabled(x, order + [s], enable) == SetEnabled(SetScanEnabled(x, order, enable), s, enable)
    decreases |order|
  {
    if order == [] {
      assert [] + [s] == [s] && [s][1..] == [];
    } else {
      assert (order + [s])[1..] == order[1..] + [s];
      SweepLast(SetEnabled(x, order[0], enable), order[1..], s, enable);
    }
  }

  lemma OrdersMore<S>(order: seq<S>, done: set<S>, s: S)
    requires Orders(order, done) && s !in done
    ensures Orders(order + [s], done + {s})
  {}

  // ---- Operations on one scanner that do not overlap ------------------------------------------

  /** The thread is inside an operation on `s`. */
  predicate Concerns<S(==)>(pc: PC<S>, s: S) {
    match pc
    case Idle => false
    case Sweeping(_, _) => false
    case _ => pc.s == s
  }

  /** The step begins an operation on `s`. */
  predicate Begins<S(==)>(a: Action<S>, s: S) {
    match a
    case AddBegin(r) => r == s
    case RemoveBegin(r) => r == s
    case Set(r, _) => r == s
    case SweepSet(r) => r == s
    case _ => false
  }

  ghost predicate Unconcerned<S>(x: Sys<S>, s: S) { forall t {:trigger At(x, t)} :: !Concerns(At(x, t), s) }

  /** No operation on `s` begins while another one is under way; operations on other scanners
      interleave freely with them. */
  ghost predicate Separate<S>(x: Sys<S>, trace: seq<Move<S>>, s: S)
    decreases |trace|
  {
    trace == []
    || (var y := Next(x, trace[0].thread, trace[0].action);
        (Begins(trace[0].action, s) ==> Unconcerned(x, s)) && (y.Some? ==> Separate(y.value, trace[1..], s)))
  }

  /** What holds inside an operation on `s` that no other one overlaps. */
  ghost predicate Halfway<S>(x: Sys<S>, s: S, pc: PC<S>) {
    var listening := if s in x.sched then 1 else 0;
    match pc
    case Idle => true
    case Sweeping(_, _) => true
    case Adding(_) => s !in x.sched && Count(x, s) == 1
    case Cancelling(_, _) => s !in x.sched && Count(x, s) == 1
    case Unregistering(_) => s !in x.sched && Count(x, s) == 1
    case Swapped(_, enable) => Count(x, s) == listening && (s in x.enabled) == enable
    case SweepSwapped(_, _, enable) => Count(x, s) == listening && (s in x.enabled) == enable
    case Notifying(_, enable, left) =>
      Count(x, s) == listening && (s in x.enabled) == enable && left <= listening
          && (left < listening ==> (s in x.seen) == enable)
    case SweepNotifying(_, _, enable, left) =>
      Count(x, s) == listening && (s in x.enabled) == enable && left <= listening
          && (left < listening ==> (s in x.seen) == enable)
  }

  ghost predicate Orderly<S>(x: Sys<S>, s: S) {
    && (forall t, u {:trigger At(x, t), At(x, u)} :: Concerns(At(x, t), s) && Concerns(At(x, u), s) ==> t == u)
    && (forall t {:trigger At(x, t)} :: Concerns(At(x, t), s) ==> Halfway(x, s, At(x, t)))
    && (Unconcerned(x, s) ==> Agrees(x, s))
  }

  /** All that the registry knows about one scanner. */
  function Facts<S>(x: Sys<S>, s: S): (bool, bool, bool, nat) {
    (s in x.sched, s in x.seen, s in x.enabled, Count(x, s))
  }

  /** A step outside the operations on `s` does not touch it. */
  lemma StepElsewhere<S>(x: Sys<S>, t: Thread, a: Action<S>, s: S)
    requires Next(x, t, a).Some? && !Concerns(At(x, t), s) && !Begins(a, s)
    ensures Facts(Next(x, t, a).value, s) == Facts(x, s)
  {
    match a
    case AddBegin(_) =>
    case AddEnd =>
    case RemoveBegin(_) =>
    case Cancel =>
    case Unregister =>
    case Set(_, _) =>
    case Snapshot =>
    case Handle =>
    case SweepBegin(_) =>
    case SweepSet(_) =>
    case SweepEnd =>
    case Crash(_) =>
  }

  lemma StaysElsewhere<S>(x: Sys<S>, t: Thread, a: Action<S>, s: S)
    requires Next(x, t, a).Some? && !Concerns(At(x, t), s) && !Begins(a, s)
    ensures !Concerns(At(Next(x, t, a).value, t), s)
  {}

  lemma OthersStay<S>(x: Sys<S>, t: Thread, a: Action<S>, u: Thread)
    requires Next(x, t, a).Some? && u != t
    ensures At(Next(x, t, a).value, u) == At(x, u)
  {
    match a
    case AddBegin(_) =>
    case AddEnd =>
    case RemoveBegin(_) =>
    case Cancel =>
    case Unregister =>
    case Set(_, _) =>
    case Snapshot =>
    case Handle =>
    case SweepBegin(_) =>
    case SweepSet(_) =>
    case SweepEnd =>
    case Crash(_) =>
  }

  /** A step inside an operation on `s`, or at its beginning. */
  lemma StepHere<S>(x: Sys<S>, t: Thread, a: Action<S>, s: S)
    requires Next(x, t, a).Some?
    requires if Begins(a, s) then Agrees(x, s) else Concerns(At(x, t), s) && Halfway(x, s, At(x, t))
    ensures var y := Next(x, t, a).value; if Concerns(At(y, t), s) then Halfway(y, s, At(y, t)) else Agrees(y, s)
  {}

  lemma OrderlyStep<S>(x: Sys<S>, t: Thread, a: Action<S>, s: S)
    requires Next(x, t, a).Some? && Orderly(x, s) && (Begins(a, s) ==> Unconcerned(x, s))
    ensures Orderly(Next(x, t, a).value, s)
  {
    var y := Next(x, t, a).value;
    forall u | u != t ensures At(y, u) == At(x, u) { OthersStay(x, t, a, u); }
    if Begins(a, s) || Concerns(At(x, t), s) {
      StepHere(x, t, a, s);
      forall u | u != t ensures !Concerns(At(y, u), s) { assert At(y, u) == At(x, u); }
    } else {
      StepElsewhere(x, t, a, s);
      StaysElsewhere(x, t, a, s);
      forall u | Concerns(At(y, u), s) ensures Halfway(y, s, At(y, u)) { assert At(y, u) == At(x, u); }
      if Unconcerned(y, s) {
        forall u ensures !Concerns(At(x, u), s) { assert u != t ==> At(y, u) == At(x, u); }
      }
    }
  }

  lemma {:induction false} OrderlyRun<S>(x: Sys<S>, trace: seq<Move<S>>, s: S)
    requires Run(x, trace).Some? && Orderly(x, s) && Separate(x, trace, s)
    ensures Orderly(Run(x, trace).value, s)
    decreases |trace|
  {
    if trace != [] {
      OrderlyStep(x, trace[0].thread, trace[0].action, s);
      OrderlyRun(Next(x, trace[0].thread, trace[0].action).value, trace[1..], s);
    }
  }

  /** If no operation on a scanner begins while another one on it is under way, then between
      those operations it has exactly one live schedule if it is registered and enabled, and none
      otherwise, whatever happens to other scanners meanwhile. */
  lemma SeparateSchedules<S>(enabled: set<S>, trace: seq<Move<S>>, s: S)
    requires Run(Start(enabled), trace).Some? && Separate(Start(enabled), trace, s)
    requires var y := Run(Start(enabled), trace).value; Unconcerned(y, s) && y.crashed == {}
    ensures var y := Run(Start(enabled), trace).value; |LiveOf(y, s)| == if s in y.sched && s in y.enabled then 1 else 0
  {
    var y := Run(Start(enabled), trace).value;
    StartOk(enabled);
    RunKeeps(Start(enabled), trace);
    OrderlyRun(Start(enabled), trace, s);
    LiveBetween(y, s);
  }

  /** Whether the last thing that happened to the registration of `s` along the run was the end of
      an addition; a removal counts from its beginning, and `was` is what held before. */
  ghost predicate AddedLast<S>(x: Sys<S>, trace: seq<Move<S>>, s: S, was: bool)
    requires Run(x, trace).Some?
    decreases |trace|
  {
    if trace == [] then was
    else
      var (t, a) := (trace[0].thread, trace[0].action);
      var now := if a == AddEnd && At(x, t) == Adding(s) then true else if a == RemoveBegin(s) then false else was;
      AddedLast(Next(x, t, a).value, trace[1..], s, now)
  }

  /** The value `s` was last given along the run, by `setEnabled` or by `setScanEnabled`. */
  ghost predicate SetLast<S>(x: Sys<S>, trace: seq<Move<S>>, s: S, was: bool)
    requires Run(x, trace).Some?
    decreases |trace|
  {
    if trace == [] then was
    else
      var (t, a) := (trace[0].thread, trace[0].action);
      var now := if a.Set? && a.s == s then a.enable else if a == SweepSet(s) then At(x, t).enable else was;
      SetLast(Next(x, t, a).value, trace[1..], s, now)
  }

  lemma StepDecides<S>(x: Sys<S>, t: Thread, a: Action<S>, s: S)
    requires Next(x, t, a).Some? && Orderly(x, s) && (Begins(a, s) ==> Unconcerned(x, s))
    ensures var y := Next(x, t, a).value;
      && (s in y.sched <==>
           if a == AddEnd && At(x, t) == Adding(s) then true else if a == RemoveBegin(s) then false else s in x.sched)
      && (s in y.enabled <==>
           if a.Set? && a.s == s then a.enable else if a == SweepSet(s) then At(x, t).enable else s in x.enabled)
  {
    if !Concerns(At(x, t), s) && !Begins(a, s) { StepElsewhere(x, t, a, s); }
  }

  lemma {:induction false} RunDecides<S>(x: Sys<S>, trace: seq<Move<S>>, s: S)
    requires Run(x, trace).Some? && Orderly(x, s) && Separate(x, trace, s)
    ensures var y := Run(x, trace).value;
      && (s in y.sched <==> AddedLast(x, trace, s, s in x.sched))
      && (s in y.enabled <==> SetLast(x, trace, s, s in x.enabled))
    decreases |trace|
  {
    if trace != [] {
      OrderlyStep(x, trace[0].thread, trace[0].action, s);
      StepDecides(x, trace[0].thread, trace[0].action, s);
      RunDecides(Next(x, trace[0].thread, trace[0].action).value, trace[1..], s);
    }
  }

  /** In such a run a scanner is registered exactly if an addition of it has ended and no removal
      has begun since, it is enabled exactly if it was last set so, and between operations on it
      there is one live schedule exactly if both hold. */
  lemma SeparateRegisters<S>(enabled: set<S>, trace: seq<Move<S>>, s: S)
    requires Run(Start(enabled), trace).Some? && Separate(Start(enabled), trace, s)
    ensures var y := Run(Start(enabled), trace).value;
      var added, on := AddedLast(Start(enabled), trace, s, false), SetLast(Start(enabled), trace, s, s in enabled);
      && (s in y.sched <==> added) && (s in y.enabled <==> on)
      && (Unconcerned(y, s) && y.crashed == {} ==> |LiveOf(y, s)| == if added && on then 1 else 0)
  {
    RunDecides(Start(enabled), trace, s);
    if Unconcerned(Run(Start(enabled), trace).value, s) && Run(Start(enabled), trace).value.crashed == {} {
      SeparateSchedules(enabled, trace, s);
    }
  }

  /** Between operations on `s`, its live schedules are the one the map holds. */
  lemma LiveBetween<S>(x: Sys<S>, s: S)
    requires Inv(x) && Unconcerned(x, s) && x.crashed == {}
    ensures LiveOf(x, s) == if s in x.sched && s in x.seen then Single(x.sched[s]) else {}
    ensures |LiveOf(x, s)| == if s in x.sched && s in x.seen then 1 else 0
  {
    forall t | t in x.pcs ensures !(x.pcs[t].Cancelling? && x.pcs[t].s == s) { assert !Concerns(At(x, t), s); }
    forall f | f in LiveOf(x, s) ensures s in x.sched && x.sched[s] == Some(f) { assert LiveOk(x, f); }
    if s in x.sched { assert HeldOk(x, s); }
  }

  // ---- Scanners that come back after their removal -----------------------------------------------

  /** The thread still has to make the network handle an enabling event of `s`. */
  predicate Announcing<S(==)>(pc: PC<S>, s: S) {
    (pc.Notifying? || pc.SweepNotifying?) && pc.s == s && pc.enable && pc.left > 0
  }

  /** The step handles an enabling event of `s`. */
  predicate HandlesEnabling<S(==)>(x: Sys<S>, m: Move<S>, s: S) { m.action.Handle? && Announcing(At(x, m.thread), s) }

  predicate IsAdding<S(==)>(pc: PC<S>, s: S) { pc.Adding? && pc.s == s }

  predicate Adds<S(==)>(a: Action<S>, s: S) { a.AddBegin? && a.s == s }

  ghost predicate NoneAdding<S>(x: Sys<S>, s: S) { forall t {:trigger At(x, t)} :: !IsAdding(At(x, t), s) }

  ghost predicate NeverAdded<S>(trace: seq<Move<S>>, s: S) {
    forall k :: 0 <= k < |trace| ==> !Adds(trace[k].action, s)
  }

  /** Somewhere along the run `s` is registered. */
  ghost predicate Returns<S>(x: Sys<S>, trace: seq<Move<S>>, s: S)
    requires Run(x, trace).Some?
    decreases |trace|
  {
    s in x.sched || (trace != [] && Returns(Next(x, trace[0].thread, trace[0].action).value, trace[1..], s))
  }

  /** Somewhere along the run an enabling event of `s` is handled. */
  ghost predicate EnablingHandled<S>(x: Sys<S>, trace: seq<Move<S>>, s: S)
    requires Run(x, trace).Some?
    decreases |trace|
  {
    && trace != []
    && (HandlesEnabling(x, trace[0], s)
        || EnablingHandled(Next(x, trace[0].thread, trace[0].action).value, trace[1..], s))
  }

  lemma StepRegisters<S>(x: Sys<S>, m: Move<S>, s: S)
    requires Next(x, m.thread, m.action).Some? && s !in x.sched && !IsAdding(At(x, m.thread), s)
    ensures s in Next(x, m.thread, m.action).value.sched <==> HandlesEnabling(x, m, s)
  {}

  lemma AddsNot<S>(x: Sys<S>, m: Move<S>, s: S)
    requires Next(x, m.thread, m.action).Some? && !IsAdding(At(x, m.thread), s) && !Adds(m.action, s)
    ensures !IsAdding(At(Next(x, m.thread, m.action).value, m.thread), s)
  {}

  lemma NoneAddingStep<S>(x: Sys<S>, m: Move<S>, s: S)
    requires Next(x, m.thread, m.action).Some? && NoneAdding(x, s) && !Adds(m.action, s)
    ensures NoneAdding(Next(x, m.thread, m.action).value, s)
  {
    var y := Next(x, m.thread, m.action).value;
    forall u ensures !IsAdding(At(y, u), s) {
      assert !IsAdding(At(x, u), s);
      if u == m.thread { AddsNot(x, m, s); } else { OthersStay(x, m.thread, m.action, u); }
    }
  }

  /** A scanner that has been removed comes back before it is added again exactly if an enabling
      event of it is handled. */
  lemma {:induction false} ComesBack<S>(x: Sys<S>, trace: seq<Move<S>>, s: S)
    requires Run(x, trace).Some? && s !in x.sched && NoneAdding(x, s) && NeverAdded(trace, s)
    ensures Returns(x, trace, s) <==> EnablingHandled(x, trace, s)
    decreases |trace|
  {
    if trace != [] {
      var y := Next(x, trace[0].thread, trace[0].action).value;
      StepRegisters(x, trace[0], s);
      if s !in y.sched {
        NoneAddingStep(x, trace[0], s);
        assert forall k :: 0 <= k < |trace[1..]| ==> trace[1..][k] == trace[k + 1];
        ComesBack(y, trace[1..], s);
      }
    }
  }

  /** `removeScanner` leaves the scanner in that position. */
  lemma RemovedIsGone<S>(x: Sys<S>, t: Thread, s: S)
    requires Inv(x) && Next(x, t, RemoveBegin(s)).Some?
    ensures var y := Next(x, t, RemoveBegin(s)).value; s !in y.sched && NoneAdding(y, s)
  {
    UnlockedNoAdding(x);
    var y := Next(x, t, RemoveBegin(s)).value;
    forall u ensures !IsAdding(At(y, u), s) {
      assert !At(x, u).Adding?;
      if u != t { OthersStay(x, t, RemoveBegin(s), u); }
    }
  }

  /** Nobody listens to `s`, and nobody is about to. */
  ghost predicate Deaf<S>(x: Sys<S>, s: S) { Count(x, s) == 0 && NoneAdding(x, s) }

  lemma DeafOwn<S>(x: Sys<S>, m: Move<S>, s: S)
    requires Next(x, m.thread, m.action).Some? && Count(x, s) == 0 && !Adds(m.action, s)
    ensures var y := Next(x, m.thread, m.action).value;
      Count(y, s) == 0 && (Announcing(At(y, m.thread), s) ==> Announcing(At(x, m.thread), s))
  {}

  lemma DeafStep<S>(x: Sys<S>, m: Move<S>, s: S)
    requires Next(x, m.thread, m.action).Some? && Deaf(x, s) && !Adds(m.action, s)
    ensures var y := Next(x, m.thread, m.action).value;
      Deaf(y, s) && forall t {:trigger At(y, t)} :: Announcing(At(y, t), s) ==> Announcing(At(x, t), s)
  {
    NoneAddingStep(x, m, s);
    DeafOwn(x, m, s);
    var y := Next(x, m.thread, m.action).value;
    forall t | t != m.thread ensures At(y, t) == At(x, t) { OthersStay(x, m.thread, m.action, t); }
  }

  /** Once the removal has ended and nobody listens, only threads that are already announcing an
      enabling can bring the scanner back. */
  lemma {:induction false} OnlyAnnouncers<S>(x: Sys<S>, trace: seq<Move<S>>, s: S)
    requires Run(x, trace).Some? && s !in x.sched && Deaf(x, s) && NeverAdded(trace, s)
    requires forall t {:trigger At(x, t)} :: !Announcing(At(x, t), s)
    ensures s !in Run(x, trace).value.sched
    decreases |trace|
  {
    if trace != [] {
      var y := Next(x, trace[0].thread, trace[0].action).value;
      StepRegisters(x, trace[0], s);
      DeafStep(x, trace[0], s);
      assert forall k :: 0 <= k < |trace[1..]| ==> trace[1..][k] == trace[k + 1];
      OnlyAnnouncers(y, trace[1..], s);
    }
  }

  /** A removed scanner that nobody listens to any more can come back without being added again
      exactly if some thread is announcing an enabling of it at that moment. */
  lemma CanComeBack<S(!new)>(x: Sys<S>, s: S)
    requires Inv(x) && x.lock.None? && s !in x.sched && Count(x, s) == 0
    ensures (exists trace :: NeverAdded(trace, s) && Run(x, trace).Some? && s in Run(x, trace).value.sched)
      <==> exists t :: Announcing(At(x, t), s)
  {
    UnlockedNoAdding(x);
    if t :| Announcing(At(x, t), s) {
      assert ThreadOk(x, t);
      var trace := [By(t, Handle)];
      assert trace[1..] == [];
      assert NeverAdded(trace, s) && Run(x, trace).Some? && s in Run(x, trace).value.sched;
    } else {
      forall trace | NeverAdded(trace, s) && Run(x, trace).Some? ensures s !in Run(x, trace).value.sched {
        OnlyAnnouncers(x, trace, s);
      }
    }
  }

  // ---- Two races -----------------------------------------------------------------------------

  lemma {:induction false} RunMore<S>(x: Sys<S>, trace: seq<Move<S>>, m: Move<S>)
    requires Run(x, trace).Some?
    ensures Run(x, trace + [m]) == Next(Run(x, trace).value, m.thread, m.action)
    decreases |trace|
  {
    if trace == [] {
      assert [] + [m] == [m] && [m][1..] == [];
    } else {
      assert (trace + [m])[1..] == trace[1..] + [m];
      RunMore(Next(x, trace[0].thread, trace[0].action).value, trace[1..], m);
    }
  }

  /** Two steps in a row lead from `y` to `z`. */
  ghost predicate Steps<S>(y: Sys<S>, a: Move<S>, b: Move<S>, z: Sys<S>) {
    && Next(y, a.thread, a.action).Some?
    && Next(Next(y, a.thread, a.action).value, b.thread, b.action) == Some(z)
  }

  lemma RunTwo<S>(x: Sys<S>, trace: seq<Move<S>>, y: Sys<S>, a: Move<S>, b: Move<S>, z: Sys<S>)
    requires Run(x, trace) == Some(y) && Steps(y, a, b, z)
    ensures Run(x, trace + [a] + [b]) == Some(z)
  {
    RunMore(x, trace, a);
    RunMore(x, trace + [a], b);
  }

  /** A registered scanner with no schedule, and two threads. */
  function Disabled(s: int, one: PC<int>, two: PC<int>): Sys<int> {
    Sys({}, map[s := 1], map[s := None], {}, 0, None, map[1 := one, 2 := two], map[], {}, {})
  }

  lemma Puts(one: PC<int>, two: PC<int>, pc: PC<int>)
    ensures map[1 := one, 2 := two][1 := pc] == map[1 := pc, 2 := two]
    ensures map[1 := one, 2 := two][2 := pc] == map[1 := one, 2 := pc]
  {}

  /** A scanner that is not enabled is added; setting it to what it is does nothing more. */
  function Prelude(s: int): seq<Move<int>> {
    [] + [By(1, AddBegin(s))] + [By(1, AddEnd)] + [By(2, Set(s, false))]
  }

  lemma DisabledReached(s: int)
    ensures Run(Start({}), Prelude(s)) == Some(Disabled(s, Idle, Idle))
  {
    var x := Start<int>({});
    var y := Sys({}, map[s := 1], map[s := None], {}, 0, None, map[1 := Idle], map[], {}, {});
    var none, nobody: set<int> := map[], {};
    assert none[s := 1] == map[s := 1] && nobody - {s} == nobody;
    PutOnce(Adding(s), Idle);
    assert Steps(x, By(1, AddBegin(s)), By(1, AddEnd), y);
    RunTwo(x, [], x, By(1, AddBegin(s)), By(1, AddEnd), y);
    RunMore(x, [] + [By(1, AddBegin(s))] + [By(1, AddEnd)], By(2, Set(s, false)));
  }

  lemma PutOnce(one: PC<int>, two: PC<int>)
    ensures map[1 := one][1 := two] == map[1 := two] && map[1 := two][2 := two] == map[1 := two, 2 := two]
  {}

  lemma StaleFirst(s: int)
    ensures Steps(Disabled(s, Idle, Idle), By(1, Set(s, true)), By(2, Set(s, false)),
      Disabled(s, Swapped(s, true), Swapped(s, false)))
  {
    Puts(Idle, Idle, Swapped(s, true));
    Puts(Swapped(s, true), Idle, Swapped(s, false));
    assert {} + {s} == {s} && {s} - {s} == {};
  }

  lemma StaleSecond(s: int)
    ensures Steps(Disabled(s, Swapped(s, true), Swapped(s, false)), By(2, Snapshot), By(2, Handle),
                  Disabled(s, Swapped(s, true), Notifying(s, false, 0)))
  {
    Puts(Swapped(s, true), Swapped(s, false), Notifying(s, false, 1));
    Puts(Swapped(s, true), Notifying(s, false, 1), Notifying(s, false, 0));
    var none: set<Future>, nobody: set<int> := {}, {};
    assert none - {} == none && nobody - {s} == nobody;
  }

  lemma StaleThird(s: int)
    ensures Steps(Disabled(s, Swapped(s, true), Notifying(s, false, 0)), By(2, Handle), By(1, Snapshot),
                  Disabled(s, Notifying(s, true, 1), Idle))
  {
    Puts(Swapped(s, true), Notifying(s, false, 0), Idle);
    Puts(Swapped(s, true), Idle, Notifying(s, true, 1));
  }

  lemma StaleLast(s: int, y: Sys<int>)
    requires y == Schedule(Disabled(s, Idle, Idle), s)
    ensures Steps(Disabled(s, Notifying(s, true, 1), Idle), By(1, Handle), By(1, Handle), y)
    ensures Quiescent(y) && s in y.sched && s !in y.enabled && LiveOf(y, s) == {0}
  {
    Puts(Notifying(s, true, 1), Idle, Notifying(s, true, 0));
    Puts(Notifying(s, true, 0), Idle, Idle);
    assert y.live == {0} && y.owner == map[0 := s];
  }

  /** Two threads enable and disable a scanner; the events overtake each other, and the disabled
      scanner stays scheduled. */
  lemma StaleEvent(s: int) returns (trace: seq<Move<int>>, y: Sys<int>)
    ensures Run(Start({}), trace) == Some(y)
    ensures Quiescent(y) && s in y.sched && s !in y.enabled && LiveOf(y, s) == {0}
  {
    var x, z := Start<int>({}), Disabled(s, Idle, Idle);
    y := Schedule(z, s);
    DisabledReached(s);
    StaleFirst(s);
    StaleSecond(s);
    StaleThird(s);
    StaleLast(s, y);
    var t0 := Prelude(s);
    RunTwo(x, t0, z, By(1, Set(s, true)), By(2, Set(s, false)), Disabled(s, Swapped(s, true), Swapped(s, false)));
    var t1 := t0 + [By(1, Set(s, true))] + [By(2, Set(s, false))];
    RunTwo(x, t1, Disabled(s, Swapped(s, true), Swapped(s, false)), By(2, Snapshot), By(2, Handle),
        Disabled(s, Swapped(s, true), Notifying(s, false, 0)));
    var t2 := t1 + [By(2, Snapshot)] + [By(2, Handle)];
    RunTwo(x, t2, Disabled(s, Swapped(s, true), Notifying(s, false, 0)), By(2, Handle), By(1, Snapshot),
        Disabled(s, Notifying(s, true, 1), Idle));
    var t3 := t2 + [By(2, Handle)] + [By(1, Snapshot)];
    RunTwo(x, t3, Disabled(s, Notifying(s, true, 1), Idle), By(1, Handle), By(1, Handle), y);
    trace := t3 + [By(1, Handle)] + [By(1, Handle)];
  }

  /** A removed scanner whose enabling is still being handled. */
  function Gone(s: int, listeners: nat, one: PC<int>, two: PC<int>): Sys<int> {
    Sys({s}, map[s := listeners], map[], {}, 0, None, map[1 := one, 2 := two], map[], {}, {})
  }

  lemma LateFirst(s: int)
    ensures var y := Disabled(s, Notifying(s, true, 1), Idle).(enabled := {s});
      && Steps(Disabled(s, Idle, Idle), By(1, Set(s, true)), By(1, Snapshot), y)
      && Steps(y, By(2, RemoveBegin(s)), By(2, Cancel), Gone(s, 1, Notifying(s, true, 1), Unregistering(s)))
  {
    assert {} + {s} == {s};
    Puts(Idle, Idle, Swapped(s, true));
    Puts(Swapped(s, true), Idle, Notifying(s, true, 1));
    Puts(Notifying(s, true, 1), Idle, Cancelling(s, None));
    Puts(Notifying(s, true, 1), Cancelling(s, None), Unregistering(s));
    var held: map<int, Option<Future>> := map[s := None];
    assert held - {s} == map[];
    var none: set<Future> := {};
    assert none - {} == none;
  }

  lemma LateLast(s: int, y: Sys<int>)
    requires y == Schedule(Gone(s, 0, Idle, Idle), s)
    ensures Steps(Gone(s, 1, Notifying(s, true, 1), Unregistering(s)), By(2, Unregister), By(1, Handle),
      Goto(y, 1, Notifying(s, true, 0)))
    ensures Next(Goto(y, 1, Notifying(s, true, 0)), 1, Handle) == Some(y)
    ensures Quiescent(y) && Count(y, s) == 0 && LiveOf(y, s) == {0}
  {
    var count: map<int, nat> := map[s := 1];
    assert count[s := 0] == map[s := 0];
    Puts(Notifying(s, true, 1), Unregistering(s), Idle);
    Puts(Notifying(s, true, 1), Idle, Notifying(s, true, 0));
    Puts(Idle, Idle, Notifying(s, true, 0));
    Puts(Notifying(s, true, 0), Idle, Idle);
    assert y.live == {0} && y.owner == map[0 := s];
  }

  /** A scanner is removed while an enabling event is under way: it ends up scheduled although
      it was removed, and the network no longer listens to it. */
  lemma LateEvent(s: int) returns (trace: seq<Move<int>>, y: Sys<int>)
    ensures Run(Start({}), trace) == Some(y)
    ensures By(2, RemoveBegin(s)) in trace && Quiescent(y) && Count(y, s) == 0 && LiveOf(y, s) == {0}
  {
    var x := Start<int>({});
    y := Schedule(Gone(s, 0, Idle, Idle), s);
    DisabledReached(s);
    LateFirst(s);
    LateLast(s, y);
    var z := Disabled(s, Notifying(s, true, 1), Idle).(enabled := {s});
    var g := Gone(s, 1, Notifying(s, true, 1), Unregistering(s));
    var t0 := Prelude(s);
    RunTwo(x, t0, Disabled(s, Idle, Idle), By(1, Set(s, true)), By(1, Snapshot), z);
    var t1 := t0 + [By(1, Set(s, true))] + [By(1, Snapshot)];
    RunTwo(x, t1, z, By(2, RemoveBegin(s)), By(2, Cancel), g);
    var t2 := t1 + [By(2, RemoveBegin(s))] + [By(2, Cancel)];
    RunTwo(x, t2, g, By(2, Unregister), By(1, Handle), Goto(y, 1, Notifying(s, true, 0)));
    var t3 := t2 + [By(2, Unregister)] + [By(1, Handle)];
    RunMore(x, t3, By(1, Handle));
    trace := t3 + [By(1, Handle)];
    assert trace[5] == By(2, RemoveBegin(s));
  }
}
