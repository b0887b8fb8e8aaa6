/** The life of one descriptor under any interleaving of status, kill, deploy and remove scans
    and of client calls to deploy, kill and remove it. */
module Lifecycle {
  import opened ApplicationState
  import opened Wrappers

  // ---- What a probe can yield --------------------------------------------------------------

  /** The causes of a failed authority check, outermost first. */
  datatype Throwable =
    | UnknownHost | UserAuth | Transport | Timeout | Interrupted
    | Other(cause: Option<Throwable>)

  function ResolveStateFromThrowable(throwable: Option<Throwable>): AppState {
    if throwable.None? then UNKNOWN
    else
      match throwable.value
      case UnknownHost => INVALID
      case UserAuth => NO_AUTH
      case Transport => UNREACHABLE
      case Timeout => UNREACHABLE
      case Interrupted => UNKNOWN
      case Other(cause) => if cause.None? then UNREACHABLE else ResolveStateFromThrowable(cause)
  }

  /** What the default manager finds: the application call, the host, its reachability, and the
      authority check. */
  datatype Host = NoHost | Unreachable | Checked(failure: Option<Throwable>)

  function ProbeHostState(host: Host): AppState {
    match host
    case NoHost => UNKNOWN
    case Unreachable => UNREACHABLE
    case Checked(failure) => if failure.None? then AUTH else ResolveStateFromThrowable(failure)
  }

  function ProbeState(callSucceeds: bool, host: Host): AppState {
    if callSucceeds then RUNNING else ProbeHostState(host)
  }

  /** The throwables of a chain of causes, outermost first. */
  function Chain(t: Throwable): seq<Throwable> {
    [t] + if t.Other? && t.cause.Some? then Chain(t.cause.value) else []
  }

  /** The state a failed check resolves to is that of the first telling throwable among the
      causes, and UNREACHABLE if none tells anything. */
  lemma {:induction false} FirstTellingCause(t: Throwable, k: nat)
    requires k < |Chain(t)| && !Chain(t)[k].Other? && forall i :: 0 <= i < k ==> Chain(t)[i].Other?
    ensures ResolveStateFromThrowable(Some(t)) == ResolveStateFromThrowable(Some(Chain(t)[k]))
  {
    if k > 0 {
      assert Chain(t)[0] == t;
      var rest := t.cause.value;
      assert Chain(t)[1..] == Chain(rest);
      assert Chain(rest)[k - 1] == Chain(t)[k] && forall i :: 0 <= i < k - 1 ==> Chain(rest)[i] == Chain(t)[i + 1];
      FirstTellingCause(rest, k - 1);
    }
  }

  lemma {:induction false} NoTellingCause(t: Throwable)
    requires forall i :: 0 <= i < |Chain(t)| ==> Chain(t)[i].Other?
    ensures ResolveStateFromThrowable(Some(t)) == UNREACHABLE
  {
    assert Chain(t)[0] == t;
    if t.cause.Some? {
      assert Chain(t)[1..] == Chain(t.cause.value);
      forall i | 0 <= i < |Chain(t.cause.value)| ensures Chain(t.cause.value)[i].Other? {
        assert Chain(t.cause.value)[i] == Chain(t)[i + 1];
      }
      NoTellingCause(t.cause.value);
    }
  }

  const PROBEABLE := {RUNNING, AUTH, NO_AUTH, UNREACHABLE, INVALID, UNKNOWN}

  lemma {:induction false} ResolvesProbeable(throwable: Option<Throwable>)
    ensures ResolveStateFromThrowable(throwable) in PROBEABLE
  {
    if throwable.Some? && throwable.value.Other? && throwable.value.cause.Some? {
      ResolvesProbeable(throwable.value.cause);
    }
  }

  /** A probe can yield exactly these six states. */
  lemma ProbeRange(state: AppState)
    ensures state in PROBEABLE <==> exists call, host :: ProbeState(call, host) == state
  {
    if state in PROBEABLE {
      var host := match state
        case AUTH => Checked(None)
        case NO_AUTH => Checked(Some(UserAuth))
        case UNREACHABLE => Unreachable
        case INVALID => Checked(Some(UnknownHost))
        case _ => NoHost;
      assert ProbeState(state == RUNNING, host) == state;
    }
    forall call, host | ProbeState(call, host) == state ensures state in PROBEABLE {
      if host.Checked? { ResolvesProbeable(host.failure); }
    }
  }

  /** The first throwable that is not just a wrapper. */
  function FirstTelling(chain: seq<Throwable>): Option<Throwable> {
    if chain == [] then None else if !chain[0].Other? then Some(chain[0]) else FirstTelling(chain[1..])
  }

  predicate Failed(host: Host) { host.Checked? && host.failure.Some? }

  /** What the causes of a failed check tell, if it failed and they tell anything. */
  function Told(host: Host): Option<Throwable> {
    if Failed(host) then FirstTelling(Chain(host.failure.value)) else None
  }

  lemma {:induction false} ResolvesByTold(t: Throwable)
    ensures ResolveStateFromThrowable(Some(t)) in {INVALID, NO_AUTH, UNKNOWN, UNREACHABLE}
    ensures var state, told := ResolveStateFromThrowable(Some(t)), FirstTelling(Chain(t));
      && (state == INVALID <==> told == Some(UnknownHost)) && (state == NO_AUTH <==> told == Some(UserAuth))
      && (state == UNKNOWN <==> told == Some(Throwable.Interrupted))
      && (state == UNREACHABLE <==> told in {None, Some(Transport), Some(Throwable.Timeout)})
  {
    assert Chain(t)[0] == t;
    if t.Other? {
      if t.cause.Some? {
        assert Chain(t)[1..] == Chain(t.cause.value);
        ResolvesByTold(t.cause.value);
      } else {
        assert Chain(t)[1..] == [];
      }
    }
  }

  /** What each outcome of a probe means. */
  lemma ProbeMeans(call: bool, host: Host)
    ensures var state, told := ProbeState(call, host), Told(host);
      && (state == RUNNING <==> call)
      && (state == AUTH <==> !call && host == Checked(None))
      && (state == INVALID <==> !call && told == Some(UnknownHost))
      && (state == NO_AUTH <==> !call && told == Some(UserAuth))
      && (state == UNKNOWN <==> !call && (host == NoHost || told == Some(Throwable.Interrupted)))
      && (state == UNREACHABLE <==>
           !call && (host == Unreachable || (Failed(host) && told in {None, Some(Transport), Some(Throwable.Timeout)})))
  {
    if Failed(host) {
      ResolvesByTold(host.failure.value);
      assert host.failure == Some(host.failure.value);
    }
  }

  // ---- Threads -----------------------------------------------------------------------------

  type Thread = nat
  type Reference = int

  /** Where a scan or a client call is. */
  datatype PC =
    | Idle
    | StatusRead(old_state: AppState) | Probed(old_state: AppState, new_state: AppState)
    | Deploying | DeployReturned(reference: Reference) | ReferenceSet(reference: Reference)
    | Killing | KillReturned
    | RemoveObserved(observed: AppState) | ClientRemoving

  datatype Sys = Sys(state: AppState, reference: Option<Reference>, removed: bool, pcs: map<Thread, PC>)

  function At(x: Sys, t: Thread): PC { if t in x.pcs then x.pcs[t] else Idle }

  function Goto(x: Sys, t: Thread, pc: PC): Sys { x.(pcs := x.pcs[t := pc]) }

  predicate IsKillable(state: AppState) { state == RUNNING || state == DEPLOYED }

  predicate IsDeployable(state: AppState) { state == AUTH }

  predicate IsRemovable(state: AppState) { state == UNREACHABLE || state == INVALID }

  datatype Action =
    | ScanStatus | Probe(callSucceeds: bool, host: Host) | CompareAndSet
    | ScanDeploy | ClientDeploy | DeployReturns(reference: Reference) | DeployThrows | SetReference | SetDeployed
    | ScanKill | ClientKill | KillReturns | KillThrows | SetKilled
    | ScanRemove | ClientRemove | Remove

  /** The state after thread `t` takes an atomic step; None if it cannot. */
  function Next(x: Sys, t: Thread, a: Action): Option<Sys> {
    var pc := At(x, t);
    match a
    case ScanStatus => if pc == Idle then Some(Goto(x, t, StatusRead(x.state))) else None
    case Probe(call, host) =>
      if pc.StatusRead? then Some(Goto(x, t, Probed(pc.old_state, ProbeState(call, host)))) else None
    case CompareAndSet =>
      if pc.Probed? then Some(Goto(if x.state == pc.old_state then x.(state := pc.new_state) else x, t, Idle)) else None
    case ScanDeploy => if pc == Idle then Some(Goto(x, t, if IsDeployable(x.state) then Deploying else Idle)) else None
    case ClientDeploy => if pc == Idle then Some(Goto(x, t, Deploying)) else None
    case DeployReturns(reference) => if pc.Deploying? then Some(Goto(x, t, DeployReturned(reference))) else None
    case DeployThrows => if pc.Deploying? then Some(Goto(x, t, Idle)) else None
    case SetReference =>
      if pc.DeployReturned? then Some(Goto(x.(reference := Some(pc.reference)), t, ReferenceSet(pc.reference)))
          else None
    case SetDeployed => if pc.ReferenceSet? then Some(Goto(x.(state := DEPLOYED), t, Idle)) else None
    case ScanKill => if pc == Idle then Some(Goto(x, t, if IsKillable(x.state) then Killing else Idle)) else None
    case ClientKill => if pc == Idle then Some(Goto(x, t, Killing)) else None
    case KillReturns => if pc.Killing? then Some(Goto(x, t, KillReturned)) else None
    case KillThrows => if pc.Killing? then Some(Goto(x, t, Idle)) else None
    case SetKilled => if pc.KillReturned? then Some(Goto(x.(state := KILLED), t, Idle)) else None
    case ScanRemove =>
      if pc == Idle then Some(Goto(x, t, if IsRemovable(x.state) then RemoveObserved(x.state) else Idle)) else None
    case ClientRemove => if pc == Idle then Some(Goto(x, t, ClientRemoving)) else None
    case Remove => if pc.RemoveObserved? || pc.ClientRemoving? then Some(Goto(x.(removed := true), t, Idle)) else None
  }

  datatype Move = By(thread: Thread, action: Action)

  const START := Sys(UNKNOWN, None, false, map[])

  function Run(trace: seq<Move>): Option<Sys> {
    if trace == [] then Some(START)
    else
      var x := Run(trace[..|trace| - 1]);
      var m := trace[|trace| - 1];
      if x.None? then None else Next(x.value, m.thread, m.action)
  }

  /** The state after the first `n` moves. */
  function After(trace: seq<Move>, n: nat): Option<Sys>
    requires n <= |trace|
  {
    Run(trace[..n])
  }

  // ---- Where each value comes from -------------------------------------------------------------

  /** Between moves `i` and `j` thread `t` does nothing. */
  ghost predicate Alone(trace: seq<Move>, t: Thread, i: nat, j: nat)
    requires j <= |trace|
  {
    forall m :: i < m < j ==> trace[m].thread != t
  }

  ghost predicate Done(trace: seq<Move>, t: Thread, a: Action, i: nat) {
    i < |trace| && trace[i] == By(t, a)
  }

  /** The latest move of thread `t` is `a`, at `i`. */
  ghost predicate JustDone(trace: seq<Move>, t: Thread, a: Action, i: nat) {
    Done(trace, t, a, i) && Alone(trace, t, i, |trace|)
  }

  /** At move `j` thread `t` read `v`. */
  ghost predicate ReadAt(trace: seq<Move>, t: Thread, a: Action, v: AppState, j: nat) {
    Done(trace, t, a, j) && After(trace, j).Some? && After(trace, j).value.state == v
  }

  /** One scan: thread `t` read `v` at `j`, and its next move, at `p`, was the probe that gave `w`. */
  ghost predicate ProbedAt(trace: seq<Move>, t: Thread, v: AppState, w: AppState, j: nat, p: nat) {
    && ReadAt(trace, t, ScanStatus, v, j) && j < p < |trace| && Alone(trace, t, j, p)
    && trace[p].thread == t && trace[p].action.Probe?
    && w == ProbeState(trace[p].action.callSucceeds, trace[p].action.host)
  }

  /** One call of `deploy`: its manager returned the reference at `i`, and the next move of the
      thread, at `j`, set it. */
  ghost predicate Deployed(trace: seq<Move>, t: Thread, reference: Reference, i: nat, j: nat) {
    i < j && Done(trace, t, DeployReturns(reference), i) && Done(trace, t, SetReference, j) && Alone(trace, t, i, j)
  }

  /** Thread `t` began a deployment at `j`: on behalf of a client, or in a scan that read AUTH. */
  ghost predicate DeployBegun(trace: seq<Move>, t: Thread, j: nat) {
    Done(trace, t, ClientDeploy, j) || ReadAt(trace, t, ScanDeploy, AUTH, j)
  }

  /** Thread `t` began a kill at `j`: on behalf of a client, or in a scan that read RUNNING or DEPLOYED. */
  ghost predicate KillBegun(trace: seq<Move>, t: Thread, j: nat) {
    || Done(trace, t, ClientKill, j)
    || ReadAt(trace, t, ScanKill, RUNNING, j) || ReadAt(trace, t, ScanKill, DEPLOYED, j)
  }

  /** Thread `t` set out to remove the descriptor at `j`: on behalf of a client, or in a scan that
      read UNREACHABLE or INVALID. */
  ghost predicate RemoveBegun(trace: seq<Move>, t: Thread, j: nat) {
    || Done(trace, t, ClientRemove, j)
    || ReadAt(trace, t, ScanRemove, UNREACHABLE, j) || ReadAt(trace, t, ScanRemove, INVALID, j)
  }

  ghost predicate PcOk(trace: seq<Move>, t: Thread, pc: PC) {
    match pc
    case Deploying => exists j: nat :: DeployBegun(trace, t, j) && Alone(trace, t, j, |trace|)
    case Killing => exists j: nat :: KillBegun(trace, t, j) && Alone(trace, t, j, |trace|)
    case ClientRemoving => exists j: nat :: RemoveBegun(trace, t, j) && Alone(trace, t, j, |trace|)
    case StatusRead(v) => exists j: nat :: ReadAt(trace, t, ScanStatus, v, j) && Alone(trace, t, j, |trace|)
    case Probed(v, w) => exists j: nat, p: nat :: ProbedAt(trace, t, v, w, j, p) && Alone(trace, t, p, |trace|)
    case DeployReturned(r) => exists i: nat :: JustDone(trace, t, DeployReturns(r), i)
    case ReferenceSet(r) => exists i: nat, j: nat :: Deployed(trace, t, r, i, j) && Alone(trace, t, j, |trace|)
    case KillReturned => exists i: nat :: JustDone(trace, t, KillReturns, i)
    case RemoveObserved(_) => exists j: nat :: RemoveBegun(trace, t, j) && Alone(trace, t, j, |trace|)
    case Idle => true
  }

  ghost predicate DeployedBy(trace: seq<Move>, t: Thread, r: Reference, i: nat, j: nat, k: nat) {
    Deployed(trace, t, r, i, j) && j < k && Done(trace, t, SetDeployed, k) && Alone(trace, t, j, k)
  }

  ghost predicate KilledBy(trace: seq<Move>, t: Thread, i: nat, k: nat) {
    i < k && Done(trace, t, KillReturns, i) && Done(trace, t, SetKilled, k) && Alone(trace, t, i, k)
  }

  ghost predicate StateOk(trace: seq<Move>, state: AppState) {
    match state
    case DEPLOYED => exists t, r, i: nat, j: nat, k: nat :: DeployedBy(trace, t, r, i, j, k)
    case KILLED => exists t, i: nat, k: nat :: KilledBy(trace, t, i, k)
    case _ => state in PROBEABLE
  }

  ghost predicate Explained(trace: seq<Move>, x: Sys) {
    && (forall t {:trigger At(x, t)} :: PcOk(trace, t, At(x, t)))
    && StateOk(trace, x.state)
    && (x.reference.Some? ==> exists t, i: nat :: Done(trace, t, DeployReturns(x.reference.value), i))
    && (x.state == DEPLOYED ==> x.reference.Some?)
    && (forall t {:trigger At(x, t)} :: At(x, t).ReferenceSet? ==> x.reference.Some?)
  }

  lemma ReadLater(trace: seq<Move>, m: Move, t: Thread, a: Action, v: AppState, j: nat)
    requires ReadAt(trace, t, a, v, j)
    ensures ReadAt(trace + [m], t, a, v, j)
  {
    assert (trace + [m])[..j] == trace[..j];
  }

  lemma ProbedLater(trace: seq<Move>, m: Move, t: Thread, v: AppState, w: AppState, j: nat, p: nat)
    requires ProbedAt(trace, t, v, w, j, p)
    ensures ProbedAt(trace + [m], t, v, w, j, p)
  {
    ReadLater(trace, m, t, ScanStatus, v, j);
  }

  lemma BegunLater(trace: seq<Move>, m: Move, t: Thread, j: nat)
    ensures DeployBegun(trace, t, j) ==> DeployBegun(trace + [m], t, j)
    ensures KillBegun(trace, t, j) ==> KillBegun(trace + [m], t, j)
    ensures RemoveBegun(trace, t, j) ==> RemoveBegun(trace + [m], t, j)
  {
    if j < |trace| { assert (trace + [m])[..j] == trace[..j]; }
  }

  lemma PcLater(trace: seq<Move>, m: Move, t: Thread, pc: PC)
    requires PcOk(trace, t, pc) && m.thread != t
    ensures PcOk(trace + [m], t, pc)
  {
    var longer := trace + [m];
    match pc
    case StatusRead(v) =>
      var j: nat :| ReadAt(trace, t, ScanStatus, v, j) && Alone(trace, t, j, |trace|);
      ReadLater(trace, m, t, ScanStatus, v, j);
      assert Alone(longer, t, j, |longer|);
    case Probed(v, w) =>
      var j: nat, p: nat :| ProbedAt(trace, t, v, w, j, p) && Alone(trace, t, p, |trace|);
      ProbedLater(trace, m, t, v, w, j, p);
      assert Alone(longer, t, p, |longer|);
    case DeployReturned(r) =>
      var i: nat :| JustDone(trace, t, DeployReturns(r), i);
      assert JustDone(longer, t, DeployReturns(r), i);
    case ReferenceSet(r) =>
      var i: nat, j: nat :| Deployed(trace, t, r, i, j) && Alone(trace, t, j, |trace|);
      assert Deployed(longer, t, r, i, j) && Alone(longer, t, j, |longer|);
    case KillReturned =>
      var i: nat :| JustDone(trace, t, KillReturns, i);
      assert JustDone(longer, t, KillReturns, i);
    case Deploying =>
      var j: nat :| DeployBegun(trace, t, j) && Alone(trace, t, j, |trace|);
      BegunLater(trace, m, t, j);
      assert Alone(longer, t, j, |longer|);
    case Killing =>
      var j: nat :| KillBegun(trace, t, j) && Alone(trace, t, j, |trace|);
      BegunLater(trace, m, t, j);
      assert Alone(longer, t, j, |longer|);
    case RemoveObserved(_) => RemovingLater(trace, m, t);
    case ClientRemoving => RemovingLater(trace, m, t);
    case Idle =>
  }

  lemma RemovingLater(trace: seq<Move>, m: Move, t: Thread)
    requires m.thread != t && exists j: nat :: RemoveBegun(trace, t, j) && Alone(trace, t, j, |trace|)
    ensures exists j: nat :: RemoveBegun(trace + [m], t, j) && Alone(trace + [m], t, j, |trace| + 1)
  {
    var j: nat :| RemoveBegun(trace, t, j) && Alone(trace, t, j, |trace|);
    BegunLater(trace, m, t, j);
    assert Alone(trace + [m], t, j, |trace| + 1);
  }

  lemma StateLater(trace: seq<Move>, m: Move, state: AppState)
    requires StateOk(trace, state)
    ensures StateOk(trace + [m], state)
  {
    var longer := trace + [m];
    if state == DEPLOYED {
      var t, r, i: nat, j: nat, k: nat :| DeployedBy(trace, t, r, i, j, k);
      assert DeployedBy(longer, t, r, i, j, k);
    } else if state == KILLED {
      var t, i: nat, k: nat :| KilledBy(trace, t, i, k);
      assert KilledBy(longer, t, i, k);
    }
  }

  /** What the moving thread's new place rests on. */
  lemma MoverOk(trace: seq<Move>, x: Sys, m: Move)
    requires Run(trace) == Some(x) && Explained(trace, x) && Next(x, m.thread, m.action).Some?
    ensures var y := Next(x, m.thread, m.action).value; PcOk(trace + [m], m.thread, At(y, m.thread))
  {
    var longer, t, n := trace + [m], m.thread, |trace|;
    assert longer[n] == m && longer[..n] == trace && Alone(longer, t, n, |longer|);
    var pc := At(x, t);
    assert PcOk(trace, t, pc);
    match m.action
    case ScanStatus => assert ReadAt(longer, t, ScanStatus, x.state, n);
    case Probe(call, host) =>
      var j: nat :| ReadAt(trace, t, ScanStatus, pc.old_state, j) && Alone(trace, t, j, |trace|);
      ReadLater(trace, m, t, ScanStatus, pc.old_state, j);
      assert ProbedAt(longer, t, pc.old_state, ProbeState(call, host), j, n);
    case DeployReturns(r) => assert JustDone(longer, t, DeployReturns(r), n);
    case SetReference =>
      var i: nat :| JustDone(trace, t, DeployReturns(pc.reference), i);
      assert Deployed(longer, t, pc.reference, i, n);
    case KillReturns => assert JustDone(longer, t, KillReturns, n);
    case ClientDeploy => assert DeployBegun(longer, t, n);
    case ScanDeploy => if IsDeployable(x.state) { assert DeployBegun(longer, t, n); }
    case ClientKill => assert KillBegun(longer, t, n);
    case ScanKill => if IsKillable(x.state) { assert KillBegun(longer, t, n); }
    case ClientRemove => assert RemoveBegun(longer, t, n);
    case ScanRemove => if IsRemovable(x.state) { assert RemoveBegun(longer, t, n); }
    case _ =>
  }

  lemma DeployedOk(trace: seq<Move>, t: Thread, reference: Reference)
    requires PcOk(trace, t, ReferenceSet(reference))
    ensures StateOk(trace + [By(t, SetDeployed)], DEPLOYED)
  {
    var longer, n := trace + [By(t, SetDeployed)], |trace|;
    var i: nat, j: nat :| Deployed(trace, t, reference, i, j) && Alone(trace, t, j, |trace|);
    assert DeployedBy(longer, t, reference, i, j, n);
  }

  lemma KilledOk(trace: seq<Move>, t: Thread)
    requires PcOk(trace, t, KillReturned)
    ensures StateOk(trace + [By(t, SetKilled)], KILLED)
  {
    var longer, n := trace + [By(t, SetKilled)], |trace|;
    var i: nat :| JustDone(trace, t, KillReturns, i);
    assert KilledBy(longer, t, i, n);
  }

  lemma ValueOk(trace: seq<Move>, x: Sys, m: Move)
    requires Explained(trace, x) && Next(x, m.thread, m.action).Some?
    ensures var y := Next(x, m.thread, m.action).value;
      StateOk(trace + [m], y.state) && (y.state == DEPLOYED ==> y.reference.Some?)
  {
    var pc := At(x, m.thread);
    assert PcOk(trace, m.thread, pc);
    StateLater(trace, m, x.state);
    match m.action
    case SetDeployed => DeployedOk(trace, m.thread, pc.reference);
    case SetKilled => KilledOk(trace, m.thread);
    case CompareAndSet =>
      var j: nat, p: nat :| ProbedAt(trace, m.thread, pc.old_state, pc.new_state, j, p);
      ProbeRange(pc.new_state);
      StateLater(trace, m, x.state);
    case _ =>
  }

  lemma ReferenceOk(trace: seq<Move>, x: Sys, m: Move)
    requires Explained(trace, x) && Next(x, m.thread, m.action).Some?
    ensures var y := Next(x, m.thread, m.action).value;
      y.reference.Some? ==> exists t, i: nat :: Done(trace + [m], t, DeployReturns(y.reference.value), i)
  {
    var y := Next(x, m.thread, m.action).value;
    if y.reference.Some? {
      if m.action.SetReference? {
        assert PcOk(trace, m.thread, At(x, m.thread));
        var i: nat :| JustDone(trace, m.thread, DeployReturns(y.reference.value), i);
        assert Done(trace + [m], m.thread, DeployReturns(y.reference.value), i);
      } else {
        var t, i: nat :| Done(trace, t, DeployReturns(x.reference.value), i);
        assert Done(trace + [m], t, DeployReturns(y.reference.value), i);
      }
    }
  }

  lemma StepExplained(trace: seq<Move>, x: Sys, m: Move)
    requires Run(trace) == Some(x) && Explained(trace, x) && Next(x, m.thread, m.action).Some?
    ensures Explained(trace + [m], Next(x, m.thread, m.action).value)
  {
    var y := Next(x, m.thread, m.action).value;
    MoverOk(trace, x, m);
    ValueOk(trace, x, m);
    ReferenceOk(trace, x, m);
    forall t ensures PcOk(trace + [m], t, At(y, t)) && (At(y, t).ReferenceSet? ==> y.reference.Some?) {
      OthersOk(trace, x, m, t);
      ReferenceStays(x, m, t);
    }
  }

  lemma OthersOk(trace: seq<Move>, x: Sys, m: Move, t: Thread)
    requires PcOk(trace, t, At(x, t)) && Next(x, m.thread, m.action).Some?
    ensures t != m.thread ==> PcOk(trace + [m], t, At(Next(x, m.thread, m.action).value, t))
  {
    if t != m.thread { PcLater(trace, m, t, At(x, t)); }
  }

  lemma ReferenceStays(x: Sys, m: Move, t: Thread)
    requires Next(x, m.thread, m.action).Some? && (At(x, t).ReferenceSet? ==> x.reference.Some?)
    ensures var y := Next(x, m.thread, m.action).value; At(y, t).ReferenceSet? ==> y.reference.Some?
  {}

  lemma {:induction false} RunExplained(trace: seq<Move>)
    requires Run(trace).Some?
    ensures Explained(trace, Run(trace).value)
    decreases |trace|
  {
    if trace == [] {
      forall t ensures PcOk([], t, At(START, t)) {}
    } else {
      var n := |trace| - 1;
      RunExplained(trace[..n]);
      StepExplained(trace[..n], Run(trace[..n]).value, trace[n]);
      assert trace[..n] + [trace[n]] == trace;
    }
  }

  // ---- What every run promises -----------------------------------------------------------------

  /** What a scan writes is the result of its own probe, and only over the very value it had read
      before; if a kill, a deployment or another scan has put a different value there meanwhile,
      that value stays. */
  lemma ProbeOverwritesOnlyWhatItRead(trace: seq<Move>, t: Thread)
    requires Run(trace + [By(t, CompareAndSet)]).Some?
    ensures Run(trace).Some?
    ensures exists read, probed, j: nat, p: nat ::
      && ProbedAt(trace, t, read, probed, j, p) && Alone(trace, t, p, |trace|)
      && var now, next := Run(trace).value.state, Run(trace + [By(t, CompareAndSet)]).value.state;
         next == if now == read then probed else now
  {
    assert (trace + [By(t, CompareAndSet)])[..|trace|] == trace;
    RunExplained(trace);
    var x := Run(trace).value;
    var pc := At(x, t);
    assert PcOk(trace, t, pc);
    var j: nat, p: nat :| ProbedAt(trace, t, pc.old_state, pc.new_state, j, p) && Alone(trace, t, p, |trace|);
  }

  /** A descriptor is DEPLOYED only after one call of `deploy` got a reference from the manager, then
      set it, and then set the state, doing nothing else between. */
  lemma DeployedOnlyAfterDeployment(trace: seq<Move>)
    requires Run(trace).Some? && Run(trace).value.state == DEPLOYED
    ensures Run(trace).value.reference.Some?
    ensures exists t, reference, i: nat, j: nat, k: nat :: DeployedBy(trace, t, reference, i, j, k)
  {
    RunExplained(trace);
    assert StateOk(trace, DEPLOYED);
  }

  /** A descriptor is KILLED only after one call of `kill` saw the manager's kill return and then
      set the state. */
  lemma KilledOnlyAfterKill(trace: seq<Move>)
    requires Run(trace).Some? && Run(trace).value.state == KILLED
    ensures exists t, i: nat, k: nat :: KilledBy(trace, t, i, k)
  {
    RunExplained(trace);
    assert StateOk(trace, KILLED);
  }

  lemma NeverLaunched(trace: seq<Move>)
    requires Run(trace).Some?
    ensures Run(trace).value.state in PROBEABLE + {DEPLOYED, KILLED} && Run(trace).value.state != LAUNCHED
  {
    RunExplained(trace);
  }

  /** A descriptor is removed only on behalf of a client, or by a scan that has itself observed
      UNREACHABLE or INVALID. */
  lemma ScanRemovesOnlyLost(trace: seq<Move>, t: Thread)
    requires Run(trace + [By(t, Remove)]).Some?
    ensures exists j: nat :: RemoveBegun(trace, t, j) && Alone(trace, t, j, |trace|)
  {
    PlaceBefore(trace, t, Remove);
    Removing(Run(trace).value, t);
    RemovingOk(trace, t, At(Run(trace).value, t));
  }

  lemma Removing(x: Sys, t: Thread)
    ensures Next(x, t, Remove).Some? <==> At(x, t).RemoveObserved? || At(x, t).ClientRemoving?
    ensures Next(x, t, Remove).Some? ==> Next(x, t, Remove).value == Goto(x.(removed := true), t, Idle)
  {}

  lemma RemovingOk(trace: seq<Move>, t: Thread, pc: PC)
    requires PcOk(trace, t, pc) && (pc.RemoveObserved? || pc.ClientRemoving?)
    ensures exists j: nat :: RemoveBegun(trace, t, j) && Alone(trace, t, j, |trace|)
  {}

  /** A manager deploys only on behalf of a client, or for a scan that has itself observed AUTH. */
  lemma ScanDeploysOnlyIdle(trace: seq<Move>, t: Thread, a: Action)
    requires Run(trace + [By(t, a)]).Some? && (a.DeployReturns? || a.DeployThrows?)
    ensures exists j: nat :: DeployBegun(trace, t, j) && Alone(trace, t, j, |trace|)
  {
    PlaceBefore(trace, t, a);
  }

  /** A manager kills only on behalf of a client, or for a scan that has itself observed RUNNING or
      DEPLOYED. */
  lemma ScanKillsOnlyRunning(trace: seq<Move>, t: Thread, a: Action)
    requires Run(trace + [By(t, a)]).Some? && (a.KillReturns? || a.KillThrows?)
    ensures exists j: nat :: KillBegun(trace, t, j) && Alone(trace, t, j, |trace|)
  {
    PlaceBefore(trace, t, a);
  }

  lemma PlaceBefore(trace: seq<Move>, t: Thread, a: Action)
    requires Run(trace + [By(t, a)]).Some?
    ensures Run(trace).Some? && Next(Run(trace).value, t, a).Some? && PcOk(trace, t, At(Run(trace).value, t))
  {
    assert (trace + [By(t, a)])[..|trace|] == trace;
    RunExplained(trace);
  }

  /** The place of thread `t` after it goes on by one step. */
  function Then(trace: seq<Move>, t: Thread, a: Action): Option<PC> {
    var x := Run(trace + [By(t, a)]);
    if x.Some? then Some(At(x.value, t)) else None
  }

  lemma Goes(trace: seq<Move>, t: Thread, a: Action)
    requires Run(trace).Some?
    ensures Run(trace + [By(t, a)]) == Next(Run(trace).value, t, a)
  {
    assert (trace + [By(t, a)])[..|trace|] == trace;
  }

  /** Conversely, an idle thread's scan acts on each of those states, and on no other. */
  lemma ScansAct(trace: seq<Move>, t: Thread)
    requires Run(trace).Some? && At(Run(trace).value, t) == Idle
    ensures var state := Run(trace).value.state;
      && Then(trace, t, ScanStatus) == Some(StatusRead(state))
      && Then(trace, t, ScanDeploy) == Some(if state == AUTH then Deploying else Idle)
      && Then(trace, t, ScanKill) == Some(if state in {RUNNING, DEPLOYED} then Killing else Idle)
      && Then(trace, t, ScanRemove) == Some(if state in {UNREACHABLE, INVALID} then RemoveObserved(state) else Idle)
  {
    ReadingScans(trace, t);
    RemoveScans(trace, t);
    ActingScans(trace, t);
  }

  lemma ReadingScans(trace: seq<Move>, t: Thread)
    requires Run(trace).Some? && At(Run(trace).value, t) == Idle
    ensures Then(trace, t, ScanStatus) == Some(StatusRead(Run(trace).value.state))
  {
    var x := Run(trace).value;
    RunOn(trace, x, t, ScanStatus, Goto(x, t, StatusRead(x.state)));
  }

  lemma RemoveScans(trace: seq<Move>, t: Thread)
    requires Run(trace).Some? && At(Run(trace).value, t) == Idle
    ensures var state := Run(trace).value.state;
      Then(trace, t, ScanRemove) == Some(if state in {UNREACHABLE, INVALID} then RemoveObserved(state) else Idle)
  {
    var x := Run(trace).value;
    RunOn(trace, x, t, ScanRemove, Goto(x, t, if IsRemovable(x.state) then RemoveObserved(x.state) else Idle));
  }

  lemma ActingScans(trace: seq<Move>, t: Thread)
    requires Run(trace).Some? && At(Run(trace).value, t) == Idle
    ensures var state := Run(trace).value.state;
      && Then(trace, t, ScanDeploy) == Some(if state == AUTH then Deploying else Idle)
      && Then(trace, t, ScanKill) == Some(if state in {RUNNING, DEPLOYED} then Killing else Idle)
  {
    var x := Run(trace).value;
    RunOn(trace, x, t, ScanDeploy, Goto(x, t, if IsDeployable(x.state) then Deploying else Idle));
    RunOn(trace, x, t, ScanKill, Goto(x, t, if IsKillable(x.state) then Killing else Idle));
  }

  lemma RunOn(trace: seq<Move>, x: Sys, t: Thread, a: Action, y: Sys)
    requires Run(trace) == Some(x) && Next(x, t, a).Some? && y.pcs == Next(x, t, a).value.pcs
    requires y == Next(x, t, a).value.(pcs := y.pcs)
    ensures Run(trace + [By(t, a)]) == Some(y)
  {
    Goes(trace, t, a);
  }

  // ---- The state is what the last write left ---------------------------------------------------

  /** The state by the moves alone: that of the last deployment or kill completed, or of the last
      probe whose scan had read what it was to replace. */
  function Latest(trace: seq<Move>): AppState
    decreases |trace|
  {
    if trace == [] then UNKNOWN
    else
      var before, m := trace[..|trace| - 1], trace[|trace| - 1];
      match m.action
      case SetDeployed => DEPLOYED
      case SetKilled => KILLED
      case CompareAndSet =>
        if Latest(before) == ReadBy(before, m.thread) then ProbedBy(before, m.thread) else Latest(before)
      case _ => Latest(before)
  }

  /** What the thread's last status scan read. */
  function ReadBy(trace: seq<Move>, t: Thread): AppState
    decreases |trace|
  {
    if trace == [] then UNKNOWN
    else
      var before, m := trace[..|trace| - 1], trace[|trace| - 1];
      if m == By(t, ScanStatus) then Latest(before) else ReadBy(before, t)
  }

  /** What the thread's last probe found. */
  function ProbedBy(trace: seq<Move>, t: Thread): AppState
    decreases |trace|
  {
    if trace == [] then UNKNOWN
    else
      var before, m := trace[..|trace| - 1], trace[|trace| - 1];
      if m.thread == t && m.action.Probe? then ProbeState(m.action.callSucceeds, m.action.host) else ProbedBy(before, t)
  }

  /** What the manager last returned to the thread. */
  function ReturnedTo(trace: seq<Move>, t: Thread): Option<Reference>
    decreases |trace|
  {
    if trace == [] then None
    else
      var before, m := trace[..|trace| - 1], trace[|trace| - 1];
      if m.thread == t && m.action.DeployReturns? then Some(m.action.reference) else ReturnedTo(before, t)
  }

  function LatestReference(trace: seq<Move>): Option<Reference>
    decreases |trace|
  {
    if trace == [] then None
    else
      var before, m := trace[..|trace| - 1], trace[|trace| - 1];
      if m.action == SetReference then ReturnedTo(before, m.thread) else LatestReference(before)
  }

  ghost predicate Remembers(trace: seq<Move>, t: Thread, pc: PC) {
    match pc
    case StatusRead(v) => v == ReadBy(trace, t)
    case Probed(v, w) => v == ReadBy(trace, t) && w == ProbedBy(trace, t)
    case DeployReturned(r) => ReturnedTo(trace, t) == Some(r)
    case ReferenceSet(r) => ReturnedTo(trace, t) == Some(r)
    case _ => true
  }

  ghost predicate Recorded(trace: seq<Move>, x: Sys) {
    && x.state == Latest(trace) && x.reference == LatestReference(trace)
    && (x.removed <==> exists k :: 0 <= k < |trace| && trace[k].action == Remove)
    && forall t {:trigger At(x, t)} :: Remembers(trace, t, At(x, t))
  }

  lemma StateStep(trace: seq<Move>, x: Sys, m: Move)
    requires x.state == Latest(trace) && Remembers(trace, m.thread, At(x, m.thread))
    requires Next(x, m.thread, m.action).Some?
    ensures Next(x, m.thread, m.action).value.state == Latest(trace + [m])
  {
    assert (trace + [m])[..|trace|] == trace;
  }

  lemma ReferenceStep(trace: seq<Move>, x: Sys, m: Move)
    requires x.reference == LatestReference(trace) && Remembers(trace, m.thread, At(x, m.thread))
    requires Next(x, m.thread, m.action).Some?
    ensures Next(x, m.thread, m.action).value.reference == LatestReference(trace + [m])
  {
    assert (trace + [m])[..|trace|] == trace;
  }

  lemma RemovedStep(trace: seq<Move>, x: Sys, m: Move)
    requires x.removed <==> exists k :: 0 <= k < |trace| && trace[k].action == Remove
    requires Next(x, m.thread, m.action).Some?
    ensures var y, longer := Next(x, m.thread, m.action).value, trace + [m];
      y.removed <==> exists k :: 0 <= k < |longer| && longer[k].action == Remove
  {
    var longer := trace + [m];
    assert longer[|trace|] == m && forall k :: 0 <= k < |trace| ==> longer[k] == trace[k];
  }

  lemma RemembersOwn(trace: seq<Move>, x: Sys, m: Move)
    requires x.state == Latest(trace) && Remembers(trace, m.thread, At(x, m.thread))
    requires Next(x, m.thread, m.action).Some?
    ensures Remembers(trace + [m], m.thread, At(Next(x, m.thread, m.action).value, m.thread))
  {
    assert (trace + [m])[..|trace|] == trace;
  }

  lemma RemembersOther(trace: seq<Move>, m: Move, t: Thread, pc: PC)
    requires Remembers(trace, t, pc) && t != m.thread
    ensures Remembers(trace + [m], t, pc)
  {
    assert (trace + [m])[..|trace|] == trace;
  }

  lemma OthersStay(x: Sys, m: Move, t: Thread)
    requires Next(x, m.thread, m.action).Some? && t != m.thread
    ensures At(Next(x, m.thread, m.action).value, t) == At(x, t)
  {}

  lemma RecordedStep(trace: seq<Move>, x: Sys, m: Move)
    requires Recorded(trace, x) && Next(x, m.thread, m.action).Some?
    ensures Recorded(trace + [m], Next(x, m.thread, m.action).value)
  {
    var y := Next(x, m.thread, m.action).value;
    assert Remembers(trace, m.thread, At(x, m.thread));
    StateStep(trace, x, m);
    ReferenceStep(trace, x, m);
    RemovedStep(trace, x, m);
    forall t ensures Remembers(trace + [m], t, At(y, t)) {
      if t == m.thread {
        RemembersOwn(trace, x, m);
      } else {
        assert Remembers(trace, t, At(x, t));
        OthersStay(x, m, t);
        RemembersOther(trace, m, t, At(x, t));
      }
    }
  }

  /** In every run the state, the reference and the removal are what the moves alone say. */
  lemma {:induction false} StateIsLatest(trace: seq<Move>)
    requires Run(trace).Some?
    ensures Recorded(trace, Run(trace).value)
    decreases |trace|
  {
    if trace != [] {
      var n := |trace| - 1;
      StateIsLatest(trace[..n]);
      RecordedStep(trace[..n], Run(trace[..n]).value, trace[n]);
      assert trace[..n] + [trace[n]] == trace;
    } else {
      forall t ensures Remembers(trace, t, At(START, t)) {}
    }
  }

  /** Whatever the others have done, a client call of an idle thread can run to its end, and has its
      effect. */
  lemma ClientsWork(trace: seq<Move>, t: Thread, reference: Reference)
    requires Run(trace).Some? && At(Run(trace).value, t) == Idle
    ensures var x := Run(trace + [By(t, ClientKill)] + [By(t, KillReturns)] + [By(t, SetKilled)]);
      x.Some? && x.value.state == KILLED && At(x.value, t) == Idle
    ensures var x := Run(trace + [By(t, ClientDeploy)] + [By(t, DeployReturns(reference))] + [By(t, SetReference)]
                         + [By(t, SetDeployed)]);
      x.Some? && x.value.state == DEPLOYED && x.value.reference == Some(reference) && At(x.value, t) == Idle
    ensures var x := Run(trace + [By(t, ClientRemove)] + [By(t, Remove)]);
      x.Some? && x.value.removed && At(x.value, t) == Idle
  {
    KillWorks(trace, t);
    DeployWorks(trace, t, reference);
    RemoveWorks(trace, t);
  }

  lemma KillWorks(trace: seq<Move>, t: Thread)
    requires Run(trace).Some? && At(Run(trace).value, t) == Idle
    ensures var x := Run(trace + [By(t, ClientKill)] + [By(t, KillReturns)] + [By(t, SetKilled)]);
      x.Some? && x.value.state == KILLED && At(x.value, t) == Idle
  {
    var x := Run(trace).value;
    var k := trace + [By(t, ClientKill)];
    RunOn(trace, x, t, ClientKill, Goto(x, t, Killing));
    RunOn(k, Goto(x, t, Killing), t, KillReturns, Goto(x, t, KillReturned));
    RunOn(k + [By(t, KillReturns)], Goto(x, t, KillReturned), t, SetKilled, Goto(x.(state := KILLED), t, Idle));
  }

  lemma RemoveWorks(trace: seq<Move>, t: Thread)
    requires Run(trace).Some? && At(Run(trace).value, t) == Idle
    ensures var x := Run(trace + [By(t, ClientRemove)] + [By(t, Remove)]);
      x.Some? && x.value.removed && At(x.value, t) == Idle
  {
    var x := Run(trace).value;
    var y := Goto(x, t, ClientRemoving);
    RunOn(trace, x, t, ClientRemove, y);
    Removing(y, t);
    RunOn(trace + [By(t, ClientRemove)], y, t, Remove, Goto(y.(removed := true), t, Idle));
  }

  lemma DeployWorks(trace: seq<Move>, t: Thread, reference: Reference)
    requires Run(trace).Some? && At(Run(trace).value, t) == Idle
    ensures var x := Run(trace + [By(t, ClientDeploy)] + [By(t, DeployReturns(reference))] + [By(t, SetReference)]
                         + [By(t, SetDeployed)]);
      x.Some? && x.value.state == DEPLOYED && x.value.reference == Some(reference) && At(x.value, t) == Idle
  {
    var x := Run(trace).value;
    var y := x.(reference := Some(reference));
    var d := trace + [By(t, ClientDeploy)];
    RunOn(trace, x, t, ClientDeploy, Goto(x, t, Deploying));
    RunOn(d, Goto(x, t, Deploying), t, DeployReturns(reference), Goto(x, t, DeployReturned(reference)));
    RunOn(d + [By(t, DeployReturns(reference))], Goto(x, t, DeployReturned(reference)), t, SetReference,
      Goto(y, t, ReferenceSet(reference)));
    RunOn(d + [By(t, DeployReturns(reference))] + [By(t, SetReference)], Goto(y, t, ReferenceSet(reference)), t,
      SetDeployed, Goto(y.(state := DEPLOYED), t, Idle));
  }
}
