/** One cycle of a concurrent scanner in idealised time (nanoseconds, instructions take none):
    it submits one task per descriptor, waits for them until its timeout has elapsed, and
    cancels what is left. When tasks begin and finish, whether the scanner is enabled at a
    given moment and when the thread is interrupted are arbitrary. */
module ScanCycle {
  import opened Wrappers

  type Time = nat

  /** A length of time in some unit. */
  datatype Duration = Duration(length: int, unit: nat)

  predicate Positive(d: Duration) { d.unit > 0 }

  /** `TimeUnit.convert`, which truncates towards zero. */
  function Convert(length: nat, from: nat, to: nat): nat
    requires to > 0
  {
    length * from / to
  }

  /** `timeout.subtract(elapsed)`: the elapsed nanoseconds are truncated to the timeout's unit. */
  function Remaining(timeout: Duration, elapsed: nat): Duration
    requires Positive(timeout)
  {
    Duration(timeout.length - Convert(elapsed, 1, timeout.unit), timeout.unit)
  }

  function Nanos(d: Duration): int { d.length * d.unit }

  /** Waiting for the remaining time overshoots the timeout by exactly what truncation loses. */
  lemma RemainingExact(timeout: Duration, elapsed: nat)
    requires Positive(timeout)
    ensures elapsed + Nanos(Remaining(timeout, elapsed)) == Nanos(timeout) + elapsed % timeout.unit
  {
    var u, q := timeout.unit, elapsed * 1 / timeout.unit;
    assert elapsed == q * u + elapsed % u;
    assert (timeout.length - q) * u == timeout.length * u - q * u;
  }

  // ---- Waiting for one task ------------------------------------------------------------------

  /** When a task begins and finishes if it is left alone, and when somebody else cancels it. */
  datatype Task = Task(descriptor: nat, beginAt: Option<Time>, finishAt: Option<Time>, stoppedAt: Option<Time>)

  /** Finishing is the end of something begun. */
  predicate Sensible(t: Task) {
    t.finishAt.Some? ==> t.beginAt.Some? && t.beginAt.value <= t.finishAt.value
  }

  datatype Outcome = Returned | Cancelled | TimedOut | Interrupted

  /** Whether somebody else cancels the task before it finishes. */
  predicate IsStopped(t: Task) { t.stoppedAt.Some? && (t.finishAt.None? || t.stoppedAt.value < t.finishAt.value) }

  /** When the task is done unless its own scanner cancels it. */
  function Ending(t: Task): Option<Time> { if IsStopped(t) then t.stoppedAt else t.finishAt }

  predicate Ended(t: Task, now: Time) { Ending(t).Some? && Ending(t).value <= now }

  function Deadline(now: Time, wait: Duration): Time { if Nanos(wait) > 0 then now + Nanos(wait) else now }

  /** `get` with a timeout: at once if the task is done; otherwise an interrupt, one that is
      already pending included, ends the wait. */
  function Waited(t: Task, now: Time, wait: Duration, interrupt: Option<Time>): (Outcome, Time) {
    var deadline := Deadline(now, wait);
    if Ended(t, now) then (if IsStopped(t) then Cancelled else Returned, now)
    else if interrupt.Some? && interrupt.value <= deadline && !Ended(t, interrupt.value)
    then (Interrupted, if interrupt.value > now then interrupt.value else now)
    else if Ended(t, deadline) then (if IsStopped(t) then Cancelled else Returned, Ending(t).value)
    else (TimedOut, deadline)
  }

  // ---- Waiting for all of them ---------------------------------------------------------------

  /** What the waiting depends on besides the tasks. */
  datatype Cycle = Cycle(start: Time, timeout: Duration, enabled: Time -> bool, interrupt: Option<Time>)

  function RemainingTime(c: Cycle, now: Time): Duration
    requires Positive(c.timeout) && c.start <= now
  {
    if c.enabled(now) then Remaining(c.timeout, now - c.start) else Duration(0, 1)
  }

  /** How the waiting loop ends: when, on which outcome if not by having passed all tasks, and
      after how many of them. */
  datatype Wait = Wait(end: Time, stop: Option<Outcome>, passed: nat)

  function Await(c: Cycle, tasks: seq<Task>, now: Time): (w: Wait)
    requires Positive(c.timeout) && c.start <= now
    decreases |tasks|
  {
    if tasks == [] then Wait(now, None, 0)
    else
      var (outcome, end) := Waited(tasks[0], now, RemainingTime(c, now), c.interrupt);
      if outcome in {Returned, Cancelled} then
        var w := Await(c, tasks[1..], end);
        w.(passed := w.passed + 1)
      else Wait(end, Some(outcome), 0)
  }

  function Max(a: int, b: int): int { if a < b then b else a }

  /** The waiting ends no later than its beginning or the timeout, but for what truncation to the
      timeout's unit can lose. */
  lemma {:induction false} AwaitBound(c: Cycle, tasks: seq<Task>, now: Time)
    requires Positive(c.timeout) && c.start <= now
    ensures now <= Await(c, tasks, now).end <= Max(now, c.start + Nanos(c.timeout) + c.timeout.unit - 1)
    decreases |tasks|
  {
    if tasks != [] {
      var (outcome, end) := Waited(tasks[0], now, RemainingTime(c, now), c.interrupt);
      RemainingExact(c.timeout, now - c.start);
      AwaitBound(c, tasks[1..], end);
    }
  }

  /** Two tasks, one that finishes just before the timeout and one that never does: with any unit
      but the nanosecond the waiting outlasts the timeout, by as much as the bound allows. */
  lemma Outlasts(unit: nat) returns (c: Cycle, tasks: seq<Task>)
    requires unit > 1
    ensures c.timeout == Duration(1, unit) && c.start == 0
    ensures Await(c, tasks, 0) == Wait(unit + unit - 1, Some(TimedOut), 1)
  {
    c := Cycle(0, Duration(1, unit), (_: Time) => true, None);
    var quick, slow := Task(0, Some(0), Some(unit - 1), None), Task(1, Some(0), None, None);
    tasks := [quick] + [slow];
    RemainingExact(c.timeout, 0);
    RemainingExact(c.timeout, unit - 1);
    assert tasks[1..] == [slow] && [slow][1..] == [];
    assert Waited(quick, 0, RemainingTime(c, 0), None) == (Returned, unit - 1);
    assert Waited(slow, unit - 1, RemainingTime(c, unit - 1), None) == (TimedOut, unit + unit - 1);
    assert Await(c, [slow], unit - 1) == Wait(unit + unit - 1, Some(TimedOut), 0);
  }

  ghost predicate InTime(c: Cycle, tasks: seq<Task>, now: Time)
    requires Positive(c.timeout) && c.start <= now
  {
    Await(c, tasks, now).end <= Max(now, c.start + Nanos(c.timeout))
  }

  /** For every task list the waiting ends by its beginning or the timeout, exactly if the timeout
      is given in nanoseconds. */
  lemma OnlyNanosecondsInTime(unit: nat)
    requires unit > 0
    ensures unit == 1 <==>
      forall c: Cycle, tasks, now :: c.timeout.unit == unit && c.start <= now ==> InTime(c, tasks, now)
  {
    if unit == 1 {
      forall c: Cycle, tasks, now | c.timeout.unit == unit && c.start <= now ensures InTime(c, tasks, now) {
        AwaitBound(c, tasks, now);
      }
    } else {
      var c, tasks := Outlasts(unit);
      assert !InTime(c, tasks, 0);
    }
  }

  /** The tasks passed are done; the loop gives up on one that is not only if the thread was
      interrupted, the scanner was found disabled, or the timeout has elapsed. */
  lemma {:induction false} AwaitStops(c: Cycle, tasks: seq<Task>, now: Time)
    requires Positive(c.timeout) && c.start <= now
    ensures var w := Await(c, tasks, now);
      && w.passed <= |tasks| && (forall k :: 0 <= k < w.passed ==> Ended(tasks[k], w.end))
      && (w.stop.None? <==> w.passed == |tasks|)
      && (w.stop.Some? ==> !Ended(tasks[w.passed], w.end) && w.stop.value in {TimedOut, Interrupted})
      && (w.stop == Some(Interrupted) ==> c.interrupt.Some? && c.interrupt.value <= w.end)
      && (w.stop == Some(TimedOut) ==>
           w.end >= c.start + Nanos(c.timeout) || exists t :: now <= t <= w.end && !c.enabled(t))
    decreases |tasks|
  {
    if tasks != [] {
      var (outcome, end) := Waited(tasks[0], now, RemainingTime(c, now), c.interrupt);
      RemainingExact(c.timeout, now - c.start);
      if outcome in {Returned, Cancelled} {
        AwaitBound(c, tasks[1..], end);
        AwaitStops(c, tasks[1..], end);
        var w := Await(c, tasks[1..], end);
        assert forall k :: 0 < k < w.passed + 1 ==> tasks[k] == tasks[1..][k - 1];
      } else if c.enabled(now) {
        assert outcome == TimedOut ==> end >= c.start + Nanos(c.timeout);
      }
    }
  }

  /** When the loop, begun at `now`, turns to the task after these: when the last of them is done. */
  function TurnsAt(tasks: seq<Task>, now: Time): Time
    requires forall k :: 0 <= k < |tasks| ==> Ending(tasks[k]).Some?
    decreases |tasks|
  {
    if tasks == [] then now else TurnsAt(tasks[1..], Max(now, Ending(tasks[0]).value))
  }

  /** When the wait for one task begun at `now` is given up: at once if the scanner is disabled or
      the time is over, otherwise when the timeout and what truncation loses are over. */
  function GivesUpAt(c: Cycle, now: Time): Time
    requires Positive(c.timeout) && c.start <= now
  {
    if c.enabled(now) && now < c.start + Nanos(c.timeout)
    then c.start + Nanos(c.timeout) + (now - c.start) % c.timeout.unit
    else now
  }

  lemma DeadlineIs(c: Cycle, now: Time)
    requires Positive(c.timeout) && c.start <= now
    ensures Deadline(now, RemainingTime(c, now)) == GivesUpAt(c, now) >= now
  {
    var u, e := c.timeout.unit, now - c.start;
    RemainingExact(c.timeout, e);
    var left := c.timeout.length - e / u;
    assert e == e / u * u + e % u;
    if c.enabled(now) {
      assert Remaining(c.timeout, e) == Duration(left, u);
      if e < Nanos(c.timeout) {
        Fewer(e / u, e % u, c.timeout.length, u);
      } else {
        Enough(e / u, e % u, c.timeout.length, u);
      }
    }
  }

  lemma Fewer(q: nat, r: nat, n: int, u: nat)
    requires u > 0 && q * u + r < n * u
    ensures (n - q) * u > 0
  {}

  lemma Enough(q: nat, r: nat, n: int, u: nat)
    requires u > r && q * u + r >= n * u
    ensures (n - q) * u <= 0
  {
    Spread(q, n - q, u);
    if n > q { AtLeast(n - q, u); } else { AtMost(n - q, u); }
  }

  lemma Spread(a: int, b: int, u: int)
    ensures (a + b) * u == a * u + b * u
  {}

  lemma AtLeast(k: int, u: nat)
    requires k >= 1
    ensures k * u >= u
  {}

  lemma AtMost(k: int, u: nat)
    requires k <= 0
    ensures k * u <= 0
  {}

  ghost predicate HaveEnd(tasks: seq<Task>) { forall k :: 0 <= k < |tasks| ==> Ending(tasks[k]).Some? }

  /** The wait for a task begun at `now` is no longer than until it is done. */
  ghost predicate InTurn(c: Cycle, t: Task, now: Time)
    requires Positive(c.timeout) && c.start <= now
  {
    && Ending(t).Some?
    && var end := Ending(t).value;
       end <= now || (end <= GivesUpAt(c, now) && (c.interrupt.Some? ==> end <= c.interrupt.value))
  }

  /** How a wait that begins at `now` for a task that will not be done in time ends. */
  ghost predicate GivenUp(c: Cycle, t: Task, now: Time, w: Wait)
    requires Positive(c.timeout) && c.start <= now
  {
    !InTurn(c, t, now)
    && var limit := GivesUpAt(c, now);
       if c.interrupt.Some? && c.interrupt.value <= limit && !Ended(t, c.interrupt.value)
       then w.stop == Some(Interrupted) && w.end == Max(now, c.interrupt.value)
       else w.stop == Some(TimedOut) && w.end == limit
  }

  lemma WaitedExactly(c: Cycle, t: Task, now: Time)
    requires Positive(c.timeout) && c.start <= now
    ensures var (outcome, end) := Waited(t, now, RemainingTime(c, now), c.interrupt);
      if outcome in {Returned, Cancelled} then InTurn(c, t, now) && end == Max(now, Ending(t).value)
      else GivenUp(c, t, now, Wait(end, Some(outcome), 0))
  {
    DeadlineIs(c, now);
  }

  lemma TurnsLater(tasks: seq<Task>, now: Time)
    requires HaveEnd(tasks)
    ensures TurnsAt(tasks, now) >= now
    decreases |tasks|
  {
    if tasks != [] {
      assert forall k :: 0 <= k < |tasks[1..]| ==> tasks[1..][k] == tasks[k + 1];
      TurnsLater(tasks[1..], Max(now, Ending(tasks[0]).value));
    }
  }

  /** The waiting goes from task to task, each as soon as it is done, and ends with the first that
      will not be done before the timeout, the scanner's being disabled, or an interrupt. */
  ghost predicate Exactly(c: Cycle, tasks: seq<Task>, now: Time, w: Wait)
    requires Positive(c.timeout) && c.start <= now
  {
    && w.passed <= |tasks| && HaveEnd(tasks[..w.passed])
    && (forall k :: 0 <= k < w.passed ==>
         var t := TurnsAt(tasks[..k], now); c.start <= t && InTurn(c, tasks[k], t))
    && var t := TurnsAt(tasks[..w.passed], now);
       if w.passed == |tasks| then w.stop.None? && w.end == t
       else c.start <= t && GivenUp(c, tasks[w.passed], t, w)
  }

  /** `Await` is that waiting. */
  lemma {:induction false} AwaitExactly(c: Cycle, tasks: seq<Task>, now: Time)
    requires Positive(c.timeout) && c.start <= now
    ensures Exactly(c, tasks, now, Await(c, tasks, now))
    decreases |tasks|
  {
    if tasks != [] {
      WaitedExactly(c, tasks[0], now);
      var (outcome, end) := Waited(tasks[0], now, RemainingTime(c, now), c.interrupt);
      if outcome in {Returned, Cancelled} {
        AwaitExactly(c, tasks[1..], end);
        OneMore(c, tasks, now, Await(c, tasks[1..], end));
      }
    }
  }

  lemma OneMore(c: Cycle, tasks: seq<Task>, now: Time, w: Wait)
    requires Positive(c.timeout) && c.start <= now && tasks != [] && InTurn(c, tasks[0], now)
    requires Exactly(c, tasks[1..], Max(now, Ending(tasks[0]).value), w)
    ensures Exactly(c, tasks, now, w.(passed := w.passed + 1))
  {
    var later, rest := Max(now, Ending(tasks[0]).value), tasks[1..];
    forall k | 0 <= k <= w.passed
      ensures HaveEnd(tasks[..k + 1]) && TurnsAt(tasks[..k + 1], now) == TurnsAt(rest[..k], later)
    {
      assert tasks[..k + 1][1..] == rest[..k];
      assert forall i :: 0 < i < k + 1 ==> tasks[i] == rest[..w.passed][i - 1];
    }
    forall k | 0 <= k < w.passed + 1
      ensures var t := TurnsAt(tasks[..k], now); c.start <= t && InTurn(c, tasks[k], t)
    {
      if k > 0 { assert tasks[k] == rest[k - 1]; }
    }
  }

  /** If the scanner is disabled, or the thread has been interrupted, at the moment the loop turns
      to a task that is not done, the waiting ends at that moment. */
  lemma DisabledEnds(c: Cycle, tasks: seq<Task>, now: Time)
    requires Positive(c.timeout) && c.start <= now
    ensures var w := Await(c, tasks, now);
      forall k :: 0 <= k < |tasks| && k <= w.passed && HaveEnd(tasks[..k]) ==>
        var t := TurnsAt(tasks[..k], now);
        !Ended(tasks[k], t) && (!c.enabled(t) || (c.interrupt.Some? && c.interrupt.value <= t)) ==>
          w.passed == k && w.end == t
  {
    AwaitExactly(c, tasks, now);
    var w := Await(c, tasks, now);
    forall k | 0 <= k < |tasks| && k <= w.passed && HaveEnd(tasks[..k])
      ensures var t := TurnsAt(tasks[..k], now);
        !Ended(tasks[k], t) && (!c.enabled(t) || (c.interrupt.Some? && c.interrupt.value <= t)) ==>
          w.passed == k && w.end == t
    {
      TurnsLater(tasks[..k], now);
    }
  }

  /** Once the scanner is disabled for good, whatever is left of the loop ends as soon as it
      turns to a task that is not done, and without a further wait. */
  lemma {:induction false} DisabledForGood(c: Cycle, tasks: seq<Task>, now: Time)
    requires Positive(c.timeout) && c.start <= now && forall t: Time :: t >= now ==> !c.enabled(t)
    ensures Await(c, tasks, now).end == now
    ensures Await(c, tasks, now).stop.None? <==> forall k :: 0 <= k < |tasks| ==> Ended(tasks[k], now)
    decreases |tasks|
  {
    if tasks != [] {
      DisabledForGood(c, tasks[1..], now);
      assert forall k :: 0 < k < |tasks| ==> tasks[k] == tasks[1..][k - 1];
      assert !c.enabled(now);
    }
  }

  // ---- The scanner ---------------------------------------------------------------------------

  /** A submitted task, and when its own scanner has cancelled it. */
  class FutureScan {
    const task: Task
    var cancelledAt: Option<Time>

    constructor (task: Task)
      ensures this.task == task && cancelledAt == None
    {
      this.task, cancelledAt := task, None;
    }

    /** The task with whichever of the two cancellations comes first. */
    function Fate(): Task
      reads this
    {
      if cancelledAt.Some? && (task.stoppedAt.None? || cancelledAt.value < task.stoppedAt.value)
      then task.(stoppedAt := cancelledAt)
      else task
    }

    predicate Done(now: Time)
      reads this
    {
      Ended(Fate(), now)
    }

    /** Whether the task begins at time `t`: a future cancelled before it ran never runs. */
    predicate BeginsAt(t: Time)
      reads this
    {
      task.beginAt == Some(t) && (Fate().stoppedAt.None? || t < Fate().stoppedAt.value)
    }

    method Get(now: Time, wait: Duration, interrupt: Option<Time>) returns (outcome: Outcome, end: Time)
      ensures (outcome, end) == Waited(Fate(), now, wait, interrupt)
    {
      var done := if IsStopped(Fate()) then Cancelled else Returned;
      if Done(now) { return done, now; }
      var deadline := Deadline(now, wait);
      if interrupt.Some? && interrupt.value <= deadline && !Done(interrupt.value) {
        return Interrupted, if interrupt.value > now then interrupt.value else now;
      }
      if Done(deadline) { return done, Ending(Fate()).value; }
      return TimedOut, deadline;
    }

    method Cancel(now: Time)
      modifies this
      ensures Done(now)
      ensures cancelledAt == if old(Done(now)) then old(cancelledAt) else Some(now)
    {
      if !Done(now) { cancelledAt := Some(now); }
    }
  }

  class ConcurrentScanner {
    const timeout: Duration
    const enabled: Time -> bool
    var scheduledScans: seq<FutureScan>
    var cycleStart: Time

    constructor (timeout: Duration, enabled: Time -> bool)
      requires Positive(timeout)
      ensures this.timeout == timeout && this.enabled == enabled && scheduledScans == []
    {
      this.timeout, this.enabled, scheduledScans, cycleStart := timeout, enabled, [], 0;
    }

    method PrepareForScan(now: Time)
      modifies this
      ensures cycleStart == now && scheduledScans == []
    {
      cycleStart, scheduledScans := now, [];
    }

    /** The futures of the tasks, in order, none cancelled by this scanner. */
    ghost predicate Submitted(tasks: seq<Task>)
      reads this, scheduledScans
    {
      && |scheduledScans| == |tasks|
      && (forall k {:trigger scheduledScans[k]} :: 0 <= k < |tasks| ==> scheduledScans[k].task == tasks[k])
      && (forall f :: f in scheduledScans ==> f.cancelledAt.None?)
      && forall i, j :: 0 <= i < j < |tasks| ==> scheduledScans[i] != scheduledScans[j]
    }

    method ScheduleConcurrentScans(tasks: seq<Task>)
      requires scheduledScans == []
      modifies this`scheduledScans
      ensures Submitted(tasks) && fresh(scheduledScans)
    {
      for k := 0 to |tasks|
        invariant Submitted(tasks[..k]) && fresh(scheduledScans)
      {
        var f := new FutureScan(tasks[k]);
        scheduledScans := scheduledScans + [f];
      }
      assert tasks[..|tasks|] == tasks;
    }

    function Present(interrupt: Option<Time>): Cycle
      reads this
    {
      Cycle(cycleStart, timeout, enabled, interrupt)
    }

    /** Waits for the tasks one after the other; a task that is cancelled counts as passed. */
    method AwaitScanCompletion(tasks: seq<Task>, entry: Time, interrupt: Option<Time>)
        returns (end: Time, stop: Option<Outcome>, passed: nat)
      requires Positive(timeout) && cycleStart <= entry && Submitted(tasks)
      ensures Wait(end, stop, passed) == Await(Present(interrupt), tasks, entry)
    {
      end, stop, passed := entry, None, 0;
      ghost var c := Present(interrupt);
      while passed < |scheduledScans|
        invariant passed <= |tasks| && cycleStart <= end && stop.None?
        invariant Further(Await(c, tasks[passed..], end), passed) == Await(c, tasks, entry)
      {
        var remaining := if enabled(end) then Remaining(timeout, end - cycleStart) else Duration(0, 1);
        var outcome;
        assert tasks[passed..][0] == tasks[passed] && tasks[passed..][1..] == tasks[passed + 1..];
        outcome, end := scheduledScans[passed].Get(end, remaining, interrupt);
        if outcome !in {Returned, Cancelled} { return end, Some(outcome), passed; }
        passed := passed + 1;
      }
    }

    method CancelLingeringScans(now: Time)
      modifies scheduledScans
      ensures forall f :: f in scheduledScans ==>
        f.Done(now) && f.cancelledAt == if old(f.Done(now)) then old(f.cancelledAt) else Some(now)
    {
      for k := 0 to |scheduledScans|
        invariant forall f :: f in scheduledScans[..k] ==>
          f.Done(now) && f.cancelledAt == if old(f.Done(now)) then old(f.cancelledAt) else Some(now)
        invariant forall f :: f in scheduledScans && f !in scheduledScans[..k] ==> f.cancelledAt == old(f.cancelledAt)
      {
        scheduledScans[k].Cancel(now);
      }
      assert scheduledScans[..|scheduledScans|] == scheduledScans;
    }

    /** A cycle ends with one future for each descriptor, in order, all of them done: what has
        not ended by then is cancelled, what has is left alone. No task of the cycle begins
        after its end. */
    method Scan(start: Time, entry: Time, tasks: seq<Task>, interrupt: Option<Time>) returns (end: Time)
      requires Positive(timeout) && start <= entry && forall k :: 0 <= k < |tasks| ==> Sensible(tasks[k])
      modifies this
      ensures |scheduledScans| == |tasks|
      ensures forall k {:trigger scheduledScans[k]} :: 0 <= k < |tasks| ==> scheduledScans[k].task == tasks[k]
      ensures forall k {:trigger scheduledScans[k]} :: 0 <= k < |tasks| ==>
        scheduledScans[k].Done(end) && scheduledScans[k].cancelledAt == if Ended(tasks[k], end) then None else Some(end)
      ensures forall f, t: Time {:trigger f.BeginsAt(t)} :: f in scheduledScans && f.BeginsAt(t) ==> t <= end
      ensures end == Await(Cycle(start, timeout, enabled, interrupt), tasks, entry).end
      ensures end <= Max(entry, start + Nanos(timeout) + timeout.unit - 1)
    {
      PrepareForScan(start);
      ScheduleConcurrentScans(tasks);
      var stop, passed;
      end, stop, passed := AwaitScanCompletion(tasks, entry, interrupt);
      AwaitBound(Present(interrupt), tasks, entry);
      CancelLingeringScans(end);
      forall f, t: Time | f in scheduledScans && f.BeginsAt(t) ensures t <= end {
        var k :| 0 <= k < |scheduledScans| && scheduledScans[k] == f;
        assert Sensible(tasks[k]) && scheduledScans[k].task == tasks[k];
      }
    }
  }

  function Further(w: Wait, n: nat): Wait { w.(passed := w.passed + n) }
}
