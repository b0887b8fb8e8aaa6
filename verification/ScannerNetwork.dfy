/** The network and its scanners as objects; each operation, with no other under way, does what
    ScannerRegistry says of its atomic steps taken together. */
module ScannerNetwork {
  import opened ScannerRegistry
  import opened Wrappers

  class Scanner {
    var enabled: bool
    var listeners: nat // registrations of the network's listener

    constructor (enabled: bool)
      ensures this.enabled == enabled && listeners == 0
    {
      this.enabled, listeners := enabled, 0;
    }
  }

  class ApplicationNetwork {
    var scheduled: map<Scanner, Option<Future>>
    var live: set<Future> // what the executor keeps running
    var next: Future
    ghost var scanners: set<Scanner>
    ghost var owner: map<Future, Scanner>
    ghost var seen: set<Scanner>
    ghost var crashed: set<Future>

    ghost function View(): Sys<Scanner>
      reads this, scanners
    {
      Sys(set s | s in scanners && s.enabled, map s | s in scanners :: s.listeners, scheduled, live, next,
          None, map[], owner, seen, crashed)
    }

    constructor (ghost scanners: set<Scanner>)
      requires forall s :: s in scanners ==> s.listeners == 0
      ensures this.scanners == scanners && scheduled == map[] && live == {} && Inv(View())
    {
      scheduled, live, next := map[], {}, 0;
      this.scanners, owner, seen, crashed := scanners, map[], {}, {};
      new;
      forall t ensures ThreadOk(View(), t) {}
    }

    method Cancel(future: Option<Future>)
      modifies this`live, this`crashed
      ensures View() == Cancelled(old(View()), future)
    {
      if future.Some? { live := live - {future.value}; }
      crashed := crashed - Single(future);
    }

    method ScheduleScanner(s: Scanner) returns (future: Future)
      modifies this`live, this`next, this`owner
      ensures future == old(next) && next == old(next) + 1 && live == old(live) + {future}
        && owner == old(owner)[future := s]
    {
      future, next, live := next, next + 1, live + {next};
      owner := owner[future := s];
    }

    method IsAdded(s: Scanner) returns (added: bool)
      ensures added <==> s in scheduled
    {
      added := s in scheduled;
    }

    method AddScanner(s: Scanner) returns (added: bool)
      requires s in scanners && Inv(View())
      modifies this, s
      ensures scanners == old(scanners) && added == (s !in old(scheduled))
      ensures View() == ScannerRegistry.AddScanner(old(View()), s)
    {
      var known := IsAdded(s);
      added := !known;
      if added {
        s.listeners := s.listeners + 1;
        if s.enabled {
          var future := ScheduleScanner(s);
          scheduled := scheduled[s := Some(future)];
          seen := seen + {s};
        } else {
          scheduled := scheduled[s := None];
          seen := seen - {s};
        }
        assert View().enabled == old(View()).enabled;
        assert View().listeners == old(View()).listeners[s := old(s.listeners) + 1];
        assert crashed - Single(None) == crashed;
      }
    }

    method RemoveScanner(s: Scanner) returns (removable: bool)
      requires s in scanners
      modifies this, s
      ensures scanners == old(scanners) && removable == (s in old(scheduled))
      ensures View() == ScannerRegistry.RemoveScanner(old(View()), s)
    {
      removable := IsAdded(s);
      if removable {
        var future := scheduled[s];
        scheduled := scheduled - {s};
        Cancel(future);
        if s.listeners > 0 { s.listeners := s.listeners - 1; }
        assert View().enabled == old(View()).enabled;
        assert View().listeners == Unlistened(old(View()), s).listeners;
      }
    }

    /** A fresh schedule takes the place of the one held, which is cancelled. */
    method Reschedule(s: Scanner)
      requires s in scheduled && scheduled[s].Some? ==> scheduled[s].value < next
      modifies this`scheduled, this`live, this`next, this`owner, this`seen, this`crashed
      ensures View() == Schedule(old(View()), s)
    {
      var future := ScheduleScanner(s);
      var old_future := if s in scheduled then scheduled[s] else None;
      scheduled := scheduled[s := Some(future)];
      seen := seen + {s};
      if old_future.Some? && old_future.value in live {
        live := live - {old_future.value};
      }
      crashed := crashed - Single(old_future);
      assert live == old(live) - Single(old_future) + {future};
    }

    /** The listener the network registers with its scanners. */
    method PropertyChange(s: Scanner, enable: bool)
      requires Inv(View())
      modifies this`scheduled, this`live, this`next, this`owner, this`seen, this`crashed
      ensures View() == Event(old(View()), s, enable) && Inv(View())
    {
      EventKeeps(View(), s, enable);
      if enable {
        assert s in scheduled ==> HeldOk(View(), s);
        Reschedule(s);
      } else {
        Cancel(if s in scheduled then scheduled[s] else None);
        seen := seen - {s};
      }
    }

    /** `Scanner.setEnabled`, with this network's listener registered as often as it is. */
    method SetEnabled(s: Scanner, enable: bool)
      requires s in scanners && Inv(View())
      modifies this`scheduled, this`live, this`next, this`owner, this`seen, this`crashed, s`enabled
      ensures View() == ScannerRegistry.SetEnabled(old(View()), s, enable) && Inv(View())
    {
      var old_enabled := s.enabled;
      s.enabled := enable;
      ghost var x := Swap(old(View()), s, enable);
      assert View().enabled == x.enabled && View().listeners == x.listeners;
      SwapKeeps(old(View()), s, enable);
      if old_enabled != enable {
        var k := 0;
        while k < s.listeners
          invariant 0 <= k <= s.listeners == Count(old(View()), s) && scanners == old(scanners) && Inv(View())
          invariant Events(View(), s, enable, s.listeners - k) == Events(x, s, enable, s.listeners)
          modifies this`scheduled, this`live, this`next, this`owner, this`seen, this`crashed
        {
          PropertyChange(s, enable);
          k := k + 1;
        }
      }
    }

    /** Enables or disables every registered scanner. */
    method SetScanEnabled(enable: bool) returns (ghost order: seq<Scanner>)
      requires scheduled.Keys <= scanners && Inv(View())
      modifies this`scheduled, this`live, this`next, this`owner, this`seen, this`crashed, scanners
      ensures scanners == old(scanners) && Orders(order, old(scheduled).Keys)
      ensures View() == ScannerRegistry.SetScanEnabled(old(View()), order, enable) && Inv(View())
    {
      var todo := scheduled.Keys;
      order := [];
      while todo != {}
        invariant todo <= old(scheduled).Keys <= scanners == old(scanners) && Inv(View())
        invariant Orders(order, old(scheduled).Keys - todo)
        invariant View() == ScannerRegistry.SetScanEnabled(old(View()), order, enable)
      {
        var s :| s in todo;
        SweepLast(old(View()), order, s, enable);
        OrdersMore(order, old(scheduled).Keys - todo, s);
        SetEnabled(s, enable);
        todo, order := todo - {s}, order + [s];
        assert old(scheduled).Keys - (todo + {s}) + {s} == old(scheduled).Keys - todo;
      }
      assert old(scheduled).Keys - todo == old(scheduled).Keys;
    }
  }
}
