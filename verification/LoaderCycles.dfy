/** Cycle breaking seen from the tables: paths through the dependency graph, what one forced
    slot means, and the bookkeeping of the depth-first search over the registry. */
module LoaderCycles {
  import opened LoaderState
  import opened Wrappers

  /** Each module on `p` has a counted slot that depends on the next one. */
  ghost predicate Linked(s: State, id: Id, dep: Id) {
    exists i: nat :: Edge(s, id, i, dep)
  }

  ghost predicate Hop(s: State, p: seq<Id>, k: nat) {
    k + 1 < |p| ==> Linked(s, p[k], p[k + 1])
  }

  ghost predicate Path(s: State, p: seq<Id>) {
    |p| > 0 && forall k: nat :: Hop(s, p, k)
  }

  ghost predicate Reaches(s: State, a: Id, b: Id) {
    exists p :: Path(s, p) && p[0] == a && p[|p| - 1] == b
  }

  /** Slot `l` depends on a module that, along counted slots, depends on the slot's owner. */
  ghost predicate ClosesCycle(s: State, l: Listener) {
    && l.owner in s.mods && l.slot < |s.mods[l.owner].depMaps| && s.mods[l.owner].depMaps[l.slot].Mapped?
    && Reaches(s, Dep(s.mods[l.owner], l.slot), l.owner)
  }

  /** Every enabled module that is still to be defined has been given its factory. */
  ghost predicate AllReady(s: State) {
    forall id {:trigger id in s.enabledRegistry} :: id in s.enabledRegistry && id in s.mods ==> s.mods[id].inited
  }

  ghost predicate Quiet(s: State) {
    forall id {:trigger s.mods[id].enabling} :: id in s.mods ==> !s.mods[id].enabling
  }

  /** What cycle breaking may do: force slots that close a cycle, and whatever follows. */
  ghost predicate Steady(s: State, t: State) {
    && Calm(s, t.(forced := s.forced))
    && s.forced <= t.forced && t.registry <= s.registry
    && forall l :: l in t.forced && l !in s.forced ==> ClosesCycle(s, l)
  }

  ghost predicate BackedSlot(s: State, l: Listener, traced: set<Id>) {
    && l.owner in s.mods && l.slot < |s.mods[l.owner].depMaps|
    && var dep := Dep(s.mods[l.owner], l.slot); dep in traced || (dep in s.mods && s.mods[dep].defined)
  }

  /** What a forced slot depends on has been defined since, or the search has yet to finish with it. */
  ghost predicate Backed(s: State, traced: set<Id>) {
    forall l {:trigger l in s.forced} :: l in s.forced ==> BackedSlot(s, l, traced)
  }

  /** The search: `stack` is the current recursion, which is what is traced but not yet
      processed; if every module is `ready`, processed modules have been defined. */
  ghost predicate Tracing(s: State, stack: seq<Id>, traced: set<Id>, processed: set<Id>, ready: bool) {
    && processed <= traced && Backed(s, traced)
    && (forall x :: x in stack <==> x in traced && x !in processed)
    && (ready ==> AllReady(s) && forall x :: x in processed ==> x !in s.registry)
  }

  /** The search has module `id` on top of its stack. */
  ghost predicate Searching(s: State, id: Id, stack: seq<Id>, traced: set<Id>, processed: set<Id>, ready: bool) {
    && Inv(s, {}, None) && Quiet(s) && id in s.mods && s.mods[id].enabled
    && |stack| > 0 && stack[|stack| - 1] == id && Path(s, stack)
    && Tracing(s, stack, traced, processed, ready)
  }

  /** The search is about to trace module `id`. */
  ghost predicate Entering(s: State, id: Id, stack: seq<Id>, traced: set<Id>, processed: set<Id>, ready: bool) {
    && Inv(s, {}, None) && Quiet(s) && id in s.mods && s.mods[id].enabled
    && id !in traced && Path(s, stack + [id])
    && Tracing(s, stack, traced, processed, ready)
  }

  ghost predicate Satisfied(m: Mod, i: nat) {
    i < |m.depMatched| && m.depMatched[i]
  }

  /** The first `n` slots of `id` are satisfied. */
  ghost predicate Done(s: State, id: Id, n: nat) {
    id in s.mods && forall i: nat {:trigger Satisfied(s.mods[id], i)} :: i < n ==> Satisfied(s.mods[id], i)
  }

  // ---- Steadiness ----------------------------------------------------------------------------

  lemma EdgesKept(s: State, t: State, id: Id, i: nat, dep: Id)
    requires Calm(s, t.(forced := s.forced))
    ensures Edge(s, id, i, dep) <==> Edge(t, id, i, dep)
  {
    if id in s.mods { assert Unwired(s.mods[id], t.mods[id]); }
  }

  lemma LinkedKept(s: State, t: State, id: Id, dep: Id)
    requires Calm(s, t.(forced := s.forced))
    ensures Linked(s, id, dep) <==> Linked(t, id, dep)
  {
    forall i: nat ensures Edge(s, id, i, dep) <==> Edge(t, id, i, dep) {
      EdgesKept(s, t, id, i, dep);
    }
  }

  lemma PathKept(s: State, t: State, p: seq<Id>)
    requires Calm(s, t.(forced := s.forced))
    ensures Path(s, p) <==> Path(t, p)
  {
    forall k: nat ensures Hop(s, p, k) <==> Hop(t, p, k) {
      if k + 1 < |p| { LinkedKept(s, t, p[k], p[k + 1]); }
    }
  }

  lemma ClosesKept(s: State, t: State, l: Listener)
    requires Calm(s, t.(forced := s.forced)) && ClosesCycle(t, l)
    ensures ClosesCycle(s, l)
  {
    assert Unwired(s.mods[l.owner], t.mods[l.owner]);
    var p :| Path(t, p) && p[0] == Dep(t.mods[l.owner], l.slot) && p[|p| - 1] == l.owner;
    PathKept(s, t, p);
  }

  ghost predicate EdgesGrow(s: State, t: State) {
    forall id, i: nat, dep {:trigger Edge(s, id, i, dep)} :: Edge(s, id, i, dep) ==> Edge(t, id, i, dep)
  }

  lemma PathGrows(s: State, t: State, p: seq<Id>)
    requires EdgesGrow(s, t) && Path(s, p)
    ensures Path(t, p)
  {
    forall k: nat ensures Hop(t, p, k) {
      assert Hop(s, p, k);
      if k + 1 < |p| {
        var i: nat :| Edge(s, p[k], i, p[k + 1]);
        assert Edge(t, p[k], i, p[k + 1]);
      }
    }
  }

  lemma ReachesGrows(s: State, t: State, a: Id, b: Id)
    requires EdgesGrow(s, t) && Reaches(s, a, b)
    ensures Reaches(t, a, b)
  {
    var p :| Path(s, p) && p[0] == a && p[|p| - 1] == b;
    PathGrows(s, t, p);
  }

  lemma ClosesGrows(s: State, t: State, l: Listener)
    requires EdgesGrow(s, t) && ClosesCycle(s, l)
    ensures ClosesCycle(t, l)
  {
    var dep := Dep(s.mods[l.owner], l.slot);
    assert Edge(s, l.owner, l.slot, dep);
    ReachesGrows(s, t, dep, l.owner);
    assert Edge(t, l.owner, l.slot, dep);
  }

  lemma RegistryShrinks(s: State, t: State, e: Option<Id>)
    requires Inv(s, {}, e) && Inv(t, {}, None) && Calm(s, t.(forced := s.forced))
    ensures t.registry <= s.registry
  {
    forall id | id in t.registry ensures id in s.registry {
      assert ModOk(t, id, {}, None) && ModOk(s, id, {}, e) && Forward(s.mods[id], t.mods[id]);
    }
  }

  lemma SteadyTransitive(s: State, t: State, u: State)
    requires Steady(s, t) && Steady(t, u)
    ensures Steady(s, u)
  {
    CalmTransitive(s, t.(forced := s.forced), u.(forced := s.forced));
    forall l | l in u.forced && l !in s.forced ensures ClosesCycle(s, l) {
      if l !in t.forced { ClosesKept(s, t, l); }
    }
  }

  lemma ReadyKept(s: State, t: State)
    requires Inv(s, {}, None) && Inv(t, {}, None) && Steady(s, t)
    ensures AllReady(s) ==> AllReady(t)
    ensures Quiet(s) ==> Quiet(t)
  {
    forall id | id in t.mods ensures t.mods[id].enabling == s.mods[id].enabling {
      assert Forward(s.mods[id], t.mods[id]);
    }
    forall id | AllReady(s) && id in t.enabledRegistry && id in t.mods ensures t.mods[id].inited {
      assert Forward(s.mods[id], t.mods[id]) && Unwired(s.mods[id], t.mods[id]);
      assert ModOk(s, id, {}, None) && ModOk(t, id, {}, None);
    }
  }

  lemma BackedGrows(s: State, t: State, traced: set<Id>)
    requires Backed(s, traced) && Grows(s, t)
    ensures Backed(t, traced)
  {
    forall l | l in t.forced ensures BackedSlot(t, l, traced) {
      var dep := Dep(s.mods[l.owner], l.slot);
      assert Forward(s.mods[l.owner], t.mods[l.owner]);
      if dep in s.mods { assert Forward(s.mods[dep], t.mods[dep]); }
    }
  }

  lemma BackedForce(s: State, id: Id, i: nat, traced: set<Id>)
    requires Backed(s, traced) && id in s.mods && i < |s.mods[id].depMaps|
    requires i < |s.mods[id].depMatched| && i < |s.mods[id].depExports| && Dep(s.mods[id], i) in traced
    ensures Backed(Force(s, id, i), traced)
  {
    var t, m := Force(s, id, i), Matched(s.mods[id], i, Undefined);
    assert m.depMaps == s.mods[id].depMaps && m.defined == s.mods[id].defined && t.mods == s.mods[id := m];
    forall l | l in t.forced ensures BackedSlot(t, l, traced) {
      if l in s.forced { assert BackedSlot(s, l, traced); }
    }
  }

  lemma BackedInitialise(s: State, id: Id, deps: seq<string>, factory: Factory)
    requires Backed(s, {}) && id in s.mods && s.mods[id].depMaps == []
    ensures Backed(Initialise(s, id, deps, factory), {})
  {
    var t := Initialise(s, id, deps, factory);
    forall l | l in t.forced ensures BackedSlot(t, l, {}) {
      assert BackedSlot(s, l, {});
    }
  }

  /** When the search is over, what a forced slot depends on has been defined. */
  lemma SearchOver(s: State, traced: set<Id>, processed: set<Id>)
    requires Inv(s, {}, None) && Tracing(s, [], traced, processed, true)
    ensures Backed(s, {})
  {
    forall l | l in s.forced ensures BackedSlot(s, l, {}) {
      assert BackedSlot(s, l, traced);
      var dep := Dep(s.mods[l.owner], l.slot);
      assert ModOk(s, l.owner, {}, None) && SlotOk(s, l.owner, l.slot, {}) && ModOk(s, dep, {}, None);
      if dep in traced { assert dep in processed by { assert dep !in []; } }
    }
  }

  // ---- The steps of the search ------------------------------------------------------------------

  /** Forcing a slot whose dependency is on the recursion stack closes a cycle. */
  lemma ForceCloses(s: State, stack: seq<Id>, i: nat, dep: Id)
    requires Path(s, stack) && dep in stack
    requires Edge(s, stack[|stack| - 1], i, dep)
    ensures ClosesCycle(s, Listener(stack[|stack| - 1], i))
  {
    var k :| 0 <= k < |stack| && stack[k] == dep;
    var p := stack[k..];
    forall j: nat ensures Hop(s, p, j) {
      assert Hop(s, stack, k + j);
    }
    assert Path(s, p) && p[0] == dep && p[|p| - 1] == stack[|stack| - 1];
  }

  lemma ForceSteady(s: State, id: Id, i: nat, t: State)
    requires Inv(s, {}, None) && id in s.mods && Waiting(s.mods[id], i) && ClosesCycle(s, Listener(id, i))
    requires i < |s.mods[id].depExports| && Calm(Force(s, id, i), t) && Inv(t, {}, None)
    ensures Steady(s, t) && id in t.mods && Satisfied(t.mods[id], i)
  {
    var f := Force(s, id, i);
    assert ModOk(s, id, {}, None);
    MatchCalm(s, id, i, Undefined, {}, None);
    CalmTransitive(s, f.(forced := s.forced), t.(forced := s.forced));
    RegistryShrinks(s, t, None);
    assert Forward(f.mods[id], t.mods[id]);
  }

  lemma ForceStep(s: State, id: Id, i: nat)
    requires Inv(s, {}, None) && id in s.mods && Waiting(s.mods[id], i)
    requires i < |s.mods[id].depExports|
    ensures Inv(Force(s, id, i), {}, Some(id))
  {
    assert ModOk(s, id, {}, None);
    ForceMod(s, id, i);
    LocalKeeps(s, Force(s, id, i), id, {}, {}, None, Some(id));
  }

  lemma SearchGoesOn(s: State, t: State, id: Id, stack: seq<Id>, traced: set<Id>, processed: set<Id>,
                     traced': set<Id>, processed': set<Id>, ready: bool)
    requires Searching(s, id, stack, traced, processed, ready) && Steady(s, t) && Inv(t, {}, None)
    requires Tracing(t, stack, traced', processed', ready)
    ensures Searching(t, id, stack, traced', processed', ready)
  {
    ReadyKept(s, t);
    PathKept(s, t, stack);
    assert Unwired(s.mods[id], t.mods[id]);
  }

  lemma TracingKept(s: State, t: State, stack: seq<Id>, traced: set<Id>, processed: set<Id>, ready: bool)
    requires Inv(s, {}, None) && Inv(t, {}, None) && Steady(s, t) && Tracing(s, stack, traced, processed, ready)
    requires Backed(t, traced)
    ensures Tracing(t, stack, traced, processed, ready)
  {
    ReadyKept(s, t);
  }

  /** The dependency of an open slot can be searched next. */
  lemma Descend(s: State, id: Id, i: nat, dep: Id, stack: seq<Id>, traced: set<Id>, processed: set<Id>, ready: bool)
    requires Searching(s, id, stack, traced, processed, ready) && Edge(s, id, i, dep) && dep !in traced
    ensures Entering(s, dep, stack, traced, processed, ready)
  {
    assert ModOk(s, id, {}, None) && SlotOk(s, id, i, {});
    var p := stack + [dep];
    forall k: nat ensures Hop(s, p, k) {
      if k + 1 < |p| {
        assert Hop(s, stack, k);
        if k + 1 == |stack| {
          assert p[k] == id && p[k + 1] == dep;
        } else {
          assert p[k] == stack[k] && p[k + 1] == stack[k + 1];
        }
      }
    }
  }

  lemma Entered(s: State, id: Id, stack: seq<Id>, traced: set<Id>, processed: set<Id>, ready: bool)
    requires Entering(s, id, stack, traced, processed, ready)
    ensures Searching(s, id, stack + [id], traced + {id}, processed, ready)
  {}

  /** All slots of the module on top of the stack are done. */
  lemma Leave(s: State, id: Id, stack: seq<Id>, traced: set<Id>, processed: set<Id>, ready: bool)
    requires Searching(s, id, stack + [id], traced, processed, ready) && id !in stack
    requires ready ==> Done(s, id, |s.mods[id].depMaps|)
    ensures Tracing(s, stack, traced, processed + {id}, ready) && (ready ==> id !in s.registry)
  {
    assert id in stack + [id];
    forall x ensures x in stack <==> x in traced && x !in processed + {id} {
      assert x in stack + [id] <==> x in stack || x == id;
    }
    if ready { SatisfiedDefined(s, id); }
  }

  /** A slot whose dependency has left the registry is satisfied. */
  lemma SlotSatisfied(s: State, id: Id, i: nat, dep: Id)
    requires Inv(s, {}, None) && Quiet(s) && id in s.mods && s.mods[id].enabled && i < |s.mods[id].depMaps|
    requires Dep(s.mods[id], i) == dep && dep !in s.registry
    ensures Satisfied(s.mods[id], i)
  {
    assert ModOk(s, id, {}, None) && SlotOk(s, id, i, {});
  }

  lemma SlotMappedNow(s: State, id: Id, i: nat)
    requires Inv(s, {}, None) && Quiet(s) && id in s.mods && s.mods[id].enabled && i < |s.mods[id].depMaps|
    ensures s.mods[id].depMaps[i].Mapped? && |s.mods[id].depMatched| == |s.mods[id].depExports| == |s.mods[id].depMaps|
  {
    assert ModOk(s, id, {}, None) && SlotOk(s, id, i, {});
  }

  /** Once all its slots are satisfied, a ready module has been defined. */
  lemma SatisfiedDefined(s: State, id: Id)
    requires Inv(s, {}, None) && Quiet(s) && id in s.mods && s.mods[id].enabled && AllReady(s)
    requires Done(s, id, |s.mods[id].depMaps|)
    ensures id !in s.registry
  {
    assert ModOk(s, id, {}, None);
    assert Open(s.mods[id]) == {} by {
      forall i: nat | i < |s.mods[id].depMaps| ensures i !in Open(s.mods[id]) { assert Satisfied(s.mods[id], i); }
    }
  }

  lemma SlotKept(s: State, t: State, id: Id, i: nat, dep: Id)
    requires Inv(s, {}, None) && Quiet(s) && id in s.mods && s.mods[id].enabled && i < |s.mods[id].depMaps|
      && Steady(s, t)
    requires Inv(t, {}, None) && Dep(s.mods[id], i) == dep
    ensures dep !in t.registry ==> Satisfied(t.mods[id], i)
  {
    assert Forward(s.mods[id], t.mods[id]) && Unwired(s.mods[id], t.mods[id]);
    ReadyKept(s, t);
    if dep !in t.registry { SlotSatisfied(t, id, i, dep); }
  }

  lemma OneMoreDone(s: State, t: State, id: Id, n: nat)
    requires Steady(s, t) && Done(s, id, n) && Satisfied(t.mods[id], n)
    ensures Done(t, id, n + 1)
  {
    assert Forward(s.mods[id], t.mods[id]);
    forall i: nat | i < n + 1 ensures Satisfied(t.mods[id], i) {
      if i < n { assert Satisfied(s.mods[id], i); }
    }
  }

  lemma SearchSmaller(s: State, id: Id, dep: Id, traced: set<Id>)
    requires dep in s.registry && dep !in traced && id in traced
    ensures |s.registry + {dep} - traced| < |s.registry + {id} - (traced - {id})|
  {
    assert s.registry + {id} - (traced - {id}) == (s.registry + {dep} - traced) + {id};
  }

  lemma SearchNoLarger(s: State, t: State, id: Id, traced: set<Id>, traced': set<Id>)
    requires Steady(s, t) && traced <= traced'
    ensures |t.registry + {id} - (traced' - {id})| <= |s.registry + {id} - (traced - {id})|
  {
    SubsetSize(t.registry + {id} - (traced' - {id}), s.registry + {id} - (traced - {id}));
  }

  // ---- Between calls ------------------------------------------------------------------------------

  /** What holds whenever the loader is idle. */
  ghost predicate Sound(s: State) {
    && Inv(s, {}, None) && Quiet(s)
    && (forall l {:trigger l in s.forced} :: l in s.forced ==> ClosesCycle(s, l))
    && (forall id {:trigger s.mods[id].inited} :: id in s.mods && id.Req? ==> s.mods[id].inited && s.mods[id].enabled)
  }

  /** Sound, but for a `require` whose module has only just been created. */
  ghost predicate SoundBut(s: State, id: Id) {
    && Inv(s, {}, None) && Quiet(s)
    && (forall l {:trigger l in s.forced} :: l in s.forced ==> ClosesCycle(s, l))
    && (forall x {:trigger s.mods[x].inited} :: x in s.mods && x.Req? && x != id
          ==> s.mods[x].inited && s.mods[x].enabled)
  }

  lemma SoundSteady(s: State, t: State)
    requires Sound(s) && Steady(s, t) && Inv(t, {}, None)
    ensures Sound(t)
  {
    ReadyKept(s, t);
    forall id, i: nat, dep | Edge(s, id, i, dep) ensures Edge(t, id, i, dep) {
      EdgesKept(s, t, id, i, dep);
    }
    forall l | l in t.forced ensures ClosesCycle(t, l) {
      ClosesGrows(s, t, l);
    }
    forall id | id in t.mods && id.Req? ensures t.mods[id].inited && t.mods[id].enabled {
      assert Forward(s.mods[id], t.mods[id]) && s.mods[id].inited;
    }
  }

  lemma GrowsEdges(s: State, t: State)
    requires Grows(s, t)
    ensures EdgesGrow(s, t)
  {
    forall id, i: nat, dep | Edge(s, id, i, dep) ensures Edge(t, id, i, dep) {
      assert Forward(s.mods[id], t.mods[id]);
    }
  }

  lemma NewAreNamed(s: State, t: State, x: Id)
    requires Grows(s, t) && x in t.mods
    ensures x in s.mods || x.Def?
  {
    if x !in s.mods { assert !t.mods[x].enabling; }
  }

  lemma GrowsQuiet(s: State, t: State)
    requires Grows(s, t) && Quiet(s)
    ensures Quiet(t)
  {
    forall id | id in t.mods ensures !t.mods[id].enabling {
      if id in s.mods { assert Forward(s.mods[id], t.mods[id]) && !s.mods[id].enabling; }
    }
  }

  /** Giving a module its dependencies and factory, and whatever follows, keeps an idle loader sound. */
  lemma SoundInitialise(s: State, id: Id, deps: seq<string>, factory: Factory, t: State)
    requires SoundBut(s, id) && id in s.mods && !s.mods[id].inited && Grows(Initialise(s, id, deps, factory), t)
      && Inv(t, {}, None)
    requires id.Req? ==> t.mods[id].enabled
    ensures Sound(t) && Declared(t, id, deps, factory)
  {
    var u := Initialise(s, id, deps, factory);
    assert ModOk(s, id, {}, None);
    assert Quiet(u);
    GrowsQuiet(u, t);
    GrowsEdges(u, t);
    forall l | l in t.forced ensures ClosesCycle(t, l) {
      ClosesGrows(s, u, l);
      ClosesGrows(u, t, l);
    }
    forall x | x in t.mods && x.Req? ensures t.mods[x].inited && t.mods[x].enabled {
      NewAreNamed(u, t, x);
      assert Forward(u.mods[x], t.mods[x]) && (x != id ==> s.mods[x].inited);
    }
    assert Forward(u.mods[id], t.mods[id]);
  }

  /** The module has been given these dependencies and this factory. */
  ghost predicate Declared(s: State, id: Id, deps: seq<string>, factory: Factory) {
    && Settled(s, id) && s.mods[id].factory == factory && |s.mods[id].depMaps| == |deps|
    && forall i :: 0 <= i < |deps| ==> s.mods[id].depMaps[i].name == deps[i]
  }

  lemma SoundCreate(s: State, id: Id)
    requires Sound(s) && id !in s.mods
    ensures SoundBut(Create(s, id), id)
  {
    var t := Create(s, id);
    CreateKeeps(s, id, {});
    forall l | l in t.forced ensures ClosesCycle(t, l) {
      ClosesGrows(s, t, l);
    }
  }

  /** An enabled module that has not been given its factory has been asked for. */
  lemma Unready(s: State, id: Id)
    requires Sound(s) && id in s.enabledRegistry && !s.mods[id].inited
    ensures id.Def? && s.mods[id].fetched && s.mods[id].enabled
  {
    assert ModOk(s, id, {}, None);
  }

  /** A finite set holding every module and every dependency, `deps` included. */
  function AllIds(s: State, deps: seq<string>): (u: set<Id>)
    ensures Bounded(s, u) && s.mods.Keys <= u && forall name :: name in deps ==> Def(name) in u
  {
    s.mods.Keys + (set name | name in deps :: Def(name))
      + (set id, i: nat | id in s.mods && i < |s.mods[id].depMaps| :: Dep(s.mods[id], i))
  }

  /** All anonymous requires have run. */
  ghost predicate RequiresDone(s: State) {
    forall id {:trigger s.mods[id].defined} :: id in s.mods && id.Req? ==> s.mods[id].defined
  }

  lemma StartSearch(s: State, t: State, id: Id)
    requires Sound(s) && AllReady(s) && Steady(s, t) && Inv(t, {}, None) && id in s.mods && s.mods[id].enabled
    requires Backed(t, {})
    ensures Entering(t, id, [], {}, {}, true)
  {
    ReadyKept(s, t);
    assert Unwired(s.mods[id], t.mods[id]);
  }

  lemma CallsDone(s: State, t: State, calls: set<Id>)
    requires Sound(s) && Sound(t) && Steady(s, t)
    requires forall id :: id in s.enabledRegistry && id.Req? ==> id in calls
    requires forall id :: id in calls ==> id !in t.registry
    ensures RequiresDone(t)
  {
    forall id | id in t.mods && id.Req? ensures t.mods[id].defined {
      assert Forward(s.mods[id], t.mods[id]) && s.mods[id].inited;
      assert ModOk(s, id, {}, None) && ModOk(t, id, {}, None);
    }
  }

  /** The module has been given its dependencies and factory. */
  ghost predicate Settled(s: State, id: Id) {
    id in s.mods && s.mods[id].inited
  }

  /** Generated ids do not run ahead of the counter they come from. */
  ghost predicate Serials(s: State, n: nat) {
    forall id {:trigger id in s.mods} :: id in s.mods && id.Req? ==> id.serial <= n
  }

  lemma SerialsGrow(s: State, id: Id, deps: seq<string>, factory: Factory, t: State, n: nat)
    requires Serials(s, n) && id in s.mods && Grows(Initialise(s, id, deps, factory), t)
    ensures Serials(t, n)
  {
    var u := Initialise(s, id, deps, factory);
    forall x | x in t.mods && x.Req? ensures x.serial <= n {
      NewAreNamed(u, t, x);
    }
  }

  lemma SerialsCreate(s: State, id: Id, n: nat)
    requires Serials(s, n) && (id.Req? ==> id.serial <= n)
    ensures Serials(Create(s, id), n)
  {}

  // ---- What calls leave alone ---------------------------------------------------------------------

  ghost function SettledIds(s: State): set<Id> { set id | id in s.mods && s.mods[id].inited }

  ghost predicate SameProgram(a: Mod, b: Mod) {
    && a.factory == b.factory && |a.depMaps| == |b.depMaps|
    && forall i: nat {:trigger a.depMaps[i]} {:trigger b.depMaps[i]} :: i < |a.depMaps|
         ==> a.depMaps[i].name == b.depMaps[i].name
  }

  /** Only the modules in `fresh` get their dependencies and factory between `s` and `t`;
      the others keep theirs, finished modules keep everything, and no run is forgotten. */
  ghost predicate Persists(s: State, t: State, news: set<Id>) {
    && SettledIds(t) == SettledIds(s) + news && s.runs <= t.runs
    && (forall id {:trigger SameProgram(s.mods[id], t.mods[id])} :: id in SettledIds(s) ==>
          SameProgram(s.mods[id], t.mods[id]) && (s.mods[id].defined ==> t.mods[id] == s.mods[id]))
  }

  lemma PersistsTransitive(s: State, t: State, u: State, a: set<Id>, b: set<Id>)
    requires Persists(s, t, a) && Persists(t, u, b)
    ensures Persists(s, u, a + b)
  {
    forall id | id in SettledIds(s)
      ensures SameProgram(s.mods[id], u.mods[id]) && (s.mods[id].defined ==> u.mods[id] == s.mods[id])
    {
      assert SameProgram(s.mods[id], t.mods[id]) && SameProgram(t.mods[id], u.mods[id]);
    }
  }

  lemma GrowsPersists(s: State, t: State)
    requires Grows(s, t)
    ensures Persists(s, t, {})
  {
    forall id ensures id in SettledIds(t) <==> id in SettledIds(s) {
      if id in t.mods && id !in s.mods { assert !t.mods[id].enabling; }
      if id in s.mods { assert Forward(s.mods[id], t.mods[id]); }
    }
    forall id | id in SettledIds(s)
      ensures SameProgram(s.mods[id], t.mods[id]) && (s.mods[id].defined ==> t.mods[id] == s.mods[id])
    {
      assert Forward(s.mods[id], t.mods[id]);
    }
  }

  lemma SteadyPersists(s: State, t: State)
    requires Steady(s, t)
    ensures Persists(s, t, {})
  {
    GrowsPersists(s, t.(forced := s.forced));
    assert SettledIds(t) == SettledIds(t.(forced := s.forced));
    forall id | id in SettledIds(s)
      ensures SameProgram(s.mods[id], t.mods[id]) && (s.mods[id].defined ==> t.mods[id] == s.mods[id])
    {
      assert SameProgram(s.mods[id], t.(forced := s.forced).mods[id]);
    }
  }

  lemma InitialisePersists(s: State, id: Id, deps: seq<string>, factory: Factory, t: State)
    requires id in s.mods && !s.mods[id].inited && Grows(Initialise(s, id, deps, factory), t)
    ensures Persists(s, t, {id})
  {
    var u := Initialise(s, id, deps, factory);
    assert Persists(s, u, {id});
    GrowsPersists(u, t);
    PersistsTransitive(s, u, t, {id}, {});
    assert {id} + {} == {id};
  }

  lemma CreatePersists(s: State, id: Id)
    requires id !in s.mods
    ensures Persists(s, Create(s, id), {})
  {}

  // ---- The effect of init, define and require ------------------------------------------------------

  function Obtain(s: State, id: Id): State {
    if id in s.mods then s else Create(s, id)
  }

  ghost predicate Inits(s: State, t: State, id: Id, deps: seq<string>, factory: Factory) {
    id in s.mods && if s.mods[id].inited then t == s else Grows(Initialise(s, id, deps, factory), t)
  }

  /** The first definition of a module is the one that counts; nothing else is redefined. */
  ghost predicate Defines(s: State, t: State, id: Id, deps: seq<string>, factory: Factory) {
    && Persists(s, t, {id})
    && if Settled(s, id) then t == s else Declared(t, id, deps, factory)
  }

  lemma InitsSound(s: State, t: State, id: Id, deps: seq<string>, factory: Factory, n: nat)
    requires SoundBut(s, id) && Serials(s, n) && Inits(s, t, id, deps, factory) && Inv(t, {}, None)
    requires id.Req? ==> !s.mods[id].inited && id in t.mods && t.mods[id].enabled
    ensures Sound(t) && Serials(t, n)
  {
    if !s.mods[id].inited {
      SoundInitialise(s, id, deps, factory, t);
      SerialsGrow(s, id, deps, factory, t, n);
    }
  }

  lemma InitsDefines(s: State, u: State, id: Id, deps: seq<string>, factory: Factory)
    requires Inits(Obtain(s, id), u, id, deps, factory)
    ensures Defines(s, u, id, deps, factory)
  {
    var t := Obtain(s, id);
    if t.mods[id].inited {
      SettledDefines(s, id, deps, factory);
    } else {
      if id !in s.mods { CreatePersists(s, id); }
      assert Persists(s, t, {});
      InitialisePersists(t, id, deps, factory, u);
      PersistsTransitive(s, t, u, {}, {id});
      assert {} + {id} == {id};
      assert Forward(Initialise(t, id, deps, factory).mods[id], u.mods[id]);
    }
  }

  lemma SettledDefines(s: State, id: Id, deps: seq<string>, factory: Factory)
    requires Settled(s, id)
    ensures Defines(s, s, id, deps, factory)
  {}

  /** A module that is not defined is still registered; one that is needs no definition. */
  lemma DefineOnce(s: State, id: Id, deps: seq<string>, factory: Factory)
    requires Sound(s) && id.Def?
    ensures if id in s.defined then Defines(s, s, id, deps, factory) else id in s.mods ==> id in s.registry
  {
    if id in s.mods { assert ModOk(s, id, {}, None); }
    if id in s.defined { SettledDefines(s, id, deps, factory); }
  }

  lemma DefinesSteady(s: State, t: State, u: State, id: Id, deps: seq<string>, factory: Factory)
    requires Defines(s, t, id, deps, factory) && Steady(t, u) && !Settled(s, id)
    ensures Defines(s, u, id, deps, factory)
  {
    SteadyPersists(t, u);
    PersistsTransitive(s, t, u, {id}, {});
    assert {id} + {} == {id};
    assert SameProgram(t.mods[id], u.mods[id]);
    assert forall i {:trigger deps[i]} :: 0 <= i < |deps| ==> t.mods[id].depMaps[i].name == u.mods[id].depMaps[i].name;
  }
}
