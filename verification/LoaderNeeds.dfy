/** What the loader turns on: only modules that a `require` call depends on, directly or
    through other modules. */
module LoaderNeeds {
  import opened LoaderState
  import opened LoaderCycles

  ghost predicate Enabled(s: State, id: Id) {
    id in s.mods && s.mods[id].enabled
  }

  /** Nothing is enabled that was not. */
  ghost predicate Frugal(s: State, t: State) {
    EdgesGrow(s, t) && forall x {:trigger Enabled(t, x)} :: Enabled(t, x) ==> Enabled(s, x)
  }

  /** Whatever has been enabled since `s` is something that `root` depends on, or is `root`. */
  ghost predicate Sparing(s: State, t: State, root: Id) {
    EdgesGrow(s, t) && forall x {:trigger Enabled(t, x)} :: Enabled(t, x) ==> Enabled(s, x) || Reaches(t, root, x)
  }

  /** Every enabled module is one that a `require` call depends on. */
  ghost predicate Wanted(s: State) {
    forall x {:trigger Enabled(s, x)} :: Enabled(s, x) ==> exists call: Id :: call.Req? && Reaches(s, call, x)
  }

  lemma ReachesSelf(s: State, a: Id)
    ensures Reaches(s, a, a)
  {
    var p := [a];
    assert forall k: nat :: Hop(s, p, k);
    assert Path(s, p);
  }

  lemma {:induction false} ReachesOn(s: State, a: Id, b: Id, c: Id)
    requires Reaches(s, a, b) && Reaches(s, b, c)
    ensures Reaches(s, a, c)
  {
    var p :| Path(s, p) && p[0] == a && p[|p| - 1] == b;
    var q :| Path(s, q) && q[0] == b && q[|q| - 1] == c;
    var r := p + q[1..];
    forall k: nat ensures Hop(s, r, k) {
      if k + 1 < |p| {
        assert Hop(s, p, k);
      } else if k + 1 < |r| {
        assert Hop(s, q, k + 1 - |p|);
        assert r[k + 1] == q[k + 2 - |p|] && r[k] == q[k + 1 - |p|];
      }
    }
    assert Path(s, r);
  }

  lemma ReachesDep(s: State, id: Id, i: nat, dep: Id)
    requires Edge(s, id, i, dep)
    ensures Reaches(s, id, dep)
  {
    var p := [id, dep];
    forall k: nat ensures Hop(s, p, k) {
      if k == 0 { assert Linked(s, id, dep); }
    }
    assert Path(s, p);
  }

  // ---- The steps of enabling -----------------------------------------------------------------

  lemma EdgesGrowOn(s: State, t: State, u: State)
    requires EdgesGrow(s, t) && EdgesGrow(t, u)
    ensures EdgesGrow(s, u)
  {
    forall id, i: nat, dep | Edge(s, id, i, dep) ensures Edge(u, id, i, dep) {
      assert Edge(t, id, i, dep);
    }
  }

  /** What checking and announcing do enables nothing. */
  lemma CalmFrugal(s: State, t: State)
    requires Calm(s, t)
    ensures Frugal(s, t)
  {
    GrowsEdges(s, t);
    forall x | Enabled(t, x) ensures Enabled(s, x) {
      assert Unwired(s.mods[x], t.mods[x]);
    }
  }

  lemma FrugalOn(s: State, t: State, u: State)
    requires Frugal(s, t) && Frugal(t, u)
    ensures Frugal(s, u)
  {
    EdgesGrowOn(s, t, u);
  }

  lemma CreateFrugal(s: State, id: Id)
    requires id !in s.mods
    ensures Frugal(s, Create(s, id))
  {
    var t := Create(s, id);
    forall x, j: nat, d | Edge(s, x, j, d) ensures Edge(t, x, j, d) {}
    forall x | Enabled(t, x) ensures Enabled(s, x) {}
  }

  lemma ListenFrugal(s: State, dep: Id, l: Listener)
    ensures Frugal(s, Listen(if dep in s.mods then s else Create(s, dep), dep, l))
  {
    var t := Listen(if dep in s.mods then s else Create(s, dep), dep, l);
    forall id, i: nat, d | Edge(s, id, i, d) ensures Edge(t, id, i, d) {}
    forall x | Enabled(t, x) ensures Enabled(s, x) {}
  }

  lemma SubscribeFrugal(s: State, t: State, id: Id, i: nat)
    requires id in s.mods && i < |s.mods[id].depMaps| && t == Subscribe(s, id, i)
    ensures Frugal(s, t)
  {
    forall x, j: nat, d | Edge(s, x, j, d) ensures Edge(t, x, j, d) {}
    forall x | Enabled(t, x) ensures Enabled(s, x) {}
  }

  lemma StartSparing(s: State, id: Id)
    requires id in s.mods
    ensures Sparing(s, StartEnabling(s, id), id)
  {
    var t := StartEnabling(s, id);
    forall x, i: nat, d | Edge(s, x, i, d) ensures Edge(t, x, i, d) {}
    ReachesSelf(t, id);
  }

  lemma SparingFrugal(s: State, t: State, u: State, root: Id)
    requires Sparing(s, t, root) && Frugal(t, u)
    ensures Sparing(s, u, root)
  {
    EdgesGrowOn(s, t, u);
    forall x | Enabled(u, x) && !Enabled(s, x) ensures Reaches(u, root, x) {
      assert Enabled(t, x);
      ReachesGrows(t, u, root, x);
    }
  }

  /** Enabling on behalf of a dependency is enabling on behalf of the module itself. */
  lemma SparingDep(s: State, t: State, u: State, root: Id, i: nat, dep: Id)
    requires Sparing(s, t, root) && Sparing(t, u, dep) && Edge(t, root, i, dep)
    ensures Sparing(s, u, root)
  {
    EdgesGrowOn(s, t, u);
    ReachesDep(u, root, i, dep);
    forall x | Enabled(u, x) && !Enabled(s, x) ensures Reaches(u, root, x) {
      if Enabled(t, x) {
        ReachesGrows(t, u, root, x);
      } else {
        ReachesOn(u, root, dep, x);
      }
    }
  }

  /** One slot: what it depends on is subscribed to, and then enabled. */
  lemma SparingSlot(s: State, r: State, t: State, u: State, root: Id, i: nat)
    requires Sparing(s, r, root) && Frugal(r, t) && SlotCounted(r, t, root, i)
    requires Sparing(t, u, Dep(r.mods[root], i))
    ensures Sparing(s, u, root)
  {
    SparingFrugal(s, r, t, root);
    SparingDep(s, t, u, root, i, Dep(r.mods[root], i));
  }

  lemma StopSparing(s: State, t: State, id: Id)
    requires id in t.mods && Sparing(s, t, id)
    ensures Sparing(s, StopEnabling(t, id), id)
  {
    var u := StopEnabling(t, id);
    forall x, j: nat, d | Edge(t, x, j, d) ensures Edge(u, x, j, d) {}
    forall x | Enabled(u, x) ensures Enabled(t, x) {}
    SparingFrugal(s, t, u, id);
  }

  /** A module that is given its dependencies had none before. */
  lemma InitialiseFrugal(s: State, id: Id, deps: seq<string>, factory: Factory)
    requires id in s.mods && s.mods[id].depMaps == []
    ensures Frugal(s, Initialise(s, id, deps, factory))
  {
    var t := Initialise(s, id, deps, factory);
    forall x, j: nat, d | Edge(s, x, j, d) ensures Edge(t, x, j, d) {}
    forall x | Enabled(t, x) ensures Enabled(s, x) {}
  }

  lemma FrugalSparing(s: State, t: State, u: State, root: Id)
    requires Frugal(s, t) && Sparing(t, u, root)
    ensures Sparing(s, u, root)
  {
    EdgesGrowOn(s, t, u);
    forall x | Enabled(u, x) && !Enabled(s, x) ensures Reaches(u, root, x) {
      assert !Enabled(t, x);
    }
  }

  // ---- Between calls ---------------------------------------------------------------------------

  /** What enabling adds on behalf of a `require` call, or of a module that is wanted, is wanted. */
  lemma WantedGrows(s: State, t: State, root: Id)
    requires Wanted(s) && Sparing(s, t, root) && (root.Req? || Enabled(s, root))
    ensures Wanted(t)
  {
    forall x | Enabled(t, x) ensures exists call: Id :: call.Req? && Reaches(t, call, x) {
      if Enabled(s, x) {
        var call: Id :| call.Req? && Reaches(s, call, x);
        ReachesGrows(s, t, call, x);
      } else if !root.Req? {
        var call: Id :| call.Req? && Reaches(s, call, root);
        ReachesGrows(s, t, call, root);
        ReachesOn(t, call, root, x);
      }
    }
  }

  lemma WantedFrugal(s: State, t: State)
    requires Wanted(s) && Frugal(s, t)
    ensures Wanted(t)
  {
    forall x | Enabled(t, x) ensures exists call: Id :: call.Req? && Reaches(t, call, x) {
      var call: Id :| call.Req? && Reaches(s, call, x);
      ReachesGrows(s, t, call, x);
    }
  }

  /** Cycle breaking enables nothing. */
  lemma WantedSteady(s: State, t: State)
    requires Wanted(s) && Steady(s, t)
    ensures Wanted(t)
  {
    var u := t.(forced := s.forced);
    CalmFrugal(s, u);
    WantedFrugal(s, u);
    forall id, i: nat, dep ensures Edge(u, id, i, dep) == Edge(t, id, i, dep) {}
    forall x | Enabled(t, x) ensures exists call: Id :: call.Req? && Reaches(t, call, x) {
      assert Enabled(u, x);
      var call: Id :| call.Req? && Reaches(u, call, x);
      ReachesGrows(u, t, call, x);
    }
  }
}
