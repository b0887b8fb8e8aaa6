/** What the loader promises at the end of any run of `define` and `require` calls. */
module LoaderResults {
  import opened LoaderState
  import opened LoaderCycles
  import opened LoaderNeeds
  import opened ModuleLoader
  import opened Wrappers

  // ---- Every state the loader can be idle in -----------------------------------------------------

  /** A factory runs at most once, and has run exactly when its module is defined. */
  lemma RunsOnce(s: State, id: Id)
    requires Sound(s) && id in s.mods
    ensures multiset(s.runs)[id] == if s.mods[id].defined then 1 else 0
  {
    assert ModOk(s, id, {}, None);
    if id in s.runs {
      var k :| 0 <= k < |s.runs| && s.runs[k] == id;
      assert s.runs == s.runs[..k] + [id] + s.runs[k + 1..];
      assert id !in s.runs[..k] && id !in s.runs[k + 1..];
      assert multiset(s.runs) == multiset(s.runs[..k]) + multiset{id} + multiset(s.runs[k + 1..]);
    }
  }

  /** Outside `enable`, the counter of an enabled module is the number of dependencies it still
      waits for, and each of those is still registered. */
  lemma CountsOpenSlots(s: State, id: Id)
    requires Sound(s) && id in s.mods && s.mods[id].enabled
    ensures s.mods[id].depCount == |set i: nat | i < |s.mods[id].depMaps| && !Satisfied(s.mods[id], i)|
    ensures forall i: nat :: i < |s.mods[id].depMaps| && !Satisfied(s.mods[id], i) ==> Dep(s.mods[id], i) in s.registry
  {
    assert ModOk(s, id, {}, None);
    var m := s.mods[id];
    forall i: nat | i < |m.depMaps| ensures m.depMaps[i].Mapped? && (!Satisfied(m, i) ==> Dep(m, i) in s.registry) {
      assert SlotOk(s, id, i, {});
    }
    assert Open(m) == set i: nat | i < |m.depMaps| && !Satisfied(m, i);
  }

  // ---- Any graph -----------------------------------------------------------------------------------

  /** Along a path from an enabled module every module is enabled. */
  lemma {:induction false} EnabledAlong(s: State, p: seq<Id>, k: nat)
    requires Sound(s) && Path(s, p) && Enabled(s, p[0]) && k < |p|
    ensures Enabled(s, p[k])
  {
    if k > 0 {
      EnabledAlong(s, p, k - 1);
      assert Hop(s, p, k - 1);
      var i: nat :| Edge(s, p[k - 1], i, p[k]);
      assert ModOk(s, p[k - 1], {}, None) && SlotOk(s, p[k - 1], i, {});
    }
  }

  /** The loader is lazy: what it has enabled is exactly what its `require` calls depend on. */
  lemma EnabledExactly(s: State, id: Id)
    requires Sound(s) && Wanted(s)
    ensures Enabled(s, id) <==> exists call: Id :: call.Req? && call in s.mods && Reaches(s, call, id)
  {
    if Enabled(s, id) {
      var call: Id :| call.Req? && Reaches(s, call, id);
      var p :| Path(s, p) && p[0] == call && p[|p| - 1] == id;
      if |p| > 1 {
        assert Hop(s, p, 0);
        var i: nat :| Edge(s, p[0], i, p[1]);
      }
      assert call in s.mods;
    }
    if call: Id :| call.Req? && call in s.mods && Reaches(s, call, id) {
      var p :| Path(s, p) && p[0] == call && p[|p| - 1] == id;
      assert s.mods[call].inited;
      EnabledAlong(s, p, |p| - 1);
    }
  }

  /** Neither is a factory run, nor a script asked for, that no `require` call depends on. */
  lemma OnlyNeeded(s: State, id: Id)
    requires Sound(s) && Wanted(s) && id in s.mods && (s.mods[id].fetched || id in s.runs)
    ensures exists call: Id :: call.Req? && call in s.mods && Reaches(s, call, id)
  {
    assert ModOk(s, id, {}, None);
    EnabledExactly(s, id);
  }

  /** An export is the factory's result for the dependencies' exports, in their order; a slot
      satisfied by force stands for the missing export with undefined. */
  lemma ExportApplied(s: State, id: Id)
    requires Sound(s) && id in s.mods && s.mods[id].defined
    ensures var m := s.mods[id];
      && m.exports == m.factory(m.depExports) && |m.depExports| == |m.depMaps|
      && forall i: nat {:trigger m.depExports[i]} :: i < |m.depMaps| ==>
           if Listener(id, i) in s.forced then m.depExports[i] == Undefined
           else Dep(m, i) in s.mods && s.mods[Dep(m, i)].defined && m.depExports[i] == s.mods[Dep(m, i)].exports
  {
    var m := s.mods[id];
    assert ModOk(s, id, {}, None);
    assert Open(m) == {};
    forall i: nat | i < |m.depMaps|
      ensures if Listener(id, i) in s.forced then m.depExports[i] == Undefined
              else Dep(m, i) in s.mods && s.mods[Dep(m, i)].defined && m.depExports[i] == s.mods[Dep(m, i)].exports
    {
      assert SlotOk(s, id, i, {}) && i !in Open(m);
      if Dep(m, i) in s.mods { assert ModOk(s, Dep(m, i), {}, None); }
    }
  }

  /** Along a path from a defined module every module is defined. */
  lemma {:induction false} DefinedAlong(s: State, p: seq<Id>, k: nat)
    requires Sound(s) && Backed(s, {}) && Path(s, p) && p[0] in s.mods && s.mods[p[0]].defined && k < |p|
    ensures p[k] in s.mods && s.mods[p[k]].defined
  {
    if k > 0 {
      DefinedAlong(s, p, k - 1);
      assert Hop(s, p, k - 1);
      var i: nat :| Edge(s, p[k - 1], i, p[k]);
      ExportApplied(s, p[k - 1]);
      assert ModOk(s, p[k - 1], {}, None);
      assert s.mods[p[k - 1]].depExports[i] == s.mods[p[k - 1]].depExports[i];
      if Listener(p[k - 1], i) in s.forced { assert BackedSlot(s, Listener(p[k - 1], i), {}); }
    }
  }

  /** Once the `require` calls have run, so has every module they depend on, in a cycle or not. */
  lemma AllDefined(s: State, id: Id)
    requires Sound(s) && Wanted(s) && Backed(s, {}) && RequiresDone(s) && Enabled(s, id)
    ensures s.mods[id].defined
  {
    EnabledExactly(s, id);
    var call: Id :| call.Req? && call in s.mods && Reaches(s, call, id);
    var p :| Path(s, p) && p[0] == call && p[|p| - 1] == id;
    assert s.mods[call].defined;
    DefinedAlong(s, p, |p| - 1);
  }

  // ---- Acyclic graphs ----------------------------------------------------------------------------

  /** `rank` falls along every counted dependency. */
  ghost predicate Acyclic(s: State, rank: map<Id, nat>) {
    forall id, i: nat, dep {:trigger Edge(s, id, i, dep)} ::
      Edge(s, id, i, dep) ==> id in rank && dep in rank && rank[dep] < rank[id]
  }

  lemma {:induction false} RankFalls(s: State, rank: map<Id, nat>, p: seq<Id>)
    requires Acyclic(s, rank) && Path(s, p) && |p| > 1
    ensures p[0] in rank && p[|p| - 1] in rank && rank[p[|p| - 1]] < rank[p[0]]
  {
    assert Hop(s, p, |p| - 2);
    var i: nat :| Edge(s, p[|p| - 2], i, p[|p| - 1]);
    if |p| > 2 {
      var q := p[..|p| - 1];
      forall k: nat ensures Hop(s, q, k) { assert Hop(s, p, k); }
      RankFalls(s, rank, q);
    }
  }

  /** On an acyclic graph no dependency is ever satisfied by force. */
  lemma NeverForced(s: State, rank: map<Id, nat>)
    requires Sound(s) && Acyclic(s, rank)
    ensures s.forced == {}
  {
    forall l | l in s.forced ensures false {
      var dep := Dep(s.mods[l.owner], l.slot);
      assert ClosesCycle(s, l) && Edge(s, l.owner, l.slot, dep);
      var p :| Path(s, p) && p[0] == dep && p[|p| - 1] == l.owner;
      if |p| > 1 { RankFalls(s, rank, p); }
    }
  }

  /** On an acyclic graph factories run in topological order. */
  lemma TopologicalOrder(s: State, rank: map<Id, nat>, p: nat, i: nat)
    requires Sound(s) && Acyclic(s, rank) && p < |s.runs| && i < |s.mods[s.runs[p]].depMaps|
    ensures Dep(s.mods[s.runs[p]], i) in s.runs[..p]
  {
    NeverForced(s, rank);
    assert Ordered(s, p);
  }

  /** On an acyclic graph, once no enabled module lacks its factory, every enabled module is defined. */
  lemma {:induction false} EnabledDefined(s: State, rank: map<Id, nat>, id: Id)
    requires Sound(s) && Acyclic(s, rank) && AllReady(s) && id in s.mods && s.mods[id].enabled
    ensures s.mods[id].defined
    decreases if id in rank then rank[id] else 0
  {
    assert ModOk(s, id, {}, None);
    var m := s.mods[id];
    if !m.defined {
      assert Open(m) != {};
      var i: nat :| i in Open(m);
      assert SlotOk(s, id, i, {});
      var dep := Dep(m, i);
      assert Edge(s, id, i, dep);
      assert ModOk(s, dep, {}, None);
      EnabledDefined(s, rank, dep);
    }
  }

  // ---- Values ------------------------------------------------------------------------------------

  /** What a module's export means: its factory applied to its dependencies' exports. */
  ghost function Meaning(s: State, rank: map<Id, nat>, id: Id): Export
    requires Acyclic(s, rank) && id in s.mods
    decreases if id in rank then rank[id] else 0
  {
    var m := s.mods[id];
    m.factory(seq(|m.depMaps|, i requires 0 <= i < |m.depMaps| => Argument(s, rank, id, i)))
  }

  ghost function Argument(s: State, rank: map<Id, nat>, id: Id, i: nat): Export
    requires Acyclic(s, rank) && id in s.mods && i < |s.mods[id].depMaps|
    decreases if id in rank then rank[id] else 0, 0
  {
    var dep := Dep(s.mods[id], i);
    if Edge(s, id, i, dep) && dep in s.mods then Meaning(s, rank, dep) else Undefined
  }

  /** Every export is what its module means, whatever the order the scripts arrived in. */
  lemma {:induction false} ExportsMean(s: State, rank: map<Id, nat>, id: Id)
    requires Sound(s) && Acyclic(s, rank) && id in s.mods && s.mods[id].defined
    ensures s.mods[id].exports == Meaning(s, rank, id)
    decreases if id in rank then rank[id] else 0
  {
    assert ModOk(s, id, {}, None);
    NeverForced(s, rank);
    var m := s.mods[id];
    var args := seq(|m.depMaps|, i requires 0 <= i < |m.depMaps| => Argument(s, rank, id, i));
    forall i: nat | i < |m.depMaps| ensures m.depExports[i] == args[i] {
      assert SlotOk(s, id, i, {});
      assert m.depMatched[i] by { assert i !in Open(m); }
      var dep := Dep(m, i);
      assert ModOk(s, dep, {}, None) && Edge(s, id, i, dep);
      ExportsMean(s, rank, dep);
    }
    assert m.depExports == args;
  }

  // ---- Whole runs --------------------------------------------------------------------------------

  datatype Command =
    | Define(name: string, deps: seq<string>, factory: Factory)
    | Require(deps: seq<string>, factory: Factory)
    | Loaded

  /** The script calls `define` for `name` at `k` and not before. */
  ghost predicate FirstDefinition(script: seq<Command>, k: nat) {
    && k < |script| && script[k].Define?
    && forall j :: 0 <= j < k ==> !(script[j].Define? && script[j].name == script[k].name)
  }

  ghost predicate Loads(s: State, script: seq<Command>) {
    && (forall k: nat {:trigger FirstDefinition(script, k)} :: FirstDefinition(script, k) ==>
          Declared(s, Def(script[k].name), script[k].deps, script[k].factory))
    && (forall name {:trigger Def(name)} :: Settled(s, Def(name)) ==>
          exists k: nat :: k < |script| && script[k].Define? && script[k].name == name)
  }

  lemma DeclaredPersists(s: State, t: State, news: set<Id>, id: Id, deps: seq<string>, factory: Factory)
    requires Declared(s, id, deps, factory) && Persists(s, t, news)
    ensures Declared(t, id, deps, factory)
  {
    assert id in SettledIds(s) && id in SettledIds(t);
    assert SameProgram(s.mods[id], t.mods[id]);
    forall i | 0 <= i < |deps| ensures t.mods[id].depMaps[i].name == deps[i] {
      assert s.mods[id].depMaps[i].name == t.mods[id].depMaps[i].name;
    }
  }

  lemma LoadsMore(s: State, t: State, script: seq<Command>, c: Command, news: set<Id>)
    requires Loads(s, script) && Persists(s, t, news)
    requires if c.Define? then Defines(s, t, Def(c.name), c.deps, c.factory) && news == {Def(c.name)}
             else forall id :: id in news ==> id.Req?
    ensures Loads(t, script + [c])
  {
    var longer := script + [c];
    forall k: nat | FirstDefinition(longer, k)
      ensures Declared(t, Def(longer[k].name), longer[k].deps, longer[k].factory)
    {
      forall j | 0 <= j < k ensures !(script[j].Define? && script[j].name == longer[k].name) {
        assert longer[j] == script[j];
      }
      if k < |script| {
        assert FirstDefinition(script, k);
        DeclaredPersists(s, t, news, Def(script[k].name), script[k].deps, script[k].factory);
      } else {
        assert !Settled(s, Def(c.name));
      }
    }
    forall name | Settled(t, Def(name))
      ensures exists k: nat :: k < |longer| && longer[k].Define? && longer[k].name == name
    {
      assert Def(name) in SettledIds(t);
      if Def(name) in SettledIds(s) {
        assert Settled(s, Def(name));
        var k: nat :| k < |script| && script[k].Define? && script[k].name == name;
        assert longer[k] == script[k];
      } else {
        assert longer[|script|] == c && c.Define? && c.name == name;
      }
    }
  }

  // ---- The order of arrival ----------------------------------------------------------------------

  /** Wherever both scripts define a name, their first definitions of it are the same. */
  ghost predicate SameDefinitions(a: seq<Command>, b: seq<Command>) {
    forall k: nat, j: nat {:trigger FirstDefinition(a, k), FirstDefinition(b, j)} ::
      FirstDefinition(a, k) && FirstDefinition(b, j) && a[k].name == b[j].name ==>
        a[k].deps == b[j].deps && a[k].factory == b[j].factory
  }

  lemma {:induction false} FirstOf(script: seq<Command>, name: string, k: nat) returns (first: nat)
    requires k < |script| && script[k].Define? && script[k].name == name
    ensures FirstDefinition(script, first) && script[first].name == name
    decreases k
  {
    if j :| 0 <= j < k && script[j].Define? && script[j].name == name {
      first := FirstOf(script, name, j);
    } else {
      first := k;
    }
  }

  /** A module that both have defined has the same factory and dependencies in both. */
  lemma SamePrograms(s: State, t: State, a: seq<Command>, b: seq<Command>, name: string)
    requires Sound(s) && Sound(t) && Loads(s, a) && Loads(t, b) && SameDefinitions(a, b)
    requires Def(name) in s.mods && s.mods[Def(name)].defined && Def(name) in t.mods && t.mods[Def(name)].defined
    ensures SameProgram(s.mods[Def(name)], t.mods[Def(name)])
  {
    assert ModOk(s, Def(name), {}, None) && ModOk(t, Def(name), {}, None);
    assert Settled(s, Def(name)) && Settled(t, Def(name));
    var k: nat :| k < |a| && a[k].Define? && a[k].name == name;
    var j: nat :| j < |b| && b[j].Define? && b[j].name == name;
    k := FirstOf(a, name, k);
    j := FirstOf(b, name, j);
    assert Declared(s, Def(name), a[k].deps, a[k].factory) && Declared(t, Def(name), b[j].deps, b[j].factory);
  }

  /** Two loads, by any scripts that define the names alike, give a module the same export,
      whatever the order in which the definitions arrive and the modules are required. */
  lemma {:induction false} OrderOfArrivalIrrelevant(s: State, t: State, a: seq<Command>, b: seq<Command>,
      rank: map<Id, nat>, name: string)
    requires Sound(s) && Sound(t) && Acyclic(s, rank) && Acyclic(t, rank)
    requires Loads(s, a) && Loads(t, b) && SameDefinitions(a, b)
    requires var id := Def(name); id in s.mods && s.mods[id].defined && id in t.mods && t.mods[id].defined
    ensures s.mods[Def(name)].exports == t.mods[Def(name)].exports
    decreases if Def(name) in rank then rank[Def(name)] else 0
  {
    var id := Def(name);
    assert ModOk(s, id, {}, None) && ModOk(t, id, {}, None);
    NeverForced(s, rank);
    NeverForced(t, rank);
    var m, n := s.mods[id], t.mods[id];
    SamePrograms(s, t, a, b, name);
    forall i: nat | i < |m.depMaps| ensures m.depExports[i] == n.depExports[i] {
      assert SlotOk(s, id, i, {}) && SlotOk(t, id, i, {});
      assert m.depMatched[i] && n.depMatched[i] by { assert i !in Open(m) && i !in Open(n); }
      assert m.depMaps[i].name == n.depMaps[i].name;
      var dep := Dep(m, i);
      assert ModOk(s, dep, {}, None) && ModOk(t, dep, {}, None) && Edge(s, id, i, dep);
      OrderOfArrivalIrrelevant(s, t, a, b, rank, m.depMaps[i].name);
    }
    assert m.depExports == n.depExports;
  }

  /** Whatever the script, the loader ends idle and sound with the first definition of each
      name in force and nothing enabled but what its `require` calls depend on; after a
      `require` or a script load, either some enabled module is still waiting for its script
      or every `require` has run, and with it every module it depends on. */
  method Run(script: seq<Command>) returns (c: Context)
    ensures c.Idle() && Loads(c.state, script)
    ensures forall id {:trigger Enabled(c.state, id)} ::
      Enabled(c.state, id) <==> exists call: Id :: call.Req? && call in c.state.mods && Reaches(c.state, call, id)
    ensures script != [] && !script[|script| - 1].Define? && AllReady(c.state) ==>
      RequiresDone(c.state) && forall id :: Enabled(c.state, id) ==> c.state.mods[id].defined
  {
    c := new Context();
    for k := 0 to |script|
      invariant fresh(c) && fresh(c.modules) && c.Idle() && Loads(c.state, script[..k])
      invariant k > 0 && !script[k - 1].Define? && AllReady(c.state) ==> RequiresDone(c.state)
    {
      Step(c, script[k], script[..k]);
      assert script[..k] + [script[k]] == script[..k + 1];
    }
    assert script[..|script|] == script;
    forall id ensures Enabled(c.state, id) <==>
      exists call: Id :: call.Req? && call in c.state.mods && Reaches(c.state, call, id)
    {
      EnabledExactly(c.state, id);
    }
    forall id | RequiresDone(c.state) && Enabled(c.state, id) ensures c.state.mods[id].defined {
      AllDefined(c.state, id);
    }
  }

  method Step(c: Context, command: Command, ghost script: seq<Command>)
    requires c.Idle() && Loads(c.state, script)
    modifies c, c.modules
    ensures c.Idle() && c.Kept() && Loads(c.state, script + [command])
    ensures !command.Define? && AllReady(c.state) ==> RequiresDone(c.state)
  {
    ghost var s := c.state;
    match command {
      case Define(name, deps, factory) =>
        c.DefineCall(name, deps, factory);
        LoadsMore(s, c.state, script, command, {Def(name)});
      case Require(deps, factory) =>
        c.Require(deps, factory);
        LoadsMore(s, c.state, script, command, {Req(c.requireCounter)});
      case Loaded =>
        c.CheckLoaded();
        SteadyPersists(s, c.state);
        LoadsMore(s, c.state, script, command, {});
    }
  }
}
