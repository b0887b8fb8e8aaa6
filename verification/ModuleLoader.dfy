/** The module loader's objects: modules that count down their unsatisfied dependencies and
    the context that enables, defines and announces them. `View()` gives the value of
    LoaderState that the objects stand for; every method is proved against it. */
module ModuleLoader {
  import opened LoaderState
  import opened LoaderCycles
  import opened LoaderNeeds
  import opened Wrappers

  /** The closure `enable` registers: it stores the export in `slot` of `target` and checks it. */
  datatype Callback = Callback(target: Module, slot: nat)

  class Module {
    const id: Id
    var depMaps: seq<DepMap>
    var depMatched: seq<bool>
    var depExports: seq<Export>
    var depCount: int
    var factory: Factory
    var listeners: seq<Callback>
    var inited: bool
    var fetched: bool
    var enabled: bool
    var enabling: bool
    var defining: bool
    var defined: bool
    var defineEmitted: bool
    var exports: Export

    constructor (id: Id)
      ensures this.id == id && View() == FreshMod() && !defining && listeners == []
    {
      this.id := id;
      depMaps, depMatched, depExports, depCount := [], [], [], 0;
      factory := FreshMod().factory;
      listeners := [];
      inited, fetched, enabled, enabling := false, false, false, false;
      defining, defined, defineEmitted := false, false, false;
      exports := Undefined;
    }

    ghost function View(): Mod
      reads this
    {
      Mod(depMaps, depMatched, depExports, depCount, factory, Names(listeners),
          inited, fetched, enabled, enabling, defined, defineEmitted, exports)
    }

    /** Calls the factory with the exports gathered so far. */
    method Execute()
      modifies this`exports, this`defined
      ensures View() == Executed(old(View())) && exports == Executed(old(View())).exports
    {
      exports := factory(depExports);
      defined := true;
    }

    method Fill(deps: seq<string>, factory: Factory)
      modifies this`depMaps, this`depMatched, this`depExports, this`factory, this`inited
      ensures View() == Filled(old(View()), deps, factory)
    {
      depMaps := seq(|deps|, i requires 0 <= i < |deps| => Raw(deps[i]));
      depMatched, depExports := seq(|deps|, _ => false), seq(|deps|, _ => Undefined);
      this.factory, inited := factory, true;
    }

    method On(cb: Callback)
      modifies this`listeners
      ensures listeners == old(listeners) + [cb]
      ensures View() == old(View()).(listeners := old(View()).listeners + [Name(cb)])
    {
      listeners := listeners + [cb];
      assert Names(listeners) == Names(old(listeners)) + [Name(cb)];
    }

    method DefineDep(i: nat, value: Export)
      requires i < |depMatched| && i < |depExports|
      modifies this`depMatched, this`depCount, this`depExports
      ensures View() == Matched(old(View()), i, value)
    {
      if !depMatched[i] {
        depMatched := depMatched[i := true];
        depCount := depCount - 1;
        depExports := depExports[i := value];
      }
    }
  }

  function Name(cb: Callback): Listener { Listener(cb.target.id, cb.slot) }

  function Names(cbs: seq<Callback>): seq<Listener> {
    seq(|cbs|, i requires 0 <= i < |cbs| => Name(cbs[i]))
  }

  /** Reading a property that may be missing. */
  function Lookup(table: map<Id, Export>, id: Id): Export {
    if id in table then table[id] else Undefined
  }

  ghost function Ids(ms: seq<Module>): set<Id> { set m | m in ms :: m.id }

  lemma IdsMore(ms: seq<Module>, k: nat)
    requires k < |ms|
    ensures Ids(ms[..k + 1]) == Ids(ms[..k]) + {ms[k].id}
  {
    assert ms[..k + 1] == ms[..k] + [ms[k]];
  }

  class Context {
    var registry: map<Id, Module>
    var enabledRegistry: map<Id, Module>
    var defined: map<Id, Export>
    var requireCounter: nat
    ghost var state: State
    ghost var created: map<Id, Module>
    ghost var modules: set<Module>

    ghost predicate Known(m: Module)
      reads this`created, this`modules
    {
      m in modules && m.id in created && created[m.id] == m
    }

    /** The object `m` holds what `state` says about it. */
    ghost predicate Good(m: Module)
      reads this`created, this`modules, this`state, m
    {
      && Known(m) && m.id in state.mods && !m.defining && m.View() == state.mods[m.id]
      && forall cb :: cb in m.listeners ==> Known(cb.target)
    }

    ghost predicate Valid()
      reads this, modules
    {
      && (forall m {:trigger Good(m)} :: m in modules ==> Good(m))
      && created.Keys == state.mods.Keys
      && state.registry == registry.Keys
      && (forall id {:trigger registry[id]} :: id in registry ==> registry[id].id == id && Known(registry[id]))
      && state.enabledRegistry == enabledRegistry.Keys
      && (forall id {:trigger enabledRegistry[id]} :: id in enabledRegistry
            ==> enabledRegistry[id].id == id && Known(enabledRegistry[id]))
      && state.defined == defined
    }

    /** Objects are never replaced or forgotten; only new ones are added. */
    twostate predicate Kept()
      reads this`modules
    {
      && old(modules) <= modules
      && (forall m {:trigger m in modules} :: m in modules && m !in old(modules) ==> fresh(m))
    }

    // ---- Single updates ----------------------------------------------------------------------

    method Store(cb: Callback, value: Export)
      requires Valid() && Known(cb.target) && cb.slot < |cb.target.depMatched| && cb.slot < |cb.target.depExports|
      requires Good(cb.target)
      modifies modules, this`state
      ensures modules == old(modules) && created == old(created)
      ensures Valid() && state == Match(old(state), cb.target.id, cb.slot, value)
    {
      cb.target.DefineDep(cb.slot, value);
      state := Match(state, cb.target.id, cb.slot, value);
      forall m | m in modules ensures Good(m) {
        assert old(Good(m));
      }
    }

    method Load(m: Module)
      requires Valid() && Known(m)
      modifies modules, this`state
      ensures modules == old(modules) && created == old(created)
      ensures Valid() && state == Fetch(old(state), m.id)
    {
      assert Good(m);
      m.fetched := true;
      state := Fetch(state, m.id);
      forall x | x in modules ensures Good(x) {
        assert old(Good(x));
      }
    }

    method CleanRegistry(id: Id)
      requires Valid()
      modifies this`registry, this`enabledRegistry, this`state
      ensures Valid() && state == Clean(old(state), id)
    {
      registry := registry - {id};
      enabledRegistry := enabledRegistry - {id};
      state := Clean(state, id);
      forall x | x in modules ensures Good(x) {
        assert old(Good(x));
      }
    }

    /** Runs a module's factory and records its export. */
    method Run(m: Module)
      requires Valid() && Known(m)
      modifies this`defined, this`state, modules
      ensures modules == old(modules) && created == old(created)
      ensures Valid() && state == Execute(old(state), m.id)
    {
      assert Good(m);
      m.Execute();
      if m.id.Def? {
        defined := defined[m.id := m.exports];
      }
      state := Execute(state, m.id);
      forall x | x in modules ensures Good(x) {
        assert old(Good(x));
      }
    }

    method DefineModule(m: Module)
      requires Valid() && Known(m)
      modifies this`defined, this`registry, this`enabledRegistry, this`state, modules
      ensures modules == old(modules) && created == old(created)
      ensures Valid() && Good(m) && state == Define(old(state), m.id)
    {
      Run(m);
      CleanRegistry(m.id);
      assert Good(m);
    }

    method Announcing(m: Module)
      requires Valid() && Known(m)
      modifies modules, this`state
      ensures modules == old(modules) && created == old(created)
      ensures Valid() && state == Announce(old(state), m.id)
    {
      assert Good(m);
      m.defineEmitted := true;
      state := Announce(state, m.id);
      forall x | x in modules ensures Good(x) {
        assert old(Good(x));
      }
    }

    // ---- check, emit and the 'defined' callbacks -------------------------------------------

    method Deliver(cb: Callback, value: Export, ghost dep: Id, ghost owed: set<Listener>)
      requires Valid() && Known(cb.target) && Inv(state, owed + {Name(cb)}, None)
      requires Edge(state, cb.target.id, cb.slot, dep) && dep in defined && value == defined[dep]
      modifies this`registry, this`enabledRegistry, this`defined, this`state, modules
      ensures modules == old(modules) && created == old(created)
      ensures Valid() && Inv(state, owed, None) && Calm(old(state), state)
      decreases |state.registry|, 2
    {
      ghost var s := state;
      assert Good(cb.target) && ModOk(s, cb.target.id, owed + {Name(cb)}, None);
      DeliverStep(s, dep, Name(cb), owed);
      MatchCalm(s, cb.target.id, cb.slot, value, owed + {Name(cb)}, None);
      Store(cb, value);
      ghost var t := state;
      Check(cb.target, owed);
      CalmTransitive(s, t, state);
    }

    method Emit(m: Module, value: Export, ghost owed: set<Listener>)
      requires Valid() && Known(m) && state.mods[m.id].defined && (m.id in defined ==> value == defined[m.id])
      requires Inv(state, owed + Range(state.mods[m.id].listeners), None)
      modifies this`registry, this`enabledRegistry, this`defined, this`state, modules
      ensures modules == old(modules) && created == old(created)
      ensures Valid() && Inv(state, owed, None) && Calm(old(state), state)
      decreases |state.registry|, 5
    {
      var k := 0;
      ghost var s, ls := state, state.mods[m.id].listeners;
      EmitStarts(m, value, owed);
      while k < |m.listeners|
        invariant Emitting(m, k, ls, value, owed, s) && modules == old(modules) && created == old(created)
      {
        EmitNext(m, k, ls, value, owed, s);
        k := k + 1;
      }
      NoneLeft(owed, ls);
    }

    /** Listeners from `k` on are still to be told; `s` is the state the announcement began in. */
    ghost predicate Emitting(m: Module, k: nat, ls: seq<Listener>, value: Export, owed: set<Listener>, s: State)
      reads this, modules, m
    {
      && Valid() && Known(m) && k <= |m.listeners| == |ls| && Names(m.listeners) == ls
      && m.id in s.mods && s.mods[m.id].defined && s.mods[m.id].listeners == ls && state.mods[m.id] == s.mods[m.id]
      && (m.id in defined ==> value == defined[m.id])
      && Inv(state, owed + Range(ls[k..]), None) && Calm(s, state)
    }

    lemma EmitStarts(m: Module, value: Export, owed: set<Listener>)
      requires Valid() && Known(m) && state.mods[m.id].defined && (m.id in defined ==> value == defined[m.id])
      requires Inv(state, owed + Range(state.mods[m.id].listeners), None)
      ensures Emitting(m, 0, state.mods[m.id].listeners, value, owed, state)
    {
      assert Good(m);
      assert state.mods[m.id].listeners[0..] == state.mods[m.id].listeners;
    }

    method EmitNext(m: Module, k: nat, ghost ls: seq<Listener>, value: Export, ghost owed: set<Listener>,
        ghost s: State)
      requires k < |m.listeners| && Emitting(m, k, ls, value, owed, s)
      modifies this`registry, this`enabledRegistry, this`defined, this`state, modules
      ensures modules == old(modules) && created == old(created) && Emitting(m, k + 1, ls, value, owed, s)
      decreases |state.registry|, 4
    {
      ghost var t := state;
      EmitOne(m, k, value, owed);
      CalmTransitive(s, t, state);
    }

    /** One turn of the loop in `Emit`. */
    method EmitOne(m: Module, k: nat, value: Export, ghost owed: set<Listener>)
      requires Valid() && Known(m) && state.mods[m.id].defined && (m.id in defined ==> value == defined[m.id])
      requires k < |m.listeners| && Names(m.listeners) == state.mods[m.id].listeners
      requires Inv(state, owed + Range(Names(m.listeners)[k..]), None)
      modifies this`registry, this`enabledRegistry, this`defined, this`state, modules
      ensures modules == old(modules) && created == old(created)
      ensures Valid() && Known(m) && Names(m.listeners) == old(Names(m.listeners))
        && state.mods[m.id] == old(state.mods[m.id])
      ensures m.id in old(defined) <==> m.id in defined
      ensures m.id in defined ==> defined[m.id] == old(defined)[m.id]
      ensures Inv(state, owed + Range(old(Names(m.listeners))[k + 1..]), None) && Calm(old(state), state)
      decreases |state.registry|, 3
    {
      var cb := m.listeners[k];
      ghost var s, ls := state, Names(m.listeners);
      ghost var rest := owed + Range(ls[k + 1..]);
      assert owed + Range(ls[k..]) == rest + {Name(cb)} by {
        assert ls[k..] == [ls[k]] + ls[k + 1..];
      }
      assert Good(m) && ModOk(s, m.id, rest + {Name(cb)}, None);
      assert ls[k] == Name(cb) && ls[k] in s.mods[m.id].listeners;
      Deliver(cb, value, m.id, rest);
      assert Forward(s.mods[m.id], state.mods[m.id]);
      assert Good(m) && ModOk(state, m.id, rest, None);
    }

    method Check(m: Module, ghost owed: set<Listener>)
      requires Valid() && Known(m) && Inv(state, owed, Some(m.id))
      modifies this`registry, this`enabledRegistry, this`defined, this`state, modules
      ensures modules == old(modules) && created == old(created)
      ensures Valid() && Inv(state, owed, None) && Calm(old(state), state)
      decreases |state.registry|, 1
    {
      ghost var s := state;
      assert Good(m) && ModOk(s, m.id, owed, Some(m.id));
      if !m.enabled || m.enabling {
        ExemptionEnds(s, owed, m.id);
      } else if !m.inited {
        FetchStep(s, m.id, owed);
        FetchCalm(s, m.id, owed);
        Load(m);
      } else if !m.defining {
        if m.depCount < 1 && !m.defined {
          Complete(m, owed);
        } else {
          ExemptionEnds(s, owed, m.id);
        }
      }
    }

    method Complete(m: Module, ghost owed: set<Listener>)
      requires Valid() && Known(m) && Inv(state, owed, Some(m.id)) && m.id in state.registry
      requires var r := state.mods[m.id]; r.inited && r.enabled && !r.enabling && r.depCount < 1
      modifies this`registry, this`enabledRegistry, this`defined, this`state, modules
      ensures modules == old(modules) && created == old(created)
      ensures Valid() && Inv(state, owed, None) && Calm(old(state), state)
      decreases |state.registry|, 0
    {
      ghost var s := state;
      assert ModOk(s, m.id, owed, Some(m.id));
      DefineKeeps(s, m.id, owed);
      DefineCalm(s, m.id, owed);
      DefineModule(m);
      Announcing(m);
      assert |state.registry| < |s.registry|;
      EmitDefined(m, s, owed);
    }

    method EmitDefined(m: Module, ghost s: State, ghost owed: set<Listener>)
      requires Valid() && Known(m) && m.id in s.mods && state == DefineAndAnnounce(s, m.id)
      requires Inv(state, owed + Range(state.mods[m.id].listeners), None) && Calm(s, state)
      modifies this`registry, this`enabledRegistry, this`defined, this`state, modules
      ensures modules == old(modules) && created == old(created)
      ensures Valid() && Inv(state, owed, None) && Calm(s, state)
      decreases |state.registry|, 6
    {
      ghost var t := state;
      assert Good(m) && ModOk(t, m.id, owed + Range(t.mods[m.id].listeners), None);
      Emit(m, m.exports, owed);
      CalmTransitive(s, t, state);
    }

    // ---- enable and on ---------------------------------------------------------------------

    /** Makes a new object known. */
    ghost method Adopt(m: Module)
      requires Valid() && m !in modules && m.id !in state.mods && m.View() == FreshMod() && !m.defining
        && m.listeners == []
      modifies this`created, this`modules, this`state
      ensures Valid() && Known(m) && modules == old(modules) + {m}
      ensures state == old(state).(mods := old(state).mods[m.id := FreshMod()])
    {
      created := created[m.id := m];
      modules := modules + {m};
      state := state.(mods := state.mods[m.id := FreshMod()]);
      assert created.Keys == old(created.Keys) + {m.id};
      forall x | x in modules ensures Good(x) {
        if x != m { assert old(Good(x)); }
      }
    }

    method AddModule(m: Module)
      requires Valid() && m !in modules && m.id !in state.mods && m.View() == FreshMod() && !m.defining
        && m.listeners == []
      modifies this`registry, this`created, this`modules, this`state
      ensures Valid() && Known(m) && state == Create(old(state), m.id)
      ensures modules == old(modules) + {m}
    {
      Adopt(m);
      label adopted:
      registry := registry[m.id := m];
      state := state.(registry := state.registry + {m.id});
      assert registry.Keys == old(registry.Keys) + {m.id};
      forall x | x in modules ensures Good(x) {
        assert old@adopted(Good(x));
      }
    }

    /** The registered module of that id, created if need be. */
    method GetModule(id: Id, ghost owed: set<Listener>) returns (m: Module)
      requires Valid() && Inv(state, owed, None) && (id in state.mods ==> id in registry)
      modifies this`registry, this`created, this`modules, this`state
      ensures Valid() && Kept() && Known(m) && m.id == id && id in registry
      ensures state == if id in old(state).mods then old(state) else Create(old(state), id)
      ensures Inv(state, owed, None)
    {
      if id in registry {
        m := registry[id];
        assert Good(m);
      } else {
        m := new Module(id);
        CreateKeeps(state, id, owed);
        AddModule(m);
      }
    }

    method Attach(d: Module, cb: Callback)
      requires Valid() && Known(d) && Known(cb.target)
      modifies modules, this`state
      ensures modules == old(modules) && created == old(created)
      ensures Valid() && state == Listen(old(state), d.id, Name(cb))
    {
      assert Good(d);
      d.On(cb);
      state := Listen(state, d.id, Name(cb));
      forall x | x in modules ensures Good(x) {
        assert old(Good(x));
      }
    }

    method Register(dep: Id, cb: Callback, ghost owed: set<Listener>)
      requires Valid() && Known(cb.target) && Inv(state, owed + {Name(cb)}, None)
      requires Edge(state, cb.target.id, cb.slot, dep) && dep.Def? && (dep in state.mods ==> dep in registry)
      modifies this`registry, this`created, this`modules, this`state, modules
      ensures Valid() && Kept() && Inv(state, owed, None) && Grows(old(state), state) && dep in state.mods
      ensures state == Listen(if dep in old(state).mods then old(state) else Create(old(state), dep), dep, Name(cb))
    {
      ghost var s := state;
      assert dep in s.mods ==> ModOk(s, dep, owed + {Name(cb)}, None);
      var d := GetModule(dep, owed + {Name(cb)});
      ListenKeeps(state, dep, Name(cb), owed);
      RegisterGrows(s, dep, Name(cb), owed + {Name(cb)});
      assert Good(cb.target);
      Attach(d, cb);
    }

    /** Registers for the 'defined' event of `dep`, or delivers it at once if it has happened. */
    method On(dep: Id, cb: Callback, ghost owed: set<Listener>, ghost u: set<Id>)
      requires Valid() && Known(cb.target) && Inv(state, owed + {Name(cb)}, None) && dep.Def?
      requires Edge(state, cb.target.id, cb.slot, dep) && Bounded(state, u) && dep in u
      modifies this`registry, this`enabledRegistry, this`defined, this`created, this`modules, this`state, modules
      ensures Valid() && Kept() && Inv(state, owed, None) && Grows(old(state), state) && dep in state.mods
      ensures Bounded(state, u) && Frugal(old(state), state)
    {
      ghost var s := state;
      assert dep in s.mods ==> ModOk(s, dep, owed + {Name(cb)}, None);
      if dep in defined {
        Deliver(cb, defined[dep], dep, owed);
        CalmBounded(s, state, u);
        CalmFrugal(s, state);
      } else {
        Register(dep, cb, owed);
        RegisterBounded(s, dep, Name(cb), u);
        ListenFrugal(s, dep, Name(cb));
      }
    }

    method Enabling(m: Module, on: bool)
      requires Valid() && Known(m)
      modifies modules, this`enabledRegistry, this`state
      ensures modules == old(modules) && created == old(created)
      ensures Valid() && state == if on then StartEnabling(old(state), m.id) else StopEnabling(old(state), m.id)
    {
      assert Good(m);
      if on {
        enabledRegistry := enabledRegistry[m.id := m];
        m.enabled, m.enabling := true, true;
        state := StartEnabling(state, m.id);
      } else {
        m.enabling := false;
        state := StopEnabling(state, m.id);
      }
      forall x | x in modules ensures Good(x) {
        assert old(Good(x));
      }
    }

    method Map(m: Module, i: nat)
      requires Valid() && Known(m) && i < |m.depMaps|
      modifies modules, this`state
      ensures modules == old(modules) && created == old(created)
      ensures Valid() && Good(m) && i < |old(state).mods[m.id].depMaps| && state == Subscribe(old(state), m.id, i)
    {
      assert Good(m);
      m.depMaps := m.depMaps[i := Mapped(m.depMaps[i].name)];
      m.depCount := m.depCount + 1;
      state := Subscribe(state, m.id, i);
      forall x | x in modules ensures Good(x) {
        assert old(Good(x));
      }
    }

    /** Turns a dependency that is still a bare string into a counted, subscribed slot. */
    method SubscribeSlot(m: Module, i: nat, ghost u: set<Id>)
      requires Valid() && Known(m) && Inv(state, {}, None) && Bounded(state, u)
      requires m.id in state.registry && state.mods[m.id].enabling && i < |state.mods[m.id].depMaps|
      modifies this`registry, this`enabledRegistry, this`defined, this`created, this`modules, this`state, modules
      ensures Valid() && Kept() && Inv(state, {}, None) && Bounded(state, u) && Grows(old(state), state)
      ensures SlotCounted(old(state), state, m.id, i) && |Unenabled(state, u)| <= |Unenabled(old(state), u)|
      ensures Frugal(old(state), state)
    {
      ghost var s := state;
      assert Good(m) && ModOk(s, m.id, {}, None) && SlotOk(s, m.id, i, {});
      var dep := Def(m.depMaps[i].name);
      if m.depMaps[i].Raw? {
        SubscribeStep(s, m.id, i, {});
        SubscribeBounded(s, m.id, i, u);
        Map(m, i);
        ghost var t := state;
        assert {} + {Name(Callback(m, i))} == {} + {Listener(m.id, i)};
        On(dep, Callback(m, i), {}, u);
        SlotMapped(s, state, m.id, i);
        GrowsTransitive(s, t, state);
        UnenabledShrinks(s, state, u);
        SubscribeFrugal(s, t, m.id, i);
        FrugalOn(s, t, state);
      }
    }

    method EnableDep(dep: Id, ghost u: set<Id>)
      requires Valid() && Inv(state, {}, None) && Bounded(state, u) && dep in state.mods && dep.Def?
      modifies this`registry, this`enabledRegistry, this`defined, this`created, this`modules, this`state, modules
      ensures Valid() && Kept() && Inv(state, {}, None) && Bounded(state, u) && Grows(old(state), state)
      ensures dep in state.mods && state.mods[dep].enabled && Sparing(old(state), state, dep)
      decreases |Unenabled(state, u)|, 1
    {
      assert ModOk(state, dep, {}, None);
      if dep in registry {
        var d := registry[dep];
        assert Good(d);
        if !d.enabled {
          StartEnablingStep(state, dep, {});
          Enable(d, u);
        }
      }
    }

    /** Enters the loop of `Enable`. */
    method BeginEnabling(m: Module, ghost u: set<Id>)
      requires Valid() && Known(m) && Inv(StartEnabling(state, m.id), {}, None) && Bounded(state, u)
      requires m.id in state.registry
      modifies this`enabledRegistry, this`state, modules
      ensures modules == old(modules) && created == old(created)
      ensures Valid() && Good(m) && Midway(old(state), state, m.id, 0, u) && state == StartEnabling(old(state), m.id)
      ensures Sparing(old(state), state, m.id)
    {
      EnablingBounded(state, m.id, u);
      StartSparing(state, m.id);
      Enabling(m, true);
      assert Good(m);
    }

    /** Subscribes to one dependency and enables it, in the loop of `Enable` that began in state `s`. */
    method EnableSlot(m: Module, i: nat, ghost s: State, ghost u: set<Id>)
      requires Valid() && Good(m) && i < |m.depMaps| && Midway(s, state, m.id, i, u) && Sparing(s, state, m.id)
      modifies this`registry, this`enabledRegistry, this`defined, this`created, this`modules, this`state, modules
      ensures Valid() && Kept() && m in modules && Midway(s, state, m.id, i + 1, u) && Sparing(s, state, m.id)
      decreases |Unenabled(state, u)|, 2
    {
      ghost var r := state;
      var dep := Def(m.depMaps[i].name);
      SubscribeSlot(m, i, u);
      ghost var t := state;
      EnableDep(dep, u);
      MidwayStep(s, r, t, state, m.id, i, u);
      SparingSlot(s, r, t, state, m.id, i);
    }

    /** Leaves the loop of `Enable`, which began in state `s`, and checks the module. */
    method FinishEnabling(m: Module, ghost s: State, ghost u: set<Id>)
      requires Valid() && Known(m) && m.id in state.mods && Midway(s, state, m.id, |state.mods[m.id].depMaps|, u)
      requires !s.mods[m.id].enabling && !s.mods[m.id].defined && Sparing(s, state, m.id)
      modifies this`registry, this`enabledRegistry, this`defined, this`state, modules
      ensures modules == old(modules) && created == old(created)
      ensures Valid() && Inv(state, {}, None) && Bounded(state, u) && Grows(s, state)
      ensures m.id in state.mods && state.mods[m.id].enabled && Sparing(s, state, m.id)
    {
      assert ModOk(state, m.id, {}, None);
      StopSparing(s, state, m.id);
      StopEnablingStep(state, m.id, {});
      EnablingGrows(s, state, m.id);
      StopEnablingBounded(state, m.id, u);
      Enabling(m, false);
      ghost var t := state;
      Check(m, {});
      CalmBounded(t, state, u);
      CalmFrugal(t, state);
      SparingFrugal(s, t, state, m.id);
      GrowsTransitive(s, t, state);
      assert Forward(t.mods[m.id], state.mods[m.id]);
    }

    /** One turn of the loop in `Enable`; the set of modules still to be enabled does not grow. */
    method EnableNext(m: Module, i: nat, ghost s: State, ghost u: set<Id>)
      requires Valid() && Good(m) && Midway(s, state, m.id, i, u) && i < |m.depMaps| == |s.mods[m.id].depMaps|
      requires Sparing(s, state, m.id)
      modifies this`registry, this`enabledRegistry, this`defined, this`created, this`modules, this`state, modules
      ensures Valid() && Kept() && Good(m) && Midway(s, state, m.id, i + 1, u) && |m.depMaps| == old(|m.depMaps|)
      ensures Sparing(s, state, m.id)
      decreases |Unenabled(StartEnabling(s, m.id), u)|, 3
    {
      MidwayShrinks(s, state, m.id, i, u);
      EnableSlot(m, i, s, u);
      MidwayShrinks(s, state, m.id, i + 1, u);
      assert Good(m);
    }

    method EnableSlots(m: Module, ghost s: State, ghost u: set<Id>)
      requires Valid() && Good(m) && Midway(s, state, m.id, 0, u) && Sparing(s, state, m.id)
      modifies this`registry, this`enabledRegistry, this`defined, this`created, this`modules, this`state, modules
      ensures Valid() && Kept() && m in modules && m.id in state.mods
      ensures Midway(s, state, m.id, |state.mods[m.id].depMaps|, u) && Sparing(s, state, m.id)
      decreases |Unenabled(StartEnabling(s, m.id), u)|, 4
    {
      ghost var n := |s.mods[m.id].depMaps|;
      MidwayShrinks(s, state, m.id, 0, u);
      var i := 0;
      while i < |m.depMaps|
        invariant 0 <= i <= |m.depMaps| == n
        invariant Valid() && Kept() && Good(m) && Midway(s, state, m.id, i, u) && Sparing(s, state, m.id)
      {
        EnableNext(m, i, s, u);
        i := i + 1;
      }
    }

    method Enable(m: Module, ghost u: set<Id>)
      requires Valid() && Known(m) && Inv(StartEnabling(state, m.id), {}, None) && Bounded(state, u)
      requires m.id in state.registry && !state.mods[m.id].enabling
      modifies this`registry, this`enabledRegistry, this`defined, this`created, this`modules, this`state, modules
      ensures Valid() && Kept() && Inv(state, {}, None) && Bounded(state, u) && Grows(old(state), state)
      ensures m.id in state.mods && state.mods[m.id].enabled && Sparing(old(state), state, m.id)
      decreases |Unenabled(state, u)|, if state.mods[m.id].enabled then 5 else 0
    {
      ghost var s := state;
      assert Good(m) && ModOk(StartEnabling(s, m.id), m.id, {}, None);
      EnablingBounded(s, m.id, u);
      BeginEnabling(m, u);
      EnableSlots(m, s, u);
      assert Good(m);
      FinishEnabling(m, s, u);
    }

    // ---- init, define and require ------------------------------------------------------------

    method Fill(m: Module, deps: seq<string>, factory: Factory)
      requires Valid() && Known(m)
      modifies modules, this`state
      ensures modules == old(modules) && created == old(created)
      ensures Valid() && state == Initialise(old(state), m.id, deps, factory)
    {
      assert Good(m);
      m.Fill(deps, factory);
      state := Initialise(state, m.id, deps, factory);
      forall x | x in modules ensures Good(x) {
        assert old(Good(x));
      }
    }

    /** Gives a module its dependencies and factory, once, and enables or checks it. */
    method Init(m: Module, deps: seq<string>, factory: Factory, enable: bool, ghost u: set<Id>)
      requires Valid() && Known(m) && Inv(state, {}, None) && Bounded(state, u)
      requires !state.mods[m.id].enabling && forall name :: name in deps ==> Def(name) in u
      modifies this`registry, this`enabledRegistry, this`defined, this`created, this`modules, this`state, modules
      ensures Valid() && Kept() && Inv(state, {}, None) && Bounded(state, u)
      ensures old(state).mods[m.id].inited ==> state == old(state)
      ensures !old(state).mods[m.id].inited ==> Grows(Initialise(old(state), m.id, deps, factory), state)
      ensures enable && !old(state).mods[m.id].inited ==> m.id in state.mods && state.mods[m.id].enabled
      ensures if enable || old(state).mods[m.id].enabled then Sparing(old(state), state, m.id)
              else Frugal(old(state), state)
    {
      ghost var s := state;
      assert Good(m) && ModOk(s, m.id, {}, None);
      if m.inited { return; }
      InitialiseStep(s, m.id, deps, factory);
      InitialiseBounded(s, m.id, deps, factory, u);
      InitialiseFrugal(s, m.id, deps, factory);
      Fill(m, deps, factory);
      ghost var t := state;
      assert Good(m);
      if enable || m.enabled {
        if !m.enabled { StartEnablingStep(state, m.id, {}); }
        Enable(m, u);
        FrugalSparing(s, t, state, m.id);
      } else {
        ExemptionStarts(state, m.id);
        Check(m, {});
        CalmBounded(t, state, u);
        CalmFrugal(t, state);
        FrugalOn(s, t, state);
      }
    }

    // ---- breakCycle and checkLoaded --------------------------------------------------------

    /** Satisfies a slot without waiting for its dependency. */
    method ForceSlot(m: Module, i: nat)
      requires Valid() && Known(m) && i < |m.depMaps| == |m.depMatched| == |m.depExports|
      requires Def(m.depMaps[i].name) !in defined
      modifies modules, this`state
      ensures modules == old(modules) && created == old(created)
      ensures Valid() && i < |old(state).mods[m.id].depMatched| && i < |old(state).mods[m.id].depExports|
      ensures state == Force(old(state), m.id, i)
    {
      assert Good(m);
      var dep := Def(m.depMaps[i].name);
      m.DefineDep(i, Lookup(defined, dep));
      state := Force(state, m.id, i);
      forall x | x in modules ensures Good(x) {
        assert old(Good(x));
      }
    }

    /** The dependency of slot `i` is on the recursion stack: the slot closes a cycle. */
    method BreakEdge(m: Module, i: nat, ghost stack: seq<Id>, ghost traced: set<Id>, ghost processed: set<Id>,
        ghost ready: bool)
      requires Valid() && Good(m) && Searching(state, m.id, stack, traced, processed, ready)
      requires i < |m.depMaps| && Waiting(state.mods[m.id], i)
      requires var dep := Dep(state.mods[m.id], i); dep in registry && dep in stack
      modifies this`registry, this`enabledRegistry, this`defined, this`state, modules
      ensures modules == old(modules) && created == old(created)
      ensures Valid() && Good(m) && Steady(old(state), state)
      ensures Searching(state, m.id, stack, traced, processed, ready) && Satisfied(state.mods[m.id], i)
    {
      ghost var s, dep := state, Dep(state.mods[m.id], i);
      SlotMappedNow(s, m.id, i);
      assert ModOk(s, dep, {}, None);
      ForceCloses(s, stack, i, dep);
      ForceStep(s, m.id, i);
      BackedForce(s, m.id, i, traced);
      ForceSlot(m, i);
      ghost var f := state;
      Check(m, {});
      BackedGrows(f, state, traced);
      ForceSteady(s, m.id, i, state);
      TracingKept(s, state, stack, traced, processed, ready);
      SearchGoesOn(s, state, m.id, stack, traced, processed, traced, processed, ready);
      assert Good(m);
    }

    /** The dependency of slot `i` has not been traced: search it first. */
    method BreakBelow(m: Module, i: nat, traced: set<Id>, processed: set<Id>, ghost stack: seq<Id>, ghost ready: bool)
      returns (traced': set<Id>, processed': set<Id>)
      requires Valid() && Good(m) && Searching(state, m.id, stack, traced, processed, ready) && i < |m.depMaps|
      requires var dep := Def(m.depMaps[i].name); dep in registry && dep !in traced
      modifies this`registry, this`enabledRegistry, this`defined, this`state, modules
      ensures modules == old(modules) && created == old(created)
      ensures Valid() && Good(m) && Steady(old(state), state) && traced <= traced' && processed <= processed'
      ensures Searching(state, m.id, stack, traced', processed', ready)
      ensures ready ==> Satisfied(state.mods[m.id], i)
      decreases |state.registry + {m.id} - (traced - {m.id})|, 0
    {
      ghost var s := state;
      var dep := Def(m.depMaps[i].name);
      SlotMappedNow(s, m.id, i);
      Descend(s, m.id, i, dep, stack, traced, processed, ready);
      SearchSmaller(s, m.id, dep, traced);
      traced', processed' := BreakCycle(registry[dep], traced, processed, stack, ready);
      SearchGoesOn(s, state, m.id, stack, traced, processed, traced', processed', ready);
      assert Good(m);
      SlotKept(s, state, m.id, i, dep);
    }

    /** One turn of the loop in `BreakCycle`. */
    method BreakSlot(m: Module, i: nat, traced: set<Id>, processed: set<Id>, ghost stack: seq<Id>, ghost ready: bool)
      returns (traced': set<Id>, processed': set<Id>)
      requires Valid() && Good(m) && Searching(state, m.id, stack, traced, processed, ready) && i < |m.depMaps|
      modifies this`registry, this`enabledRegistry, this`defined, this`state, modules
      ensures modules == old(modules) && created == old(created)
      ensures Valid() && Good(m) && Steady(old(state), state) && traced <= traced' && processed <= processed'
      ensures Searching(state, m.id, stack, traced', processed', ready) && |m.depMaps| == old(|m.depMaps|)
      ensures ready ==> Satisfied(state.mods[m.id], i)
      decreases |state.registry + {m.id} - (traced - {m.id})|, 1
    {
      traced', processed' := traced, processed;
      ghost var s := state;
      var dep := Def(m.depMaps[i].name);
      SlotMappedNow(s, m.id, i);
      if dep in registry && !m.depMatched[i] && dep !in processed {
        if dep in traced {
          BreakEdge(m, i, stack, traced, processed, ready);
        } else {
          traced', processed' := BreakBelow(m, i, traced, processed, stack, ready);
        }
        assert Forward(s.mods[m.id], state.mods[m.id]);
      } else if dep !in registry {
        SlotSatisfied(s, m.id, i, dep);
      }
    }

    /** The loop of `BreakCycle`, with `m` traced and on top of the stack. */
    method BreakSlots(m: Module, traced: set<Id>, processed: set<Id>, ghost stack: seq<Id>, ghost ready: bool)
      returns (traced': set<Id>, processed': set<Id>)
      requires Valid() && Good(m) && Searching(state, m.id, stack, traced, processed, ready) && m.id in traced
      modifies this`registry, this`enabledRegistry, this`defined, this`state, modules
      ensures modules == old(modules) && created == old(created)
      ensures Valid() && Good(m) && Steady(old(state), state) && traced <= traced' && processed <= processed'
      ensures Searching(state, m.id, stack, traced', processed', ready)
      ensures ready ==> Done(state, m.id, |state.mods[m.id].depMaps|)
      decreases |state.registry + {m.id} - (traced - {m.id})|, 2
    {
      ghost var s := state;
      traced', processed' := traced, processed;
      ghost var n := |m.depMaps|;
      var i := 0;
      while i < |m.depMaps|
        invariant 0 <= i <= |m.depMaps| == n && modules == old(modules) && created == old(created)
        invariant Valid() && Good(m) && Steady(s, state) && traced <= traced' && processed <= processed'
        invariant Searching(state, m.id, stack, traced', processed', ready)
        invariant ready ==> Done(state, m.id, i)
      {
        ghost var r := state;
        SearchNoLarger(s, r, m.id, traced, traced');
        traced', processed' := BreakSlot(m, i, traced', processed', stack, ready);
        if ready { OneMoreDone(r, state, m.id, i); }
        SteadyTransitive(s, r, state);
        i := i + 1;
      }
    }

    /** The depth-first search from `m` that satisfies slots which close a cycle. */
    method BreakCycle(m: Module, traced: set<Id>, processed: set<Id>, ghost stack: seq<Id>, ghost ready: bool)
      returns (traced': set<Id>, processed': set<Id>)
      requires Valid() && Known(m) && Entering(state, m.id, stack, traced, processed, ready)
      modifies this`registry, this`enabledRegistry, this`defined, this`state, modules
      ensures modules == old(modules) && created == old(created)
      ensures Valid() && Inv(state, {}, None) && Steady(old(state), state)
      ensures traced <= traced' && processed + {m.id} <= processed' && Tracing(state, stack, traced', processed', ready)
      ensures ready ==> m.id !in state.registry
      decreases |state.registry + {m.id} - traced|, 3
    {
      Entered(state, m.id, stack, traced, processed, ready);
      assert Good(m);
      assert traced + {m.id} - {m.id} == traced;
      traced', processed' := BreakSlots(m, traced + {m.id}, processed, stack + [m.id], ready);
      Leave(state, m.id, stack, traced', processed', ready);
      processed' := processed' + {m.id};
    }

    /** What holds whenever the loader is idle. */
    ghost predicate Idle()
      reads this, modules
    {
      && Valid() && Sound(state) && Wanted(state) && Backed(state, {})
      && Serials(state, requireCounter)
    }

    constructor ()
      ensures Idle() && state == EMPTY && modules == {} && requireCounter == 0
    {
      registry, enabledRegistry, defined, requireCounter := map[], map[], map[], 0;
      state, created, modules := EMPTY, map[], {};
    }

    /** A registered enabled module is enabled, and has been asked for if it lacks its factory. */
    lemma EnabledObject(id: Id)
      requires Valid() && Sound(state) && id in enabledRegistry
      ensures var m := enabledRegistry[id];
        && m.id == id && Known(m) && id in state.mods && state.mods[id].enabled && m.enabled
        && m.inited == state.mods[id].inited && (!m.inited ==> id.Def? && m.fetched)
    {
      var m := enabledRegistry[id];
      assert Good(m) && ModOk(state, id, {}, None);
      if !m.inited { Unready(state, id); }
    }

    /** The enabled `require` calls, and whether a script that was asked for is still missing. */
    method Survey() returns (calls: seq<Module>, needCycleCheck: bool)
      requires Valid() && Sound(state)
      ensures forall m :: m in calls ==> Known(m) && state.mods[m.id].enabled
      ensures forall id :: id in state.enabledRegistry && id.Req? ==> id in Ids(calls)
      ensures needCycleCheck <==> AllReady(state)
    {
      calls, needCycleCheck := [], true;
      var left := enabledRegistry.Keys;
      while left != {}
        invariant left <= enabledRegistry.Keys
        invariant forall m :: m in calls ==> Known(m) && state.mods[m.id].enabled
        invariant forall id :: id in enabledRegistry && id !in left && id.Req? ==> id in Ids(calls)
        invariant needCycleCheck <==> forall id :: id in enabledRegistry && id !in left ==> state.mods[id].inited
      {
        var id :| id in left;
        var m := enabledRegistry[id];
        EnabledObject(id);
        if m.enabled {
          if !id.Def? {
            assert Ids(calls + [m]) == Ids(calls) + {id};
            calls := calls + [m];
          }
          if !m.inited && m.fetched && id.Def? { needCycleCheck := false; }
        }
        left := left - {id};
      }
    }

    /** One turn of the loop in `BreakCycles`, which began in state `s`. */
    method BreakFor(m: Module, ghost s: State)
      requires Valid() && Inv(state, {}, None) && Sound(s) && AllReady(s) && Steady(s, state) && Backed(state, {})
      requires Known(m) && m.id in s.mods && s.mods[m.id].enabled
      modifies this`registry, this`enabledRegistry, this`defined, this`state, modules
      ensures modules == old(modules) && created == old(created)
      ensures Valid() && Inv(state, {}, None) && Steady(s, state) && state.registry <= old(state).registry
      ensures m.id !in state.registry && Backed(state, {})
    {
      ghost var r := state;
      StartSearch(s, r, m.id);
      var traced, processed := BreakCycle(m, {}, {}, [], true);
      SearchOver(state, traced, processed);
      SteadyTransitive(s, r, state);
    }

    /** Breaks the cycles that keep `calls` from running. */
    method BreakCycles(calls: seq<Module>)
      requires Valid() && Sound(state) && AllReady(state) && Backed(state, {})
      requires forall m :: m in calls ==> Known(m) && state.mods[m.id].enabled
      modifies this`registry, this`enabledRegistry, this`defined, this`state, modules
      ensures modules == old(modules) && created == old(created)
      ensures Valid() && Inv(state, {}, None) && Steady(old(state), state) && Backed(state, {})
      ensures Ids(calls) !! state.registry
    {
      ghost var s := state;
      var k := 0;
      while k < |calls|
        invariant 0 <= k <= |calls| && modules == old(modules) && created == old(created)
        invariant Valid() && Inv(state, {}, None) && Steady(s, state) && Backed(state, {})
        invariant Ids(calls[..k]) !! state.registry
      {
        assert calls[k] in calls;
        IdsMore(calls, k);
        BreakFor(calls[k], s);
        k := k + 1;
      }
      assert calls[..k] == calls;
    }

    /** Looks for requires that can never run because scripts wait for each other in a
        cycle, unless a script that was asked for has not arrived yet. */
    method CheckLoaded()
      requires Idle()
      modifies this`registry, this`enabledRegistry, this`defined, this`state, modules
      ensures modules == old(modules) && created == old(created)
      ensures Idle() && Steady(old(state), state)
      ensures if AllReady(old(state)) then RequiresDone(state) else state == old(state)
      ensures AllReady(state) ==> AllReady(old(state))
    {
      ghost var s := state;
      var calls, needCycleCheck := Survey();
      if needCycleCheck {
        BreakCycles(calls);
        SoundSteady(s, state);
        WantedSteady(s, state);
        CallsDone(s, state, Ids(calls));
      }
    }

    // ---- The entry points ------------------------------------------------------------------------

    method InitSound(m: Module, deps: seq<string>, factory: Factory, enable: bool)
      requires Valid() && Known(m) && SoundBut(state, m.id) && Serials(state, requireCounter)
      requires Wanted(state) && Backed(state, {})
      requires if m.id.Req? then enable && !state.mods[m.id].inited else !enable
      modifies this`registry, this`enabledRegistry, this`defined, this`created, this`modules, this`state, modules
      ensures Idle() && Kept() && Inits(old(state), state, m.id, deps, factory)
    {
      ghost var t := state;
      assert Good(m) && !t.mods[m.id].enabling;
      Init(m, deps, factory, enable, AllIds(t, deps));
      if enable || t.mods[m.id].enabled { WantedGrows(t, state, m.id); } else { WantedFrugal(t, state); }
      if !t.mods[m.id].inited {
        assert ModOk(t, m.id, {}, None);
        BackedInitialise(t, m.id, deps, factory);
        BackedGrows(Initialise(t, m.id, deps, factory), state, {});
      }
      InitsSound(t, state, m.id, deps, factory, requireCounter);
    }

    /** The registered module of that id, created if need be, in an idle loader. */
    method GetSound(id: Id) returns (m: Module)
      requires Idle() && (id in state.mods ==> id in registry)
      requires id.Req? ==> id.serial <= requireCounter
      modifies this`registry, this`created, this`modules, this`state
      ensures Valid() && Kept() && Known(m) && m.id == id && state == Obtain(old(state), id)
      ensures SoundBut(state, id) && Wanted(state) && Backed(state, {}) && Serials(state, requireCounter)
    {
      ghost var s := state;
      m := GetModule(id, {});
      if id !in s.mods {
        SoundCreate(s, id);
        SerialsCreate(s, id, requireCounter);
        CreateFrugal(s, id);
        WantedFrugal(s, state);
      }
    }

    /** `define(name, deps, factory)`: the first definition of a name is the one that counts. */
    method DefineCall(name: string, deps: seq<string>, factory: Factory)
      requires Idle()
      modifies this`registry, this`enabledRegistry, this`defined, this`created, this`modules, this`state, modules
      ensures Idle() && Kept() && Defines(old(state), state, Def(name), deps, factory)
    {
      ghost var s := state;
      var id := Def(name);
      DefineOnce(s, id, deps, factory);
      if id !in defined {
        var m := GetSound(id);
        InitSound(m, deps, factory, false);
        InitsDefines(s, state, id, deps, factory);
      }
    }

    /** The next generated id, never used before. */
    method NextId() returns (id: Id)
      requires Idle()
      modifies this`requireCounter
      ensures Idle() && id == Req(requireCounter) && requireCounter == old(requireCounter) + 1 && id !in state.mods
    {
      requireCounter := requireCounter + 1;
      id := Req(requireCounter);
    }

    method Anonymous(deps: seq<string>, factory: Factory)
      requires Idle()
      modifies this, modules
      ensures Idle() && Kept() && requireCounter == old(requireCounter) + 1
      ensures Defines(old(state), state, Req(requireCounter), deps, factory)
        && !Settled(old(state), Req(requireCounter))
    {
      ghost var s := state;
      var id := NextId();
      var m := GetSound(id);
      InitSound(m, deps, factory, true);
      InitsDefines(s, state, id, deps, factory);
    }

    /** `require(deps, factory)`: an anonymous module, enabled at once. */
    method Require(deps: seq<string>, factory: Factory)
      requires Idle()
      modifies this, modules
      ensures Idle() && Kept() && requireCounter == old(requireCounter) + 1
      ensures Defines(old(state), state, Req(requireCounter), deps, factory)
        && !Settled(old(state), Req(requireCounter))
      ensures AllReady(state) ==> RequiresDone(state)
    {
      ghost var s := state;
      Anonymous(deps, factory);
      ghost var t := state;
      CheckLoaded();
      DefinesSteady(s, t, state, Req(requireCounter), deps, factory);
    }
  }
}
