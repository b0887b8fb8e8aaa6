/** The bookkeeping of the module loader as plain values: what a module record and the
    context's tables hold between two calls, the atomic updates the loader makes to them,
    and the invariant those updates keep. ModuleLoader.dfy holds the objects themselves. */
module LoaderState {
  import opened Wrappers

  /** A named module (`define`) or an anonymous `require` call with a generated id. */
  datatype Id = Def(name: string) | Req(serial: nat)

  datatype Export = Undefined | Exported(token: int)

  type Factory = seq<Export> -> Export

  /** A dependency is a bare string until `enable` has turned it into a module map. */
  datatype DepMap = Raw(name: string) | Mapped(name: string)

  /** The 'defined' callback that slot `slot` of module `owner` waits on. */
  datatype Listener = Listener(owner: Id, slot: nat)

  datatype Mod = Mod(
    depMaps: seq<DepMap>, depMatched: seq<bool>, depExports: seq<Export>, depCount: int,
    factory: Factory, listeners: seq<Listener>,
    inited: bool, fetched: bool, enabled: bool, enabling: bool,
    defined: bool, defineEmitted: bool, exports: Export)

  /** `runs` and `forced` are history: the factories run so far, in order, and the
      dependency slots that cycle breaking has satisfied by force. */
  datatype State = State(
    mods: map<Id, Mod>, registry: set<Id>, enabledRegistry: set<Id>, defined: map<Id, Export>,
    runs: seq<Id>, forced: set<Listener>)

  // ---- Invariant ----------------------------------------------------------------------

  function Dep(m: Mod, i: nat): Id
    requires i < |m.depMaps|
  {
    Def(m.depMaps[i].name)
  }

  predicate Waiting(m: Mod, i: nat) {
    i < |m.depMaps| && i < |m.depMatched| && m.depMaps[i].Mapped? && !m.depMatched[i]
  }

  /** The slots a module still waits for. */
  function Open(m: Mod): set<nat> {
    set i: nat | i < |m.depMaps| && Waiting(m, i)
  }

  /** The counter is the number of open slots, and the flags are consistent. */
  ghost predicate Counted(m: Mod) {
    && |m.depMatched| == |m.depExports| == |m.depMaps|
    && m.depCount == |Open(m)|
    && m.defineEmitted == m.defined
    && (!m.inited ==> m.depMaps == [])
    && (m.enabling ==> m.enabled)
    && (m.defined ==> m.inited && m.enabled && !m.enabling && m.depCount == 0 && m.exports == m.factory(m.depExports))
  }

  ghost predicate Edge(s: State, id: Id, i: nat, dep: Id) {
    && id in s.mods && i < |s.mods[id].depMaps|
    && s.mods[id].depMaps[i].Mapped? && Dep(s.mods[id], i) == dep
  }

  /** An open slot is registered with a dependency still to be announced, unless it is in
      `owed`, whose announcement is under way further up the call stack; the dependencies of
      an enabled module are enabled; a satisfied slot holds its dependency's export, or was
      satisfied by force. */
  ghost predicate SlotOk(s: State, id: Id, i: nat, owed: set<Listener>)
    requires id in s.mods && i < |s.mods[id].depMaps| == |s.mods[id].depMatched| == |s.mods[id].depExports|
  {
    var m, dep, l := s.mods[id], Dep(s.mods[id], i), Listener(id, i);
    && (Waiting(m, i) && l !in owed ==> dep in s.registry && dep in s.mods && l in s.mods[dep].listeners)
    && (m.depMaps[i].Mapped? && l !in owed ==> dep in s.mods)
    && (m.enabled && !m.enabling ==> m.depMaps[i].Mapped? && dep in s.mods && s.mods[dep].enabled)
    && (m.depMatched[i] ==>
         && m.depMaps[i].Mapped?
         && if l in s.forced then m.depExports[i] == Undefined
            else dep in s.defined && m.depExports[i] == s.defined[dep])
  }

  /** `exempt` names the module, if any, that is about to be checked. */
  ghost predicate ModOk(s: State, id: Id, owed: set<Listener>, exempt: Option<Id>)
    requires id in s.mods
  {
    var m := s.mods[id];
    && Counted(m)
    && (id in s.registry <==> !m.defined)
    && (id in s.enabledRegistry <==> !m.defined && m.enabled)
    && (id in s.defined <==> m.defined && id.Def?)
    && (id in s.defined ==> s.defined[id] == m.exports)
    && (id in s.runs <==> m.defined)
    && (id.Req? && m.enabled ==> m.inited)
    && (m.fetched ==> m.enabled)
    && (exempt != Some(id) && m.enabled && !m.enabling && !m.defined ==> if m.inited then m.depCount > 0 else m.fetched)
    && (forall i: nat {:trigger SlotOk(s, id, i, owed)} :: i < |m.depMaps| ==> SlotOk(s, id, i, owed))
    && (forall l {:trigger l in m.listeners} :: l in m.listeners ==> Edge(s, l.owner, l.slot, id))
    && (forall l: Listener :: l in s.forced && l.owner == id ==> l.slot < |m.depMaps| && m.depMatched[l.slot])
  }

  /** The dependencies of the `p`-th factory to run, unless forced, had run before it. */
  ghost predicate Ordered(s: State, p: nat)
    requires p < |s.runs|
  {
    var id := s.runs[p];
    id in s.mods && forall i: nat :: i < |s.mods[id].depMaps| ==>
      Listener(id, i) in s.forced || Dep(s.mods[id], i) in s.runs[..p]
  }

  ghost predicate History(s: State) {
    && (forall p, q :: 0 <= p < q < |s.runs| ==> s.runs[p] != s.runs[q])
    && (forall p: nat {:trigger Ordered(s, p)} :: p < |s.runs| ==> Ordered(s, p))
  }

  ghost predicate Inv(s: State, owed: set<Listener>, exempt: Option<Id>) {
    && s.registry + s.enabledRegistry + s.defined.Keys <= s.mods.Keys
    && (forall id :: id in s.runs ==> id in s.mods)
    && (forall l :: l in s.forced ==> l.owner in s.mods)
    && (forall id {:trigger ModOk(s, id, owed, exempt)} :: id in s.mods ==> ModOk(s, id, owed, exempt))
    && History(s)
  }

  // ---- Atomic updates -----------------------------------------------------------------

  const EMPTY := State(map[], {}, {}, map[], [], {})

  function FreshMod(): Mod {
    Mod([], [], [], 0, (args: seq<Export>) => Undefined, [], false, false, false, false, false, false, Undefined)
  }

  function Create(s: State, id: Id): State {
    s.(mods := s.mods[id := FreshMod()], registry := s.registry + {id})
  }

  function Filled(m: Mod, deps: seq<string>, factory: Factory): Mod {
    m.(depMaps := seq(|deps|, i requires 0 <= i < |deps| => Raw(deps[i])),
       depMatched := seq(|deps|, _ => false), depExports := seq(|deps|, _ => Undefined),
       factory := factory, inited := true)
  }

  function Initialise(s: State, id: Id, deps: seq<string>, factory: Factory): State
    requires id in s.mods
  {
    s.(mods := s.mods[id := Filled(s.mods[id], deps, factory)])
  }

  function StartEnabling(s: State, id: Id): State
    requires id in s.mods
  {
    s.(mods := s.mods[id := s.mods[id].(enabled := true, enabling := true)],
        enabledRegistry := s.enabledRegistry + {id})
  }

  function StopEnabling(s: State, id: Id): State
    requires id in s.mods
  {
    s.(mods := s.mods[id := s.mods[id].(enabling := false)])
  }

  function Subscribe(s: State, id: Id, i: nat): State
    requires id in s.mods && i < |s.mods[id].depMaps|
  {
    var m := s.mods[id];
    s.(mods := s.mods[id := m.(depMaps := m.depMaps[i := Mapped(m.depMaps[i].name)], depCount := m.depCount + 1)])
  }

  function Listen(s: State, dep: Id, l: Listener): State
    requires dep in s.mods
  {
    s.(mods := s.mods[dep := s.mods[dep].(listeners := s.mods[dep].listeners + [l])])
  }

  function Matched(m: Mod, i: nat, value: Export): Mod
    requires i < |m.depMatched| && i < |m.depExports|
  {
    if m.depMatched[i] then m
    else m.(depMatched := m.depMatched[i := true], depCount := m.depCount - 1, depExports := m.depExports[i := value])
  }

  function Match(s: State, id: Id, i: nat, value: Export): State
    requires id in s.mods && i < |s.mods[id].depMatched| && i < |s.mods[id].depExports|
  {
    s.(mods := s.mods[id := Matched(s.mods[id], i, value)])
  }

  function Force(s: State, id: Id, i: nat): State
    requires id in s.mods && i < |s.mods[id].depMatched| && i < |s.mods[id].depExports|
  {
    Match(s, id, i, Undefined).(forced := s.forced + {Listener(id, i)})
  }

  function Fetch(s: State, id: Id): State
    requires id in s.mods
  {
    s.(mods := s.mods[id := s.mods[id].(fetched := true)])
  }

  function Executed(m: Mod): Mod {
    m.(exports := m.factory(m.depExports), defined := true)
  }

  /** The factory's result becomes the module's export, and the context's for a named module. */
  function Execute(s: State, id: Id): State
    requires id in s.mods
  {
    var m := Executed(s.mods[id]);
    s.(mods := s.mods[id := m], defined := if id.Def? then s.defined[id := m.exports] else s.defined,
       runs := s.runs + [id])
  }

  function Clean(s: State, id: Id): State {
    s.(registry := s.registry - {id}, enabledRegistry := s.enabledRegistry - {id})
  }

  function Define(s: State, id: Id): State
    requires id in s.mods
  {
    Clean(Execute(s, id), id)
  }

  function Announce(s: State, id: Id): State
    requires id in s.mods
  {
    s.(mods := s.mods[id := s.mods[id].(defineEmitted := true)])
  }

  function DefineAndAnnounce(s: State, id: Id): State
    requires id in s.mods
  {
    Announce(Define(s, id), id)
  }

  // ---- The updates keep the invariant ---------------------------------------------------

  ghost function Range(ls: seq<Listener>): set<Listener> { set l | l in ls }

  lemma NoneLeft(owed: set<Listener>, ls: seq<Listener>)
    ensures owed + Range(ls[|ls|..]) == owed
  {}

  /** `t` differs from `s` only in the record of `id`, and there only forwards. */
  ghost predicate Local(s: State, t: State, id: Id) {
    && id in s.mods && t == s.(mods := t.mods, forced := t.forced, enabledRegistry := t.enabledRegistry)
    && t.mods.Keys == s.mods.Keys
    && (forall x :: x in s.mods && x != id ==> t.mods[x] == s.mods[x])
    && (forall x :: x in t.enabledRegistry && x != id <==> x in s.enabledRegistry && x != id)
    && (forall l: Listener :: l.owner != id ==> (l in t.forced <==> l in s.forced))
    && |t.mods[id].depMaps| >= |s.mods[id].depMaps|
    && (forall i: nat :: i < |s.mods[id].depMaps| ==> Dep(t.mods[id], i) == Dep(s.mods[id], i))
    && (forall i: nat :: i < |s.mods[id].depMaps| && s.mods[id].depMaps[i].Mapped? ==> t.mods[id].depMaps[i].Mapped?)
    && s.mods[id].listeners <= t.mods[id].listeners
    && (s.mods[id].enabled ==> t.mods[id].enabled)
    && s.mods[id].defined == t.mods[id].defined
    && (s.mods[id].defined ==> t.mods[id] == s.mods[id])
  }

  lemma OthersKeep(s: State, t: State, id: Id, owed: set<Listener>, owed': set<Listener>,
                   exempt: Option<Id>, exempt': Option<Id>)
    requires Inv(s, owed, exempt) && Local(s, t, id)
    requires forall l: Listener :: l.owner != id ==> (l in owed <==> l in owed')
    requires exempt in {None, Some(id)} && exempt' in {None, Some(id)}
    ensures forall x :: x in s.mods && x != id ==> ModOk(t, x, owed', exempt')
    ensures forall l :: l in s.mods[id].listeners ==> Edge(t, l.owner, l.slot, id)
  {
    forall x | x in s.mods && x != id ensures ModOk(t, x, owed', exempt') {
      assert ModOk(s, x, owed, exempt);
      forall i: nat | i < |t.mods[x].depMaps| ensures SlotOk(t, x, i, owed') {
        assert SlotOk(s, x, i, owed);
      }
    }
    assert ModOk(s, id, owed, exempt);
  }

  lemma HistoryKeeps(s: State, t: State)
    requires History(s) && t.runs == s.runs && s.forced <= t.forced
    requires forall x :: x in s.runs ==> x in s.mods && x in t.mods && t.mods[x].depMaps == s.mods[x].depMaps
    ensures History(t)
  {
    forall p: nat | p < |t.runs| ensures Ordered(t, p) {
      assert Ordered(s, p);
    }
  }

  lemma LocalKeeps(s: State, t: State, id: Id, owed: set<Listener>, owed': set<Listener>,
                   exempt: Option<Id>, exempt': Option<Id>)
    requires Inv(s, owed, exempt) && Local(s, t, id) && s.forced <= t.forced
    requires forall l: Listener :: l.owner != id ==> (l in owed <==> l in owed')
    requires exempt in {None, Some(id)} && exempt' in {None, Some(id)}
    requires ModOk(t, id, owed', exempt')
    ensures Inv(t, owed', exempt')
  {
    OthersKeep(s, t, id, owed, owed', exempt, exempt');
    assert ModOk(s, id, owed, exempt);
    HistoryKeeps(s, t);
  }

  lemma CreateKeeps(s: State, id: Id, owed: set<Listener>)
    requires Inv(s, owed, None) && id !in s.mods
    ensures Inv(Create(s, id), owed, None)
  {
    var t := Create(s, id);
    assert Open(t.mods[id]) == {};
    HistoryKeeps(s, t);
    forall x | x in t.mods ensures ModOk(t, x, owed, None) {
      if x != id {
        assert ModOk(s, x, owed, None);
        forall i: nat | i < |t.mods[x].depMaps| ensures SlotOk(t, x, i, owed) {
          assert SlotOk(s, x, i, owed);
        }
      }
    }
  }

  lemma InitialiseMod(s: State, id: Id, deps: seq<string>, factory: Factory)
    requires id in s.mods && ModOk(s, id, {}, None) && id in s.registry && !s.mods[id].inited && !s.mods[id].enabling
    requires forall l :: l in s.mods[id].listeners ==> l.owner != id
    ensures var t := Initialise(s, id, deps, factory);
      var u := if s.mods[id].enabled then StartEnabling(t, id) else t;
      Local(s, u, id) && ModOk(u, id, {}, None)
  {
    var t := Initialise(s, id, deps, factory);
    assert Open(t.mods[id]) == {} == Open(s.mods[id]);
  }

  lemma StartEnablingMod(s: State, id: Id, owed: set<Listener>)
    requires id in s.registry && id in s.mods && ModOk(s, id, owed, None) && !s.mods[id].enabled
    requires id.Def? || s.mods[id].inited
    ensures var t := StartEnabling(s, id); Local(s, t, id) && ModOk(t, id, owed, None)
  {
    var t := StartEnabling(s, id);
    assert Open(t.mods[id]) == Open(s.mods[id]);
    forall i: nat | i < |t.mods[id].depMaps| ensures SlotOk(t, id, i, owed) {
      assert SlotOk(s, id, i, owed);
    }
  }

  lemma StopEnablingMod(s: State, id: Id, owed: set<Listener>)
    requires id in s.registry && id in s.mods && ModOk(s, id, owed, None) && s.mods[id].enabling
    requires forall i: nat {:trigger SlotDone(s, id, i)} :: i < |s.mods[id].depMaps| ==> SlotDone(s, id, i)
    ensures var t := StopEnabling(s, id); Local(s, t, id) && ModOk(t, id, owed, Some(id))
  {
    var t := StopEnabling(s, id);
    assert Open(t.mods[id]) == Open(s.mods[id]);
    forall i: nat | i < |t.mods[id].depMaps| ensures SlotOk(t, id, i, owed) {
      assert SlotOk(s, id, i, owed) && SlotDone(s, id, i);
      assert Dep(t.mods[id], i) == Dep(s.mods[id], i);
    }
  }

  lemma SubscribeLocal(s: State, id: Id, i: nat, owed: set<Listener>)
    requires id in s.registry && id in s.mods && ModOk(s, id, owed, None) && s.mods[id].enabling
    requires i < |s.mods[id].depMaps| && s.mods[id].depMaps[i].Raw?
    ensures Local(s, Subscribe(s, id, i), id)
  {
    assert SlotOk(s, id, i, owed);
  }

  lemma SubscribeSlots(s: State, id: Id, i: nat, owed: set<Listener>, j: nat)
    requires id in s.registry && id in s.mods && ModOk(s, id, owed, None) && s.mods[id].enabling
    requires i < |s.mods[id].depMaps| && s.mods[id].depMaps[i].Raw? && j < |s.mods[id].depMaps|
    ensures SlotOk(Subscribe(s, id, i), id, j, owed + {Listener(id, i)})
  {
    var t := Subscribe(s, id, i);
    assert SlotOk(s, id, i, owed) && SlotOk(s, id, j, owed);
    assert Dep(t.mods[id], j) == Dep(s.mods[id], j);
  }

  lemma SubscribeMod(s: State, id: Id, i: nat, owed: set<Listener>)
    requires id in s.registry && id in s.mods && ModOk(s, id, owed, None) && s.mods[id].enabling
    requires i < |s.mods[id].depMaps| && s.mods[id].depMaps[i].Raw?
    ensures var t := Subscribe(s, id, i); Local(s, t, id) && ModOk(t, id, owed + {Listener(id, i)}, None)
  {
    SubscribeLocal(s, id, i, owed);
    assert SlotOk(s, id, i, owed);
    var t := Subscribe(s, id, i);
    assert Open(t.mods[id]) == Open(s.mods[id]) + {i};
    forall j: nat | j < |t.mods[id].depMaps| ensures SlotOk(t, id, j, owed + {Listener(id, i)}) {
      SubscribeSlots(s, id, i, owed, j);
    }
  }

  /** Matching a slot takes it from the open ones. */
  lemma MatchCounted(m: Mod, i: nat, value: Export)
    requires Counted(m) && i < |m.depMaps| && m.depMaps[i].Mapped?
    ensures Counted(Matched(m, i, value))
  {
    if !m.depMatched[i] {
      assert Open(Matched(m, i, value)) == Open(m) - {i};
      assert i in Open(m);
    }
  }

  lemma MatchMod(s: State, dep: Id, l: Listener, owed: set<Listener>)
    requires l.owner in s.mods && ModOk(s, l.owner, owed + {l}, None)
    requires Edge(s, l.owner, l.slot, dep) && dep in s.defined && dep in s.mods
    ensures var t := Match(s, l.owner, l.slot, s.defined[dep]);
      Local(s, t, l.owner) && ModOk(t, l.owner, owed, Some(l.owner))
  {
    var id, i := l.owner, l.slot;
    var t := Match(s, id, i, s.defined[dep]);
    MatchCounted(s.mods[id], i, s.defined[dep]);
    forall j: nat | j < |t.mods[id].depMaps| ensures SlotOk(t, id, j, owed) {
      assert SlotOk(s, id, j, owed + {l});
      MatchSlot(s, dep, l, owed, j);
    }
  }

  lemma MatchSlot(s: State, dep: Id, l: Listener, owed: set<Listener>, j: nat)
    requires l.owner in s.mods && j < |s.mods[l.owner].depMaps| && Counted(s.mods[l.owner])
    requires SlotOk(s, l.owner, j, owed + {l})
    requires Edge(s, l.owner, l.slot, dep) && dep in s.defined && dep in s.mods
    requires l in s.forced ==> s.mods[l.owner].depMatched[l.slot]
    ensures SlotOk(Match(s, l.owner, l.slot, s.defined[dep]), l.owner, j, owed)
  {
    var t := Match(s, l.owner, l.slot, s.defined[dep]);
    assert Dep(t.mods[l.owner], j) == Dep(s.mods[l.owner], j);
  }

  lemma ForceMod(s: State, id: Id, i: nat)
    requires id in s.mods && ModOk(s, id, {}, None) && Waiting(s.mods[id], i)
    ensures var t := Force(s, id, i); Local(s, t, id) && ModOk(t, id, {}, Some(id))
  {
    assert SlotOk(s, id, i, {});
    var t := Force(s, id, i);
    MatchCounted(s.mods[id], i, Undefined);
    forall j: nat | j < |t.mods[id].depMaps| ensures SlotOk(t, id, j, {}) {
      assert SlotOk(s, id, j, {});
      assert Dep(t.mods[id], j) == Dep(s.mods[id], j);
    }
  }

  lemma FetchMod(s: State, id: Id, owed: set<Listener>)
    requires id in s.mods && ModOk(s, id, owed, Some(id)) && s.mods[id].enabled && !s.mods[id].inited
    ensures var t := Fetch(s, id); Local(s, t, id) && ModOk(t, id, owed, None)
  {
    var t := Fetch(s, id);
    assert Open(t.mods[id]) == Open(s.mods[id]);
  }

  lemma ListenKeeps(s: State, dep: Id, l: Listener, owed: set<Listener>)
    requires Inv(s, owed + {l}, None) && dep in s.registry && Edge(s, l.owner, l.slot, dep)
    ensures Inv(Listen(s, dep, l), owed, None)
  {
    var t := Listen(s, dep, l);
    assert Open(t.mods[dep]) == Open(s.mods[dep]);
    forall x | x in t.mods ensures ModOk(t, x, owed, None) {
      assert ModOk(s, x, owed + {l}, None);
      ListenMod(s, dep, l, owed, x);
    }
    HistoryKeeps(s, t);
  }

  lemma ListenMod(s: State, dep: Id, l: Listener, owed: set<Listener>, x: Id)
    requires x in s.mods && ModOk(s, x, owed + {l}, None)
    requires dep in s.mods && dep in s.registry && Edge(s, l.owner, l.slot, dep)
    ensures ModOk(Listen(s, dep, l), x, owed, None)
  {
    var t := Listen(s, dep, l);
    assert Open(t.mods[x]) == Open(s.mods[x]);
    forall i: nat | i < |t.mods[x].depMaps| ensures SlotOk(t, x, i, owed) {
      assert SlotOk(s, x, i, owed + {l});
      assert Dep(t.mods[x], i) == Dep(s.mods[x], i);
    }
  }

  lemma DefineKeeps(s: State, id: Id, owed: set<Listener>)
    requires Inv(s, owed, Some(id)) && id in s.registry
    requires var m := s.mods[id]; m.inited && m.enabled && !m.enabling && m.depCount < 1
    ensures var t := DefineAndAnnounce(s, id); Inv(t, owed + Range(t.mods[id].listeners), None)
  {
    var t := DefineAndAnnounce(s, id);
    forall x | x in t.mods ensures ModOk(t, x, owed + Range(s.mods[id].listeners), None) {
      assert ModOk(s, x, owed, Some(id));
      DefineMod(s, id, owed, x);
    }
    DefineHistory(s, id, owed);
  }

  lemma DefineMod(s: State, id: Id, owed: set<Listener>, x: Id)
    requires x in s.mods && id in s.registry && id in s.mods && ModOk(s, x, owed, Some(id))
      && ModOk(s, id, owed, Some(id))
    requires var m := s.mods[id]; m.inited && m.enabled && !m.enabling && m.depCount < 1
    ensures ModOk(DefineAndAnnounce(s, id), x, owed + Range(s.mods[id].listeners), None)
  {
    var t, owed' := DefineAndAnnounce(s, id), owed + Range(s.mods[id].listeners);
    assert Open(t.mods[x]) == Open(s.mods[x]);
    forall i: nat | i < |t.mods[x].depMaps| ensures SlotOk(t, x, i, owed') {
      assert SlotOk(s, x, i, owed);
      assert Dep(t.mods[x], i) == Dep(s.mods[x], i);
    }
  }

  lemma DefineHistory(s: State, id: Id, owed: set<Listener>)
    requires Inv(s, owed, Some(id)) && id in s.registry
    requires var m := s.mods[id]; m.inited && m.enabled && !m.enabling && m.depCount < 1
    ensures History(DefineAndAnnounce(s, id))
  {
    assert ModOk(s, id, owed, Some(id));
    var t, m := DefineAndAnnounce(s, id), s.mods[id];
    assert Open(m) == {};
    forall p: nat | p < |t.runs| ensures Ordered(t, p) {
      if p < |s.runs| {
        assert Ordered(s, p) && t.runs[..p] == s.runs[..p];
      } else {
        assert t.runs[..p] == s.runs;
        forall i: nat | i < |m.depMaps| ensures Listener(id, i) in s.forced || Dep(m, i) in s.runs {
          assert SlotOk(s, id, i, owed) && i !in Open(m);
          if Dep(m, i) in s.mods { assert ModOk(s, Dep(m, i), owed, Some(id)); }
        }
      }
    }
  }

  lemma ExemptionEnds(s: State, owed: set<Listener>, id: Id)
    requires Inv(s, owed, Some(id)) && id in s.mods
    requires var m := s.mods[id]; m.enabled && !m.enabling && !m.defined ==> if m.inited then m.depCount > 0
      else m.fetched
    ensures Inv(s, owed, None)
  {
    forall x | x in s.mods ensures ModOk(s, x, owed, None) {
      assert ModOk(s, x, owed, Some(id));
    }
  }

  // ---- What a call may change ------------------------------------------------------------

  /** A finished module's record is final; other records only move forwards. */
  ghost predicate Forward(a: Mod, b: Mod) {
    && (a.defined ==> b == a)
    && |b.depMaps| == |a.depMaps| && |b.depMatched| == |a.depMatched|
    && (forall i: nat :: i < |a.depMaps| ==> b.depMaps[i].name == a.depMaps[i].name)
    && (forall i: nat :: i < |a.depMaps| && a.depMaps[i].Mapped? ==> b.depMaps[i].Mapped?)
    && (forall i: nat :: i < |a.depMatched| && a.depMatched[i] ==> b.depMatched[i])
    && b.inited == a.inited && b.factory == a.factory && b.enabling == a.enabling
    && (a.enabled ==> b.enabled)
  }

  /** What any loader call may do to modules that already exist. */
  ghost predicate Grows(s: State, t: State) {
    && s.mods.Keys <= t.mods.Keys
    && (forall id {:trigger Forward(s.mods[id], t.mods[id])} :: id in s.mods ==> Forward(s.mods[id], t.mods[id]))
    && (forall id {:trigger t.mods[id].enabling} :: id in t.mods && id !in s.mods
          ==> id.Def? && !t.mods[id].enabling && !t.mods[id].inited)
    && s.runs <= t.runs && t.forced == s.forced
  }

  ghost predicate Unwired(a: Mod, b: Mod) {
    b.depMaps == a.depMaps && b.enabled == a.enabled && b.listeners == a.listeners
  }

  /** What checking and announcing may do: satisfy slots and define modules, nothing else. */
  ghost predicate Calm(s: State, t: State) {
    && Grows(s, t)
    && t.mods.Keys == s.mods.Keys && |t.registry| <= |s.registry|
    && (forall id {:trigger Unwired(s.mods[id], t.mods[id])} :: id in s.mods ==> Unwired(s.mods[id], t.mods[id]))
  }

  lemma CalmTransitive(s: State, t: State, u: State)
    requires Calm(s, t) && Calm(t, u)
    ensures Calm(s, u)
  {
    forall id | id in s.mods ensures Forward(s.mods[id], u.mods[id]) && Unwired(s.mods[id], u.mods[id]) {
      assert Forward(s.mods[id], t.mods[id]) && Forward(t.mods[id], u.mods[id]);
      assert Unwired(s.mods[id], t.mods[id]) && Unwired(t.mods[id], u.mods[id]);
    }
  }

  // ---- One call's worth of updates ---------------------------------------------------------

  lemma MatchCalm(s: State, id: Id, i: nat, value: Export, owed: set<Listener>, exempt: Option<Id>)
    requires id in s.mods && ModOk(s, id, owed, exempt)
    requires i < |s.mods[id].depMatched| && s.mods[id].depMaps[i].Mapped?
    ensures Calm(s, Match(s, id, i, value))
  {
    assert !s.mods[id].depMatched[i] ==> i in Open(s.mods[id]);
  }

  lemma FetchCalm(s: State, id: Id, owed: set<Listener>)
    requires id in s.mods && ModOk(s, id, owed, Some(id)) && !s.mods[id].inited
    ensures Calm(s, Fetch(s, id))
  {}

  lemma DefineCalm(s: State, id: Id, owed: set<Listener>)
    requires id in s.mods && id in s.registry && ModOk(s, id, owed, Some(id))
    ensures var t := DefineAndAnnounce(s, id); Calm(s, t) && t.registry == s.registry - {id}
  {}

  lemma DeliverStep(s: State, dep: Id, l: Listener, owed: set<Listener>)
    requires Inv(s, owed + {l}, None) && Edge(s, l.owner, l.slot, dep) && dep in s.defined
    requires l.slot < |s.mods[l.owner].depMatched| && l.slot < |s.mods[l.owner].depExports|
    ensures Inv(Match(s, l.owner, l.slot, s.defined[dep]), owed, Some(l.owner))
  {
    assert ModOk(s, l.owner, owed + {l}, None);
    MatchMod(s, dep, l, owed);
    LocalKeeps(s, Match(s, l.owner, l.slot, s.defined[dep]), l.owner, owed + {l}, owed, None, Some(l.owner));
  }

  lemma FetchStep(s: State, id: Id, owed: set<Listener>)
    requires Inv(s, owed, Some(id)) && id in s.mods && s.mods[id].enabled && !s.mods[id].inited
    ensures Inv(Fetch(s, id), owed, None)
  {
    assert ModOk(s, id, owed, Some(id));
    FetchMod(s, id, owed);
    LocalKeeps(s, Fetch(s, id), id, owed, owed, Some(id), None);
  }

  // ---- Enabling -----------------------------------------------------------------------------

  lemma GrowsTransitive(s: State, t: State, u: State)
    requires Grows(s, t) && Grows(t, u)
    ensures Grows(s, u)
  {
    forall id | id in s.mods ensures Forward(s.mods[id], u.mods[id]) {
      assert Forward(s.mods[id], t.mods[id]) && Forward(t.mods[id], u.mods[id]);
    }
    forall id | id in u.mods && id !in s.mods ensures id.Def? && !u.mods[id].enabling && !u.mods[id].inited {
      if id in t.mods {
        assert !t.mods[id].enabling && Forward(t.mods[id], u.mods[id]);
      } else {
        assert !u.mods[id].enabling;
      }
    }
  }

  /** All modules, and all modules they depend on, lie in the finite set `u`. */
  ghost predicate Bounded(s: State, u: set<Id>) {
    && s.mods.Keys <= u
    && forall id, i: nat {:trigger s.mods[id].depMaps[i]} :: id in s.mods && i < |s.mods[id].depMaps|
         ==> Dep(s.mods[id], i) in u
  }

  ghost function Unenabled(s: State, u: set<Id>): set<Id> {
    set id | id in u && !(id in s.mods && s.mods[id].enabled)
  }

  lemma UnenabledShrinks(s: State, t: State, u: set<Id>)
    requires Grows(s, t)
    ensures |Unenabled(t, u)| <= |Unenabled(s, u)|
  {
    forall id | id in Unenabled(t, u) ensures id in Unenabled(s, u) {
      if id in s.mods { assert Forward(s.mods[id], t.mods[id]); }
    }
    SubsetSize(Unenabled(t, u), Unenabled(s, u));
  }

  lemma SubsetSize<T>(a: set<T>, b: set<T>)
    requires a <= b
    ensures |a| <= |b|
  {
    assert b == a + (b - a);
  }

  lemma StartEnablingStep(s: State, id: Id, owed: set<Listener>)
    requires Inv(s, owed, None) && id in s.registry && !s.mods[id].enabled && (id.Def? || s.mods[id].inited)
    ensures Inv(StartEnabling(s, id), owed, None)
  {
    assert ModOk(s, id, owed, None);
    StartEnablingMod(s, id, owed);
    LocalKeeps(s, StartEnabling(s, id), id, owed, owed, None, None);
  }

  lemma StopEnablingStep(s: State, id: Id, owed: set<Listener>)
    requires Inv(s, owed, None) && id in s.registry && s.mods[id].enabling
    requires forall i: nat :: i < |s.mods[id].depMaps| ==> SlotDone(s, id, i)
    ensures Inv(StopEnabling(s, id), owed, Some(id))
  {
    assert ModOk(s, id, owed, None);
    StopEnablingMod(s, id, owed);
    LocalKeeps(s, StopEnabling(s, id), id, owed, owed, None, Some(id));
  }

  lemma SubscribeStep(s: State, id: Id, i: nat, owed: set<Listener>)
    requires Inv(s, owed, None) && id in s.registry && s.mods[id].enabling
    requires i < |s.mods[id].depMaps| && s.mods[id].depMaps[i].Raw?
    ensures Inv(Subscribe(s, id, i), owed + {Listener(id, i)}, None) && Grows(s, Subscribe(s, id, i))
  {
    assert ModOk(s, id, owed, None);
    SubscribeMod(s, id, i, owed);
    LocalKeeps(s, Subscribe(s, id, i), id, owed, owed + {Listener(id, i)}, None, None);
  }

  lemma EnablingGrows(s: State, t: State, id: Id)
    requires id in s.mods && !s.mods[id].enabling && !s.mods[id].defined && Grows(StartEnabling(s, id), t)
    ensures Grows(s, StopEnabling(t, id))
  {
    var u, v := StartEnabling(s, id), StopEnabling(t, id);
    forall x | x in s.mods ensures Forward(s.mods[x], v.mods[x]) {
      assert Forward(u.mods[x], t.mods[x]);
    }
    forall x | x in v.mods && x !in s.mods ensures x.Def? && !v.mods[x].enabling && !v.mods[x].inited {
      assert !t.mods[x].enabling;
    }
  }

  lemma InitialiseStep(s: State, id: Id, deps: seq<string>, factory: Factory)
    requires Inv(s, {}, None) && id in s.registry && !s.mods[id].inited && !s.mods[id].enabling
    ensures s.mods[id].enabled ==> Inv(StartEnabling(Initialise(s, id, deps, factory), id), {}, None)
    ensures !s.mods[id].enabled ==> Inv(Initialise(s, id, deps, factory), {}, None)
  {
    assert ModOk(s, id, {}, None);
    forall l | l in s.mods[id].listeners ensures l.owner != id {
      assert Edge(s, l.owner, l.slot, id);
    }
    InitialiseMod(s, id, deps, factory);
    var t := Initialise(s, id, deps, factory);
    var u := if s.mods[id].enabled then StartEnabling(t, id) else t;
    LocalKeeps(s, u, id, {}, {}, None, None);
  }

  lemma RegisterGrows(s: State, dep: Id, l: Listener, owed: set<Listener>)
    requires dep.Def? && (dep in s.mods ==> ModOk(s, dep, owed, None) && dep in s.registry)
    ensures Grows(s, Listen(if dep in s.mods then s else Create(s, dep), dep, l))
  {}

  lemma CalmBounded(s: State, t: State, u: set<Id>)
    requires Calm(s, t) && Bounded(s, u)
    ensures Bounded(t, u)
  {
    forall id, i: nat | id in t.mods && i < |t.mods[id].depMaps| ensures Dep(t.mods[id], i) in u {
      assert Unwired(s.mods[id], t.mods[id]) && s.mods[id].depMaps[i] == t.mods[id].depMaps[i];
    }
  }

  lemma RegisterBounded(s: State, dep: Id, l: Listener, u: set<Id>)
    requires Bounded(s, u) && dep in u
    ensures Bounded(Listen(if dep in s.mods then s else Create(s, dep), dep, l), u)
  {
    var t := Listen(if dep in s.mods then s else Create(s, dep), dep, l);
    forall id, i: nat | id in t.mods && i < |t.mods[id].depMaps| ensures Dep(t.mods[id], i) in u {
      assert s.mods[id].depMaps[i] == t.mods[id].depMaps[i];
    }
  }

  lemma SubscribeBounded(s: State, id: Id, i: nat, u: set<Id>)
    requires Bounded(s, u) && id in s.mods && i < |s.mods[id].depMaps|
    ensures Bounded(Subscribe(s, id, i), u) && Dep(s.mods[id], i) in u
  {
    var t := Subscribe(s, id, i);
    assert s.mods[id].depMaps[i] == s.mods[id].depMaps[i];
    forall x, j: nat | x in t.mods && j < |t.mods[x].depMaps| ensures Dep(t.mods[x], j) in u {
      assert s.mods[x].depMaps[j].name == t.mods[x].depMaps[j].name;
    }
  }

  /** Slot `i` is counted, and the module it depends on exists and is enabled. */
  ghost predicate SlotDone(s: State, id: Id, i: nat) {
    && id in s.mods && i < |s.mods[id].depMaps| && s.mods[id].depMaps[i].Mapped?
    && Dep(s.mods[id], i) in s.mods && s.mods[Dep(s.mods[id], i)].enabled
  }

  lemma SlotStaysDone(s: State, t: State, id: Id, i: nat)
    requires SlotDone(s, id, i) && Grows(s, t)
    ensures SlotDone(t, id, i)
  {
    assert Forward(s.mods[id], t.mods[id]);
    assert Forward(s.mods[Dep(s.mods[id], i)], t.mods[Dep(s.mods[id], i)]);
  }

  /** Slot `i`, whatever it was in `s`, is counted in `t`, and its dependency exists. */
  ghost predicate SlotCounted(s: State, t: State, id: Id, i: nat) {
    && id in s.mods && i < |s.mods[id].depMaps| && id in t.registry && id in t.mods
    && i < |t.mods[id].depMaps| && t.mods[id].enabling && t.mods[id].depMaps[i] == Mapped(s.mods[id].depMaps[i].name)
    && Dep(s.mods[id], i) in t.mods
  }

  lemma SlotMapped(s: State, t: State, id: Id, i: nat)
    requires id in s.mods && i < |s.mods[id].depMaps| && s.mods[id].enabling && Grows(Subscribe(s, id, i), t)
    requires Inv(t, {}, None) && Dep(s.mods[id], i) in t.mods
    ensures SlotCounted(s, t, id, i)
  {
    assert Forward(Subscribe(s, id, i).mods[id], t.mods[id]);
    assert ModOk(t, id, {}, None);
  }

  lemma EnablingBounded(s: State, id: Id, u: set<Id>)
    requires Bounded(s, u) && id in s.mods
    ensures var t := StartEnabling(s, id);
      Bounded(t, u) && if s.mods[id].enabled then Unenabled(t, u) == Unenabled(s, u)
          else |Unenabled(t, u)| < |Unenabled(s, u)|
  {
    var t := StartEnabling(s, id);
    forall x, i: nat | x in t.mods && i < |t.mods[x].depMaps| ensures Dep(t.mods[x], i) in u {
      assert s.mods[x].depMaps[i] == t.mods[x].depMaps[i];
    }
    assert Unenabled(t, u) == Unenabled(s, u) - {id};
  }

  lemma StopEnablingBounded(s: State, id: Id, u: set<Id>)
    requires Bounded(s, u) && id in s.mods
    ensures Bounded(StopEnabling(s, id), u)
  {
    var t := StopEnabling(s, id);
    forall x, i: nat | x in t.mods && i < |t.mods[x].depMaps| ensures Dep(t.mods[x], i) in u {
      assert s.mods[x].depMaps[i] == t.mods[x].depMaps[i];
    }
  }

  /** The loop of `enable` for `id`, begun in state `s`, has dealt with the first `i` slots. */
  ghost predicate Midway(s: State, t: State, id: Id, i: nat, u: set<Id>) {
    && Inv(t, {}, None) && Bounded(t, u)
    && id in s.mods && Grows(StartEnabling(s, id), t)
    && id in t.registry && t.mods[id].enabling && i <= |t.mods[id].depMaps|
    && forall j: nat {:trigger SlotDone(t, id, j)} :: j < i ==> SlotDone(t, id, j)
  }

  lemma MidwayStep(s: State, r: State, t: State, v: State, id: Id, i: nat, u: set<Id>)
    requires Midway(s, r, id, i, u) && i < |r.mods[id].depMaps| && Grows(r, t) && Grows(t, v)
    requires Inv(v, {}, None) && Bounded(v, u)
    requires SlotCounted(r, t, id, i)
    requires var dep := Dep(r.mods[id], i); dep in v.mods && v.mods[dep].enabled
    ensures Midway(s, v, id, i + 1, u)
  {
    GrowsTransitive(r, t, v);
    GrowsTransitive(StartEnabling(s, id), r, v);
    assert Forward(t.mods[id], v.mods[id]) && Forward(r.mods[id], v.mods[id]);
    assert ModOk(v, id, {}, None);
    forall j: nat | j < i + 1 ensures SlotDone(v, id, j) {
      if j < i { SlotStaysDone(r, v, id, j); }
    }
  }

  lemma MidwayShrinks(s: State, t: State, id: Id, i: nat, u: set<Id>)
    requires Midway(s, t, id, i, u)
    ensures |Unenabled(t, u)| <= |Unenabled(StartEnabling(s, id), u)| && |t.mods[id].depMaps| == |s.mods[id].depMaps|
  {
    UnenabledShrinks(StartEnabling(s, id), t, u);
    assert Forward(StartEnabling(s, id).mods[id], t.mods[id]);
  }

  lemma InitialiseBounded(s: State, id: Id, deps: seq<string>, factory: Factory, u: set<Id>)
    requires Bounded(s, u) && id in s.mods && forall name :: name in deps ==> Def(name) in u
    ensures Bounded(Initialise(s, id, deps, factory), u)
  {
    var t := Initialise(s, id, deps, factory);
    forall x, i: nat | x in t.mods && i < |t.mods[x].depMaps| ensures Dep(t.mods[x], i) in u {
      if x == id { assert deps[i] in deps; } else { assert s.mods[x].depMaps[i] == t.mods[x].depMaps[i]; }
    }
  }

  lemma ExemptionStarts(s: State, id: Id)
    requires Inv(s, {}, None)
    ensures Inv(s, {}, Some(id))
  {
    forall x | x in s.mods ensures ModOk(s, x, {}, Some(id)) {
      assert ModOk(s, x, {}, None);
    }
  }
}
