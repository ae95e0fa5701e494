/** The plugin manager (backend/src/architecture/core-vs-plugins.ts, lines 517-647).

    The plugins Map keeps registration order, so it is a sequence here. A lifecycle hook
    either succeeds or throws; calls do not overlap. */
module PluginManagement {

  type Name = string

  datatype Plugin = Plugin(name: Name, loadOrder: int, dependencies: seq<Name>)

  /** How a call ends: all but the first are thrown errors. */
  datatype Result =
    | Done
    | AlreadyRegistered
    | NotRegistered
    | MissingDependency(dependency: Name)
    | StillNeededBy(dependent: Name)
    | HookThrew

  datatype State = State(plugins: seq<Plugin>, enabled: set<Name>)

  const Empty := State([], {})

  function Names(plugins: seq<Plugin>): set<Name> {
    set i | 0 <= i < |plugins| :: plugins[i].name
  }

  function Find(plugins: seq<Plugin>, n: Name): (i: nat)
    requires n in Names(plugins)
    ensures i < |plugins| && plugins[i].name == n
    ensures forall j | 0 <= j < i :: plugins[j].name != n
  {
    if plugins[0].name == n then 0
    else
      assert n in Names(plugins[1..]) by {
        var i :| 0 <= i < |plugins| && plugins[i].name == n;
        assert plugins[1..][i - 1] == plugins[i];
      }
      1 + Find(plugins[1..], n)
  }

  // ---------- The operations ----------

  datatype Event =
    | Register(plugin: Plugin, hookOk: bool)
    | Enable(name: Name, hookOk: bool)
    | Disable(name: Name, hookOk: bool)

  function FirstMissing(deps: seq<Name>, present: set<Name>): (r: Result)
    ensures r.Done? <==> forall d | d in deps :: d in present
    ensures !r.Done? ==> r.MissingDependency? && r.dependency in deps && r.dependency !in present
  {
    if deps == [] then Done
    else if deps[0] !in present then MissingDependency(deps[0])
    else FirstMissing(deps[1..], present)
  }

  predicate Needs(p: Plugin, n: Name, enabled: set<Name>) { n in p.dependencies && p.name in enabled }

  function FirstDependent(plugins: seq<Plugin>, n: Name, enabled: set<Name>): (r: Result)
    ensures r.Done? <==> forall i | 0 <= i < |plugins| :: !Needs(plugins[i], n, enabled)
    ensures !r.Done? ==>
              r.StillNeededBy? &&
              exists i :: 0 <= i < |plugins| && plugins[i].name == r.dependent && Needs(plugins[i], n, enabled)
  {
    if plugins == [] then Done
    else if Needs(plugins[0], n, enabled) then StillNeededBy(plugins[0].name)
    else
      var r := FirstDependent(plugins[1..], n, enabled);
      assert forall i | 1 <= i < |plugins| :: plugins[i] == plugins[1..][i - 1];
      r
  }

  lemma NextDependent(plugins: seq<Plugin>, i: nat, n: Name, enabled: set<Name>)
    requires i < |plugins|
    ensures FirstDependent(plugins[i..], n, enabled) ==
      if Needs(plugins[i], n, enabled) then StillNeededBy(plugins[i].name)
      else FirstDependent(plugins[i + 1..], n, enabled)
  {
    assert plugins[i..][1..] == plugins[i + 1..];
  }

  function Attempt(s: State, e: Event): Result {
    match e
    case Register(p, hookOk) =>
      if p.name in Names(s.plugins) then AlreadyRegistered
      else
        var missing := FirstMissing(p.dependencies, Names(s.plugins));
        if !missing.Done? then missing else if hookOk then Done else HookThrew
    case Enable(n, hookOk) =>
      if n !in Names(s.plugins) then NotRegistered
      else
        var missing := FirstMissing(s.plugins[Find(s.plugins, n)].dependencies, s.enabled);
        if !missing.Done? then missing else if hookOk then Done else HookThrew
    case Disable(n, hookOk) =>
      if n !in Names(s.plugins) then NotRegistered
      else if n !in s.enabled then Done
      else
        var needed := FirstDependent(s.plugins, n, s.enabled);
        if !needed.Done? then needed else if hookOk then Done else HookThrew
  }

  /** A plugin whose onLoad hook threw stays registered. */
  function Apply(s: State, e: Event): State {
    var r := Attempt(s, e);
    match e
    case Register(p, _) => if r.Done? || r.HookThrew? then s.(plugins := s.plugins + [p]) else s
    case Enable(n, _) => if r.Done? then s.(enabled := s.enabled + {n}) else s
    case Disable(n, _) => if r.Done? then s.(enabled := s.enabled - {n}) else s
  }

  function Run(s: State, es: seq<Event>): State
    decreases es
  {
    if es == [] then s else Run(Apply(s, es[0]), es[1..])
  }

  // ---------- Every reachable state ----------

  /** Registration order is a topological order: no cycles, no self-dependency. */
  predicate Topological(plugins: seq<Plugin>) {
    && (forall i, j | 0 <= i < j < |plugins| :: plugins[i].name != plugins[j].name)
    && (forall i, d | 0 <= i < |plugins| && d in plugins[i].dependencies :: d in Names(plugins[..i]))
  }

  predicate DependencyClosed(plugins: seq<Plugin>, enabled: set<Name>) {
    forall i, d | 0 <= i < |plugins| && d in plugins[i].dependencies :: plugins[i].name in enabled ==> d in enabled
  }

  predicate Valid(s: State) {
    Topological(s.plugins) && DependencyClosed(s.plugins, s.enabled) && s.enabled <= Names(s.plugins)
  }

  lemma NamesAppend(plugins: seq<Plugin>, p: Plugin)
    ensures Names(plugins + [p]) == Names(plugins) + {p.name}
  {
    var ps := plugins + [p];
    assert ps[|plugins|] == p;
    forall n | n in Names(plugins) ensures n in Names(ps) {
      var i :| 0 <= i < |plugins| && plugins[i].name == n;
      assert ps[i].name == n;
    }
  }

  lemma RegisterKeepsValid(s: State, p: Plugin)
    requires Valid(s) && p.name !in Names(s.plugins)
    requires forall d | d in p.dependencies :: d in Names(s.plugins)
    ensures Valid(s.(plugins := s.plugins + [p]))
  {
    var ps := s.plugins + [p];
    NamesAppend(s.plugins, p);
    forall i, j | 0 <= i < j < |ps| ensures ps[i].name != ps[j].name {
      assert ps[i] == s.plugins[i] && s.plugins[i].name in Names(s.plugins);
    }
    forall i, d | 0 <= i < |ps| && d in ps[i].dependencies ensures d in Names(ps[..i]) {
      assert ps[..i] == if i < |s.plugins| then s.plugins[..i] else s.plugins;
    }
  }

  lemma StepKeepsValid(s: State, e: Event)
    requires Valid(s)
    ensures Valid(Apply(s, e))
  {
    match e
    case Register(p, _) =>
      if Apply(s, e) != s { RegisterKeepsValid(s, p); }
    case Enable(n, _) =>
      if Attempt(s, e).Done? {
        var k := Find(s.plugins, n);
        forall i, d | 0 <= i < |s.plugins| && d in s.plugins[i].dependencies && s.plugins[i].name == n
          ensures d in s.enabled
        {
          assert i == k;
        }
      }
    case Disable(n, _) =>
      if Attempt(s, e).Done? && n in s.enabled {
        forall i | 0 <= i < |s.plugins| && s.plugins[i].name in s.enabled ensures n !in s.plugins[i].dependencies {
          assert !Needs(s.plugins[i], n, s.enabled);
        }
      }
  }

  /** Main theorem: after any calls, failed ones included, what is enabled is closed under
      dependencies and the plugins stand in topological order. */
  lemma {:induction false} ReachableIsValid(s: State, es: seq<Event>)
    requires Valid(s)
    ensures Valid(Run(s, es))
    decreases es
  {
    if es != [] {
      StepKeepsValid(s, es[0]);
      ReachableIsValid(Apply(s, es[0]), es[1..]);
    }
  }

  /** Disable the first `k` plugins, last registered first; stop at the first error. */
  function DisableBackwards(s: State, k: nat): (r: (Result, State))
    requires k <= |s.plugins|
    ensures r.1.plugins == s.plugins
    decreases k
  {
    if k == 0 then (Done, s)
    else
      var e := Disable(s.plugins[k - 1].name, true);
      if Attempt(s, e).Done? then DisableBackwards(Apply(s, e), k - 1) else (Attempt(s, e), s)
  }

  /** Main theorem: reverse registration order is always a safe shutdown order. */
  lemma {:induction false} ShutdownSucceeds(s: State, k: nat)
    requires Valid(s) && k <= |s.plugins| && s.enabled <= Names(s.plugins[..k])
    ensures DisableBackwards(s, k) == (Done, s.(enabled := {}))
    decreases k
  {
    if k == 0 {
      assert s.enabled == {};
    } else {
      var n := s.plugins[k - 1].name;
      var e := Disable(n, true);
      assert s.plugins[..k] == s.plugins[..k - 1] + [s.plugins[k - 1]];
      NamesAppend(s.plugins[..k - 1], s.plugins[k - 1]);
      forall i | 0 <= i < |s.plugins| ensures !Needs(s.plugins[i], n, s.enabled) {
        if s.plugins[i].name in s.enabled {
          var j :| 0 <= j < |s.plugins[..k]| && s.plugins[..k][j].name == s.plugins[i].name;
          assert j == i;
        }
        if i < k {
          assert n !in Names(s.plugins[..i]);
        }
      }
      StepKeepsValid(s, e);
      ShutdownSucceeds(Apply(s, e), k - 1);
    }
  }

  // ---------- Loading from configuration ----------

  /** `a` is loaded before `b`: by loadOrder, and by registration when those are equal. */
  predicate Before(plugins: seq<Plugin>, a: nat, b: nat)
    requires a < |plugins| && b < |plugins|
  {
    plugins[a].loadOrder < plugins[b].loadOrder || (plugins[a].loadOrder == plugins[b].loadOrder && a < b)
  }

  predicate Indices(order: seq<nat>, n: nat) { forall a | 0 <= a < |order| :: order[a] < n }

  /** The stable sort by loadOrder, as the registration indices in load order. */
  function LoadSequence(plugins: seq<Plugin>, k: nat): (order: seq<nat>)
    requires k <= |plugins|
    ensures Indices(order, |plugins|)
  {
    if k == 0 then [] else Inserted(plugins, LoadSequence(plugins, k - 1), k - 1)
  }

  function Inserted(plugins: seq<Plugin>, order: seq<nat>, k: nat): (r: seq<nat>)
    requires k < |plugins| && Indices(order, |plugins|)
    ensures Indices(r, |plugins|)
    ensures forall i :: i in r <==> i in order || i == k
  {
    if order == [] then [k]
    else if Before(plugins, k, order[0]) then [k] + order
    else [order[0]] + Inserted(plugins, order[1..], k)
  }

  predicate InLoadOrder(plugins: seq<Plugin>, order: seq<nat>) {
    Indices(order, |plugins|) && forall a, b | 0 <= a < b < |order| :: Before(plugins, order[a], order[b])
  }

  lemma {:induction false} InsertedInOrder(plugins: seq<Plugin>, order: seq<nat>, k: nat)
    requires k < |plugins| && k !in order && InLoadOrder(plugins, order)
    ensures InLoadOrder(plugins, Inserted(plugins, order, k))
  {
    if order != [] && !Before(plugins, k, order[0]) {
      InsertedInOrder(plugins, order[1..], k);
      var rest := Inserted(plugins, order[1..], k);
      forall b | 0 <= b < |rest| ensures Before(plugins, order[0], rest[b]) {
        assert rest[b] in rest;
        if rest[b] != k {
          var c :| 0 <= c < |order[1..]| && order[1..][c] == rest[b];
          assert order[c + 1] == rest[b];
        } else {
          assert order[0] in order;
        }
      }
    }
  }

  ghost predicate Covers(order: seq<nat>, n: nat) { forall i: nat :: i in order <==> i < n }

  /** The load sequence is every index once, in load order. */
  lemma {:induction false} LoadSequenceSorts(plugins: seq<Plugin>, k: nat)
    requires k <= |plugins|
    ensures InLoadOrder(plugins, LoadSequence(plugins, k))
    ensures Covers(LoadSequence(plugins, k), k)
  {
    if k > 0 {
      LoadSequenceSorts(plugins, k - 1);
      InsertedInOrder(plugins, LoadSequence(plugins, k - 1), k - 1);
    }
  }

  /** Enable the requested ones from position `k` of the order on; the first error ends
      the load. */
  function Load(s: State, order: seq<nat>, k: nat, requested: set<Name>): (r: (Result, State))
    requires Indices(order, |s.plugins|) && k <= |order|
    ensures r.1.plugins == s.plugins
    decreases |order| - k
  {
    if k == |order| then (Done, s)
    else
      var n := s.plugins[order[k]].name;
      if n !in requested then Load(s, order, k + 1, requested)
      else
        var r := Attempt(s, Enable(n, true));
        if r.Done? then Load(Apply(s, Enable(n, true)), order, k + 1, requested) else (r, s)
  }

  /** Every dependency of plugin `i` is already enabled, or is requested too and has no
      larger loadOrder. */
  predicate LoadableAt(s: State, requested: set<Name>, i: nat)
    requires i < |s.plugins|
  {
    forall j | 0 <= j < |s.plugins| && s.plugins[j].name in s.plugins[i].dependencies ::
      s.plugins[j].name in s.enabled
      || (s.plugins[j].name in requested && s.plugins[j].loadOrder <= s.plugins[i].loadOrder)
  }

  predicate Loadable(s: State, requested: set<Name>) {
    forall i | 0 <= i < |s.plugins| && s.plugins[i].name in requested :: LoadableAt(s, requested, i)
  }

  /** The requested plugins among the first `k` of the order. */
  function Loaded(plugins: seq<Plugin>, order: seq<nat>, k: nat, requested: set<Name>): set<Name>
    requires Indices(order, |plugins|) && k <= |order|
  {
    set a | 0 <= a < k && plugins[order[a]].name in requested :: plugins[order[a]].name
  }

  lemma LoadedBefore(plugins: seq<Plugin>, order: seq<nat>, k: nat, requested: set<Name>, j: nat)
    requires Topological(plugins) && InLoadOrder(plugins, order) && k < |order|
    requires j < |plugins| && j in order && plugins[j].name in requested
    ensures plugins[j].name in Loaded(plugins, order, k, requested) <==> Before(plugins, j, order[k])
  {
    var b :| 0 <= b < |order| && order[b] == j;
    if b < k {
      assert plugins[order[b]].name in Loaded(plugins, order, k, requested);
    } else {
      assert b > k ==> Before(plugins, order[k], order[b]);
      forall a | 0 <= a < k ensures plugins[order[a]].name != plugins[j].name {
        assert Before(plugins, order[a], order[b]);
      }
    }
  }

  /** At its turn a plugin can be enabled exactly when it was loadable from the start. */
  lemma EnabledAtItsTurn(start: State, s: State, order: seq<nat>, k: nat, requested: set<Name>)
    requires Valid(start) && s.plugins == start.plugins
    requires InLoadOrder(s.plugins, order) && Covers(order, |s.plugins|) && k < |order|
    requires s.enabled == start.enabled + Loaded(s.plugins, order, k, requested)
    ensures Attempt(s, Enable(s.plugins[order[k]].name, true)).Done? <==> LoadableAt(start, requested, order[k])
  {
    var i := order[k];
    var p := s.plugins[i];
    assert p.name in Names(s.plugins);
    assert Find(s.plugins, p.name) == i;
    forall j | 0 <= j < |s.plugins| && s.plugins[j].name in p.dependencies
      ensures s.plugins[j].name in s.enabled <==>
        s.plugins[j].name in start.enabled || (s.plugins[j].name in requested && s.plugins[j].loadOrder <= p.loadOrder)
    {
      var d := s.plugins[j].name;
      var m :| 0 <= m < |s.plugins[..i]| && s.plugins[..i][m].name == d;
      assert m == j < i;
      if d in requested {
        LoadedBefore(s.plugins, order, k, requested, j);
      }
    }
    forall d | d in p.dependencies ensures exists j :: 0 <= j < |s.plugins| && s.plugins[j].name == d {
      var m :| 0 <= m < |s.plugins[..i]| && s.plugins[..i][m].name == d;
      assert s.plugins[m].name == d;
    }
  }

  predicate RestLoadable(start: State, order: seq<nat>, k: nat, requested: set<Name>)
    requires Indices(order, |start.plugins|)
  {
    forall a | k <= a < |order| && start.plugins[order[a]].name in requested :: LoadableAt(start, requested, order[a])
  }

  lemma LoadedNext(plugins: seq<Plugin>, order: seq<nat>, k: nat, requested: set<Name>)
    requires Indices(order, |plugins|) && k < |order|
    ensures Loaded(plugins, order, k + 1, requested) ==
      Loaded(plugins, order, k, requested)
        + (if plugins[order[k]].name in requested then {plugins[order[k]].name} else {})
  {
  }

  lemma EnableOutcome(s: State, n: Name)
    requires n in Names(s.plugins)
    ensures Attempt(s, Enable(n, true)).Done? ==> Apply(s, Enable(n, true)) == s.(enabled := s.enabled + {n})
    ensures !Attempt(s, Enable(n, true)).Done? ==> Attempt(s, Enable(n, true)).MissingDependency?
  {
  }

  lemma {:induction false} LoadFrom(start: State, s: State, order: seq<nat>, k: nat, requested: set<Name>)
    requires Valid(start) && s.plugins == start.plugins
    requires InLoadOrder(s.plugins, order) && Covers(order, |s.plugins|) && k <= |order|
    requires s.enabled == start.enabled + Loaded(s.plugins, order, k, requested)
    ensures var (r, s') := Load(s, order, k, requested);
      && (r.Done? <==> RestLoadable(start, order, k, requested))
      && (r.Done? ==> s'.enabled == start.enabled + Loaded(s.plugins, order, |order|, requested))
      && (!r.Done? ==> r.MissingDependency?)
    decreases |order| - k
  {
    if k < |order| {
      var n := s.plugins[order[k]].name;
      LoadedNext(s.plugins, order, k, requested);
      if n !in requested {
        LoadFrom(start, s, order, k + 1, requested);
      } else {
        EnabledAtItsTurn(start, s, order, k, requested);
        EnableOutcome(s, n);
        if Attempt(s, Enable(n, true)).Done? {
          LoadFrom(start, s.(enabled := s.enabled + {n}), order, k + 1, requested);
        }
      }
    }
  }

  /** Over the whole order, positions may be exchanged for plugins. */
  lemma WholeOrder(s: State, order: seq<nat>, requested: set<Name>)
    requires Indices(order, |s.plugins|) && Covers(order, |s.plugins|)
    ensures Loaded(s.plugins, order, |order|, requested) == requested * Names(s.plugins)
    ensures RestLoadable(s, order, 0, requested) <==> Loadable(s, requested)
  {
    forall n | n in requested * Names(s.plugins) ensures n in Loaded(s.plugins, order, |order|, requested) {
      var i :| 0 <= i < |s.plugins| && s.plugins[i].name == n;
      assert i in order;
      var a :| 0 <= a < |order| && order[a] == i;
    }
    if RestLoadable(s, order, 0, requested) {
      forall i | 0 <= i < |s.plugins| && s.plugins[i].name in requested ensures LoadableAt(s, requested, i) {
        assert i in order;
        var a :| 0 <= a < |order| && order[a] == i;
      }
    }
  }

  /** Main theorem. With hooks that do not throw, loading from configuration succeeds
      exactly when each requested plugin's dependencies are enabled beforehand or requested
      with no larger loadOrder; it then enables exactly the requested plugins in addition.
      Equal load orders are fine because the sort keeps registration order. */
  lemma LoadSucceedsIff(s: State, requested: set<Name>)
    requires Valid(s)
    ensures var (r, s') := Load(s, LoadSequence(s.plugins, |s.plugins|), 0, requested);
      && (r.Done? <==> Loadable(s, requested))
      && (r.Done? ==> s' == s.(enabled := s.enabled + (requested * Names(s.plugins))))
      && (!r.Done? ==> r.MissingDependency?)
  {
    var order := LoadSequence(s.plugins, |s.plugins|);
    LoadSequenceSorts(s.plugins, |s.plugins|);
    LoadFrom(s, s, order, 0, requested);
    WholeOrder(s, order, requested);
  }

  // ---------- The manager ----------

  class PluginManager {
    var plugins: seq<Plugin>
    var enabledPlugins: set<Name>

    constructor ()
      ensures View() == Empty && Valid(View())
    {
      plugins, enabledPlugins := [], {};
    }

    function View(): State
      reads this
    {
      State(plugins, enabledPlugins)
    }

    method CheckDependencies(deps: seq<Name>, present: set<Name>) returns (r: Result)
      ensures r == FirstMissing(deps, present)
    {
      var i := 0;
      while i < |deps|
        invariant 0 <= i <= |deps|
        invariant FirstMissing(deps, present) == FirstMissing(deps[i..], present)
      {
        if deps[i] !in present {
          return MissingDependency(deps[i]);
        }
        assert deps[i..][1..] == deps[i + 1..];
        i := i + 1;
      }
      return Done;
    }

    method Register(plugin: Plugin, hookOk: bool) returns (r: Result)
      modifies this
      ensures r == Attempt(old(View()), Event.Register(plugin, hookOk))
      ensures View() == Apply(old(View()), Event.Register(plugin, hookOk))
    {
      if plugin.name in Names(plugins) {
        return AlreadyRegistered;
      }
      r := CheckDependencies(plugin.dependencies, Names(plugins));
      if !r.Done? { return; }
      plugins := plugins + [plugin];
      if !hookOk { return HookThrew; }
    }

    method Enable(n: Name, hookOk: bool) returns (r: Result)
      modifies this`enabledPlugins
      ensures r == Attempt(old(View()), Event.Enable(n, hookOk))
      ensures View() == Apply(old(View()), Event.Enable(n, hookOk))
    {
      if n !in Names(plugins) {
        return NotRegistered;
      }
      r := CheckDependencies(plugins[Find(plugins, n)].dependencies, enabledPlugins);
      if !r.Done? { return; }
      if !hookOk { return HookThrew; }
      enabledPlugins := enabledPlugins + {n};
    }

    method Disable(n: Name, hookOk: bool) returns (r: Result)
      modifies this`enabledPlugins
      ensures r == Attempt(old(View()), Event.Disable(n, hookOk))
      ensures View() == Apply(old(View()), Event.Disable(n, hookOk))
    {
      if n !in Names(plugins) {
        return NotRegistered;
      }
      if n !in enabledPlugins {
        return Done;
      }
      var i := 0;
      while i < |plugins|
        invariant 0 <= i <= |plugins| && View() == old(View())
        invariant FirstDependent(plugins, n, enabledPlugins) == FirstDependent(plugins[i..], n, enabledPlugins)
      {
        NextDependent(plugins, i, n, enabledPlugins);
        if n in plugins[i].dependencies && plugins[i].name in enabledPlugins {
          return StillNeededBy(plugins[i].name);
        }
        i := i + 1;
      }
      if !hookOk { return HookThrew; }
      enabledPlugins := enabledPlugins - {n};
      return Done;
    }

    method LoadFromConfig(requested: set<Name>) returns (r: Result)
      requires Valid(View())
      modifies this`enabledPlugins
      ensures Valid(View())
      ensures (r, View()) == Load(old(View()), LoadSequence(old(plugins), |old(plugins)|), 0, requested)
      ensures r.Done? <==> Loadable(old(View()), requested)
      ensures r.Done? ==> enabledPlugins == old(enabledPlugins) + (requested * Names(plugins))
    {
      LoadSucceedsIff(View(), requested);
      var sortedPlugins := LoadSequence(plugins, |plugins|);
      var k := 0;
      while k < |sortedPlugins|
        invariant 0 <= k <= |sortedPlugins| && Valid(View())
        invariant Load(View(), sortedPlugins, k, requested) == Load(old(View()), sortedPlugins, 0, requested)
      {
        var n := plugins[sortedPlugins[k]].name;
        if n in requested {
          StepKeepsValid(View(), Event.Enable(n, true));
          r := Enable(n, true);
          if !r.Done? { return; }
        }
        k := k + 1;
      }
      return Done;
    }
  }
}
