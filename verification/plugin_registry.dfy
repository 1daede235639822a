/** The plugin manager: the registry of loaded login and tray plugins, keyed
    by plugin key, and the queries the login screen makes of it.  The
    registry is a map ordered by key; it is modelled as the sequence of its
    values sorted strictly by key, which is also the order in which the
    manager iterates over it. */
module PluginRegistry {
  import opened Common

  // ---------------------------------------------------------------------
  // Key order

  /** Lexicographic order on keys, character by character. */
  predicate KeyLess(a: string, b: string)
    decreases |a|
  {
    |b| > 0 && (|a| == 0 || a[0] < b[0] || (a[0] == b[0] && KeyLess(a[1..], b[1..])))
  }

  lemma {:induction false} KeyLessIrreflexive(a: string)
    ensures !KeyLess(a, a)
    decreases |a|
  {
    if |a| > 0 {
      KeyLessIrreflexive(a[1..]);
    }
  }

  lemma {:induction false} KeyLessTransitive(a: string, b: string, c: string)
    requires KeyLess(a, b) && KeyLess(b, c)
    ensures KeyLess(a, c)
    decreases |a|
  {
    if |a| > 0 && a[0] == b[0] && b[0] == c[0] {
      KeyLessTransitive(a[1..], b[1..], c[1..]);
    }
  }

  /** Two different keys are always ordered one way or the other. */
  lemma {:induction false} KeyLessTotal(a: string, b: string)
    requires a != b
    ensures KeyLess(a, b) || KeyLess(b, a)
    decreases |a|
  {
    if |a| > 0 && |b| > 0 && a[0] == b[0] {
      assert a == [a[0]] + a[1..] && b == [b[0]] + b[1..];
      KeyLessTotal(a[1..], b[1..]);
    }
  }

  // ---------------------------------------------------------------------
  // Modules and plugins

  /** The type a module declares. */
  datatype ModuleType =
    | LoginType
    | TrayType
    | FullManagedLoginType
    | IpcAssistLoginType
    | UnknownType(code: int)

  /** Whether a module asks to be loaded. */
  datatype LoadPluginType = Load | DoNotLoad

  /** What the manager reads of a module instance a library provides. */
  datatype Module = Module(key: string, mtype: ModuleType, level: int, loadPluginType: LoadPluginType)

  /** The adapter class wrapping a module. */
  datatype Adapter = LoginV1 | LoginV2 | TrayAdapter

  /** A registered plugin: its key, type and level are those of its module. */
  datatype Plugin = Plugin(key: string, ptype: ModuleType, level: int, adapter: Adapter)

  /** The API versions a module's declared version is checked against: the
      lowest one the loader accepts ("1.1.0") and the two login plugin APIs. */
  datatype Api = LowestApi | LoginApiV1 | LoginApiV2

  /** Whether a declared version is compatible with an API version. */
  type VersionCheck = (string, Api) -> bool

  const LowestVersion: string := "1.1.0"

  predicate IsLoginKind(t: ModuleType)
  {
    t == LoginType || t == FullManagedLoginType || t == IpcAssistLoginType
  }

  /** The login adapter for a module: the version 2 one when the module is
      compatible with it, otherwise the version 1 one, otherwise none. */
  function CreateLoginPlugin(m: Module, version: string, check: VersionCheck): (r: Option<Plugin>)
    ensures r.Some? <==> check(version, LoginApiV2) || check(version, LoginApiV1)
    ensures r.Some? ==> r.value.key == m.key && r.value.ptype == m.mtype && r.value.level == m.level
    ensures r.Some? ==> (r.value.adapter == LoginV2 <==> check(version, LoginApiV2))
    ensures r.Some? ==> r.value.adapter != TrayAdapter
  {
    if check(version, LoginApiV2) then Some(Plugin(m.key, m.mtype, m.level, LoginV2))
    else if check(version, LoginApiV1) then Some(Plugin(m.key, m.mtype, m.level, LoginV1))
    else None
  }

  /** The plugin for a module: login-like modules get a login adapter,
      tray modules a tray adapter (whatever their version), others none. */
  function CreatePlugin(m: Module, version: string, check: VersionCheck): (r: Option<Plugin>)
    ensures r.Some? <==> m.mtype == TrayType
                         || (IsLoginKind(m.mtype) && (check(version, LoginApiV2) || check(version, LoginApiV1)))
    ensures r.Some? ==> r.value.key == m.key && r.value.ptype == m.mtype && r.value.level == m.level
    ensures r.Some? ==> (r.value.adapter == TrayAdapter <==> m.mtype == TrayType)
  {
    if IsLoginKind(m.mtype) then CreateLoginPlugin(m, version, check)
    else if m.mtype == TrayType then Some(Plugin(m.key, m.mtype, m.level, TrayAdapter))
    else None
  }

  // ---------------------------------------------------------------------
  // The registry as a key-sorted sequence

  /** Keys strictly increase along the sequence (so they are distinct). */
  ghost predicate Sorted(ps: seq<Plugin>)
  {
    forall i, j :: 0 <= i < j < |ps| ==> KeyLess(ps[i].key, ps[j].key)
  }

  /** Every plugin's adapter fits its type, as CreatePlugin makes them. */
  ghost predicate WellTyped(ps: seq<Plugin>)
  {
    forall i :: 0 <= i < |ps| ==> (ps[i].adapter == TrayAdapter <==> ps[i].ptype == TrayType)
  }

  /** The keys present. */
  ghost function KeySet(ps: seq<Plugin>): set<string>
  {
    set i | 0 <= i < |ps| :: ps[i].key
  }

  /** The plugin registered under `k`, if any. */
  function Find(ps: seq<Plugin>, k: string): (r: Option<Plugin>)
    ensures r.Some? ==> r.value in ps && r.value.key == k
    ensures r.None? <==> forall i :: 0 <= i < |ps| ==> ps[i].key != k
  {
    if ps == [] then None
    else if ps[0].key == k then Some(ps[0])
    else Find(ps[1..], k)
  }

  /** Map insertion: `p` replaces the plugin with its key, or is placed at
      its position in key order. */
  function Insert(ps: seq<Plugin>, p: Plugin): (r: seq<Plugin>)
    ensures p in r
    ensures forall i :: 0 <= i < |r| ==> r[i] == p || r[i] in ps
  {
    if ps == [] then [p]
    else if ps[0].key == p.key then [p] + ps[1..]
    else if KeyLess(p.key, ps[0].key) then [p] + ps
    else [ps[0]] + Insert(ps[1..], p)
  }

  function KeyIsNot(k: string): Plugin -> bool
  {
    (p: Plugin) => p.key != k
  }

  /** Map removal of the key `k`. */
  function RemoveKey(ps: seq<Plugin>, k: string): seq<Plugin>
  {
    Filter(ps, KeyIsNot(k))
  }

  /** The registry, together with the tray plugins announced so far. */
  datatype Registry = Registry(plugins: seq<Plugin>, trayAdded: seq<Plugin>)

  /** The effect of adding a module: nothing for a missing module or one no
      plugin is created for; otherwise its plugin is inserted, and a tray
      plugin is announced. */
  function AddEffect(r: Registry, m: Option<Module>, version: string, check: VersionCheck): Registry
  {
    if m.None? then r
    else
      match CreatePlugin(m.value, version, check)
      case None => r
      case Some(p) =>
        Registry(Insert(r.plugins, p), r.trayAdded + (if p.ptype == TrayType then [p] else []))
  }

  lemma {:induction false} SortedTail(ps: seq<Plugin>)
    requires ps != [] && Sorted(ps)
    ensures Sorted(ps[1..])
    ensures forall i :: 0 <= i < |ps[1..]| ==> KeyLess(ps[0].key, ps[1..][i].key)
  {
  }

  /** A key-sorted registry holds each key once. */
  lemma SortedUnique(ps: seq<Plugin>, i: int, j: int)
    requires Sorted(ps) && 0 <= i < |ps| && 0 <= j < |ps| && ps[i].key == ps[j].key
    ensures i == j
  {
    KeyLessIrreflexive(ps[i].key);
  }

  /** Keeping some plugins of a sorted registry keeps it sorted. */
  lemma {:induction false} FilterSorted(ps: seq<Plugin>, keep: Plugin -> bool)
    requires Sorted(ps)
    ensures Sorted(Filter(ps, keep))
  {
    if ps != [] {
      SortedTail(ps);
      FilterSorted(ps[1..], keep);
      var rest := Filter(ps[1..], keep);
      if keep(ps[0]) {
        forall i | 0 <= i < |rest|
          ensures KeyLess(ps[0].key, rest[i].key)
        {
          var j :| 0 <= j < |ps[1..]| && ps[1..][j] == rest[i];
        }
        assert Filter(ps, keep) == [ps[0]] + rest;
        SortedCons(ps[0], rest);
      } else {
        assert Filter(ps, keep) == rest;
      }
    }
  }

  /** A plugin whose key precedes every key of a sorted list can head it. */
  lemma SortedCons(p: Plugin, ps: seq<Plugin>)
    requires Sorted(ps) && forall i :: 0 <= i < |ps| ==> KeyLess(p.key, ps[i].key)
    ensures Sorted([p] + ps)
  {
    var r := [p] + ps;
    forall i, j | 0 <= i < j < |r|
      ensures KeyLess(r[i].key, r[j].key)
    {
      assert r[j] == ps[j - 1];
      if i > 0 {
        assert r[i] == ps[i - 1];
      }
    }
  }

  /** Insertion keeps the registry sorted. */
  lemma {:induction false} InsertSorted(ps: seq<Plugin>, p: Plugin)
    requires Sorted(ps)
    ensures Sorted(Insert(ps, p))
  {
    if ps != [] {
      SortedTail(ps);
      if ps[0].key == p.key {
      } else if KeyLess(p.key, ps[0].key) {
        forall j | 0 <= j < |ps|
          ensures KeyLess(p.key, ps[j].key)
        {
          if j > 0 {
            KeyLessTransitive(p.key, ps[0].key, ps[j].key);
          }
        }
      } else {
        KeyLessTotal(p.key, ps[0].key);
        InsertSorted(ps[1..], p);
        var rest := Insert(ps[1..], p);
        forall i | 0 <= i < |rest|
          ensures KeyLess(ps[0].key, rest[i].key)
        {
          if rest[i] != p {
            var j :| 0 <= j < |ps[1..]| && ps[1..][j] == rest[i];
          }
        }
      }
    }
  }

  /** After insertion the key of `p` finds `p` and every other key finds
      what it found before. */
  lemma {:induction false} InsertFind(ps: seq<Plugin>, p: Plugin, k: string)
    ensures Find(Insert(ps, p), k) == if k == p.key then Some(p) else Find(ps, k)
  {
    if ps != [] && ps[0].key != p.key && !KeyLess(p.key, ps[0].key) {
      InsertFind(ps[1..], p, k);
    }
  }

  /** Inserting a key greater than every key present appends. */
  lemma {:induction false} InsertLast(ps: seq<Plugin>, p: Plugin)
    requires forall i :: 0 <= i < |ps| ==> KeyLess(ps[i].key, p.key)
    ensures Insert(ps, p) == ps + [p]
  {
    if ps != [] {
      KeyLessIrreflexive(p.key);
      if KeyLess(p.key, ps[0].key) {
        KeyLessTransitive(p.key, ps[0].key, p.key);
      }
      InsertLast(ps[1..], p);
      assert ps == [ps[0]] + ps[1..];
    }
  }

  /** Removal keeps the registry sorted. */
  lemma RemoveSorted(ps: seq<Plugin>, k: string)
    requires Sorted(ps)
    ensures Sorted(RemoveKey(ps, k))
  {
    FilterSorted(ps, KeyIsNot(k));
  }

  /** After removal the key finds nothing and every other key finds what it
      found before. */
  lemma {:induction false} RemoveFind(ps: seq<Plugin>, k: string, k': string)
    ensures Find(RemoveKey(ps, k), k') == if k' == k then None else Find(ps, k')
  {
    if ps != [] {
      RemoveFind(ps[1..], k, k');
      var r, rest := RemoveKey(ps, k), RemoveKey(ps[1..], k);
      if ps[0].key != k {
        assert r == [ps[0]] + rest;
        assert r[1..] == rest;
      } else {
        assert r == rest;
      }
    }
  }

  /** Removing a present key takes exactly its plugin out. */
  lemma {:induction false} RemoveMultiset(ps: seq<Plugin>, k: string, p: Plugin)
    requires Sorted(ps) && Find(ps, k) == Some(p)
    ensures multiset(RemoveKey(ps, k)) + multiset{p} == multiset(ps)
  {
    assert ps == [ps[0]] + ps[1..];
    assert multiset(ps) == multiset{ps[0]} + multiset(ps[1..]);
    if ps[0].key == k {
      RemoveHeadKey(ps, k);
    } else {
      SortedTail(ps);
      var rest := RemoveKey(ps[1..], k);
      assert RemoveKey(ps, k) == [ps[0]] + rest;
      assert multiset(RemoveKey(ps, k)) == multiset{ps[0]} + multiset(rest);
      RemoveMultiset(ps[1..], k, p);
    }
  }

  /** In a sorted registry the first plugin's key occurs nowhere else. */
  lemma RemoveHeadKey(ps: seq<Plugin>, k: string)
    requires Sorted(ps) && ps != [] && ps[0].key == k
    ensures RemoveKey(ps, k) == ps[1..]
  {
    SortedTail(ps);
    forall i | 0 <= i < |ps[1..]|
      ensures KeyIsNot(k)(ps[1..][i])
    {
      KeyLessIrreflexive(k);
    }
    FilterAll(ps[1..], KeyIsNot(k));
  }

  /** The key set after a removal. */
  lemma RemoveKeySet(ps: seq<Plugin>, k: string)
    ensures KeySet(RemoveKey(ps, k)) == KeySet(ps) - {k}
  {
    var r := RemoveKey(ps, k);
    forall x | x in KeySet(ps) - {k}
      ensures x in KeySet(r)
    {
      var i :| 0 <= i < |ps| && ps[i].key == x;
      assert KeyIsNot(k)(ps[i]);
      var j :| 0 <= j < |r| && r[j] == ps[i];
    }
    forall x | x in KeySet(r)
      ensures x in KeySet(ps) - {k}
    {
      var j :| 0 <= j < |r| && r[j].key == x;
      var i :| 0 <= i < |ps| && ps[i] == r[j];
    }
  }

  /** Adding a module keeps the registry sorted; the module's key then finds
      the created plugin, and every other key is untouched. */
  lemma AddEffectFind(r: Registry, m: Option<Module>, version: string, check: VersionCheck, k: string)
    requires Sorted(r.plugins)
    ensures Sorted(AddEffect(r, m, version, check).plugins)
    ensures Find(AddEffect(r, m, version, check).plugins, k)
              == if m.Some? && k == m.value.key && CreatePlugin(m.value, version, check).Some?
                 then CreatePlugin(m.value, version, check)
                 else Find(r.plugins, k)
  {
    if m.Some? && CreatePlugin(m.value, version, check).Some? {
      var p := CreatePlugin(m.value, version, check).value;
      InsertSorted(r.plugins, p);
      InsertFind(r.plugins, p, k);
    }
  }

  // ---------------------------------------------------------------------
  // Login plugin selection and display order

  /** The keys of the login plugins that may be shown: the designated list
      (with the single designated plugin appended) overrides the default
      list (with the single default plugin appended).  Empty means "any". */
  function FinalLoginPlugins(designated: string, default: string, designatedList: seq<string>, defaultList: seq<string>): (r: seq<string>)
    ensures designated != "" ==> designated in r
    ensures r == [] <==> designated == "" && designatedList == [] && default == "" && defaultList == []
    ensures designated != "" || designatedList != [] ==>
              forall i :: 0 <= i < |r| ==> r[i] in designatedList || r[i] == designated
    ensures designated == "" && designatedList == [] ==>
              forall k :: k in r <==> k in defaultList || (k == default && default != "")
  {
    var designatedAll := designatedList + (if designated != "" then [designated] else []);
    var defaultAll := defaultList + (if default != "" then [default] else []);
    if designatedAll != [] then designatedAll else defaultAll
  }

  /** Whether a registered plugin is offered as a login plugin of `level`. */
  function LoginCandidate(final: seq<string>, level: int): Plugin -> bool
  {
    (p: Plugin) => p.ptype == LoginType && (final == [] || p.key in final) && p.level == level
  }

  /** Display order: the candidates named by `order`, in that order (each
      taken out once found), then the remaining candidates in key order. */
  function Arrange(cands: seq<Plugin>, order: seq<string>): seq<Plugin>
    decreases |order|
  {
    if order == [] then cands
    else
      match Find(cands, order[0])
      case Some(p) => [p] + Arrange(RemoveKey(cands, order[0]), order[1..])
      case None => Arrange(cands, order[1..])
  }

  /** The login plugins shown, in display order. */
  function LoginPlugins(ps: seq<Plugin>, level: int, final: seq<string>, order: seq<string>): seq<Plugin>
  {
    Arrange(Filter(ps, LoginCandidate(final, level)), order)
  }

  /** One step of collecting the candidates from a sorted registry: a
      candidate comes after every earlier one, so inserting it appends it. */
  lemma CandidatesStep(all: seq<Plugin>, i: int, final: seq<string>, level: int)
    requires Sorted(all) && 0 <= i < |all|
    ensures Filter(all[..i + 1], LoginCandidate(final, level))
            == if LoginCandidate(final, level)(all[i])
               then Insert(Filter(all[..i], LoginCandidate(final, level)), all[i])
               else Filter(all[..i], LoginCandidate(final, level))
  {
    var keep := LoginCandidate(final, level);
    var cands := Filter(all[..i], keep);
    FilterSnoc(all[..i], all[i], keep);
    assert all[..i + 1] == all[..i] + [all[i]];
    if keep(all[i]) {
      forall j | 0 <= j < |cands|
        ensures KeyLess(cands[j].key, all[i].key)
      {
        var m :| 0 <= m < i && all[m] == cands[j];
      }
      InsertLast(cands, all[i]);
    }
  }

  /** One step of arranging: the next name of `order` takes its candidate
      out, if there is one. */
  lemma ArrangeStep(cands: seq<Plugin>, order: seq<string>, j: int)
    requires 0 <= j < |order|
    ensures Arrange(cands, order[j..])
            == match Find(cands, order[j])
               case Some(p) => [p] + Arrange(RemoveKey(cands, order[j]), order[j + 1..])
               case None => Arrange(cands, order[j + 1..])
  {
    assert order[j..][0] == order[j] && order[j..][1..] == order[j + 1..];
  }

  function KeyNotIn(order: seq<string>): Plugin -> bool
  {
    (p: Plugin) => p.key !in order
  }

  /** The keys of `order` that are in `ks`, each at its first occurrence. */
  function Present(order: seq<string>, ks: set<string>): (r: seq<string>)
    ensures forall i :: 0 <= i < |r| ==> r[i] in ks && r[i] in order
    decreases |order|
  {
    if order == [] then []
    else if order[0] in ks then [order[0]] + Present(order[1..], ks - {order[0]})
    else Present(order[1..], ks)
  }

  /** The plugins registered under the keys `ks`, in the order of `ks`. */
  function Picks(ps: seq<Plugin>, ks: seq<string>): (r: seq<Plugin>)
    ensures forall i :: 0 <= i < |r| ==> r[i] in ps
    decreases |ks|
  {
    if ks == [] then []
    else
      (match Find(ps, ks[0]) case Some(p) => [p] case None => []) + Picks(ps, ks[1..])
  }

  lemma {:induction false} PicksRemove(ps: seq<Plugin>, k: string, ks: seq<string>)
    requires k !in ks
    ensures Picks(RemoveKey(ps, k), ks) == Picks(ps, ks)
    decreases |ks|
  {
    if ks != [] {
      RemoveFind(ps, k, ks[0]);
      PicksRemove(ps, k, ks[1..]);
    }
  }

  /** The display order is the configured order restricted to the present
      candidates, followed by the candidates the configuration does not
      name, in key order. */
  lemma {:induction false} ArrangeSplit(cands: seq<Plugin>, order: seq<string>)
    requires Sorted(cands)
    ensures Arrange(cands, order) == Picks(cands, Present(order, KeySet(cands))) + Filter(cands, KeyNotIn(order))
    decreases |order|
  {
    if order == [] {
      FilterAll(cands, KeyNotIn(order));
    } else {
      var k, rest := order[0], order[1..];
      assert order == [k] + rest;
      match Find(cands, k)
      case Some(p) =>
        RemoveSorted(cands, k);
        ArrangeSplit(RemoveKey(cands, k), rest);
        ArrangeSplitTaken(cands, order, p);
      case None =>
        ArrangeSplit(cands, rest);
        assert k !in KeySet(cands);
        FilterCongruent(cands, KeyNotIn(order), KeyNotIn(rest));
    }
  }

  /** The step of ArrangeSplit where the first name of the order is a
      candidate's key: that candidate comes first and leaves the rest. */
  lemma ArrangeSplitTaken(cands: seq<Plugin>, order: seq<string>, p: Plugin)
    requires Sorted(cands) && order != [] && Find(cands, order[0]) == Some(p)
    requires Arrange(RemoveKey(cands, order[0]), order[1..])
             == Picks(RemoveKey(cands, order[0]), Present(order[1..], KeySet(RemoveKey(cands, order[0]))))
                + Filter(RemoveKey(cands, order[0]), KeyNotIn(order[1..]))
    ensures Arrange(cands, order) == Picks(cands, Present(order, KeySet(cands))) + Filter(cands, KeyNotIn(order))
  {
    var k, rest := order[0], order[1..];
    assert order == [k] + rest;
    var c := RemoveKey(cands, k);
    RemoveKeySet(cands, k);
    var ks := KeySet(cands);
    assert k in ks;
    var tail := Present(rest, ks - {k});
    assert Present(order, ks) == [k] + tail;
    PicksRemove(cands, k, tail);
    assert Picks(cands, [k] + tail) == [p] + Picks(cands, tail) by {
      assert ([k] + tail)[1..] == tail;
    }
    FilterFilter(cands, KeyIsNot(k), KeyNotIn(rest), KeyNotIn(order));
    var named, unnamed := Picks(cands, tail), Filter(cands, KeyNotIn(order));
    assert KeySet(c) == ks - {k};
    assert Picks(c, Present(rest, KeySet(c))) == named;
    assert Filter(c, KeyNotIn(rest)) == unnamed;
    assert Arrange(cands, order) == [p] + (named + unnamed);
    assert Picks(cands, Present(order, ks)) == [p] + named;
    ConcatAssociative([p], named, unnamed);
  }

  /** The display order shows every candidate exactly once. */
  lemma {:induction false} ArrangePermutes(cands: seq<Plugin>, order: seq<string>)
    requires Sorted(cands)
    ensures multiset(Arrange(cands, order)) == multiset(cands)
    decreases |order|
  {
    if order != [] {
      match Find(cands, order[0])
      case Some(p) =>
        RemoveSorted(cands, order[0]);
        ArrangePermutes(RemoveKey(cands, order[0]), order[1..]);
        RemoveMultiset(cands, order[0], p);
      case None =>
        ArrangePermutes(cands, order[1..]);
    }
  }

  /** The login plugins shown are exactly the registered plugins of type
      Login, of the requested level and allowed by the final list, each
      once. */
  lemma LoginPluginsExactly(ps: seq<Plugin>, level: int, final: seq<string>, order: seq<string>)
    requires Sorted(ps)
    ensures multiset(LoginPlugins(ps, level, final, order)) == multiset(Filter(ps, LoginCandidate(final, level)))
    ensures forall p :: p in LoginPlugins(ps, level, final, order) <==>
              p in ps && p.ptype == LoginType && p.level == level && (final == [] || p.key in final)
  {
    var keep := LoginCandidate(final, level);
    FilterSorted(ps, keep);
    ArrangePermutes(Filter(ps, keep), order);
    forall p | p in LoginPlugins(ps, level, final, order)
      ensures p in ps && keep(p)
    {
      assert p in multiset(Filter(ps, keep));
    }
    forall p | p in ps && keep(p)
      ensures p in LoginPlugins(ps, level, final, order)
    {
      assert p in Filter(ps, keep);
      assert p in multiset(LoginPlugins(ps, level, final, order));
    }
  }

  /** The login plugins shown start with those the display order names, in
      that order, and end with the others in key order. */
  lemma LoginPluginsOrder(ps: seq<Plugin>, level: int, final: seq<string>, order: seq<string>)
    requires Sorted(ps)
    ensures var cands := Filter(ps, LoginCandidate(final, level));
            LoginPlugins(ps, level, final, order) == Picks(cands, Present(order, KeySet(cands))) + Filter(cands, KeyNotIn(order))
  {
    FilterSorted(ps, LoginCandidate(final, level));
    ArrangeSplit(Filter(ps, LoginCandidate(final, level)), order);
  }

  function OfType(t: ModuleType): Plugin -> bool
  {
    (p: Plugin) => p.ptype == t
  }

  // ---------------------------------------------------------------------
  // The manager

  class PluginManager {
    var plugins: seq<Plugin>
    var trayAdded: seq<Plugin>

    function State(): Registry
      reads this
    {
      Registry(plugins, trayAdded)
    }

    /** The registry is ordered by key, and a plugin has the tray adapter
        exactly when it is of tray type. */
    ghost predicate Valid()
      reads this
    {
      Sorted(plugins) && WellTyped(plugins)
    }

    constructor ()
      ensures Valid() && plugins == [] && trayAdded == []
    {
      plugins := [];
      trayAdded := [];
    }

    /** Registers the plugin created for `m`; a tray plugin is announced as
        it is created. */
    method AddPlugin(m: Option<Module>, version: string, check: VersionCheck)
      requires Valid()
      modifies this
      ensures Valid()
      ensures State() == AddEffect(old(State()), m, version, check)
    {
      if m.None? {
        return;
      }
      var plugin := CreatePlugin(m.value, version, check);
      if plugin.Some? && plugin.value.ptype == TrayType {
        trayAdded := trayAdded + [plugin.value];
      }
      if plugin.None? {
        return;
      }
      InsertSorted(plugins, plugin.value);
      plugins := Insert(plugins, plugin.value);
    }

    /** A destroyed plugin is dropped from the registry. */
    method PluginDestroyed(key: string)
      requires Valid()
      modifies this
      ensures Valid()
      ensures plugins == RemoveKey(old(plugins), key) && trayAdded == old(trayAdded)
    {
      RemoveSorted(plugins, key);
      plugins := RemoveKey(plugins, key);
    }

    method Contains(key: string) returns (r: bool)
      ensures r <==> key in KeySet(plugins)
    {
      r := Find(plugins, key).Some?;
    }

    method FindPlugin(key: string) returns (r: Option<Plugin>)
      ensures r.None? <==> key !in KeySet(plugins)
      ensures r.Some? ==> r.value in plugins && r.value.key == key
    {
      var present := Contains(key);
      if !present {
        return None;
      }
      r := Find(plugins, key);
    }

    /** The login plugins of `level` to show, in display order; the four
        configuration values and the display order are read by the caller. */
    method GetLoginPlugins(level: int, designated: string, default: string,
                           designatedList: seq<string>, defaultList: seq<string>,
                           order: seq<string>) returns (list: seq<Plugin>)
      requires Valid()
      ensures list == LoginPlugins(plugins, level, FinalLoginPlugins(designated, default, designatedList, defaultList), order)
    {
      var final := FinalLoginPlugins(designated, default, designatedList, defaultList);
      var all := plugins;
      var cands: seq<Plugin> := [];
      var i := 0;
      while i < |all|
        invariant 0 <= i <= |all|
        invariant cands == Filter(all[..i], LoginCandidate(final, level))
      {
        var p := all[i];
        CandidatesStep(all, i, final, level);
        if p.ptype == LoginType {
          if final != [] && p.key !in final {
          } else if p.level == level {
            cands := Insert(cands, p);
          }
        }
        i := i + 1;
      }
      assert all[..i] == all;
      ghost var arranged := Arrange(cands, order);
      FilterSorted(all, LoginCandidate(final, level));

      list := [];
      var j := 0;
      while j < |order|
        invariant 0 <= j <= |order|
        invariant Sorted(cands)
        invariant list + Arrange(cands, order[j..]) == arranged
      {
        ArrangeStep(cands, order, j);
        var taken := Find(cands, order[j]);
        if taken.Some? {
          RemoveSorted(cands, order[j]);
          cands := RemoveKey(cands, order[j]);
          list := list + [taken.value];
        }
        j := j + 1;
      }
      list := list + cands;
    }

    /** The first plugin in key order whose type is `t`. */
    method FirstOfType(t: ModuleType) returns (r: Option<Plugin>)
      requires Valid()
      ensures r.None? <==> forall i :: 0 <= i < |plugins| ==> plugins[i].ptype != t
      ensures r.Some? ==> r.value in plugins && r.value.ptype == t
      ensures r.Some? ==> forall i :: 0 <= i < |plugins| && plugins[i].ptype == t ==>
                plugins[i] == r.value || KeyLess(r.value.key, plugins[i].key)
    {
      var i := 0;
      while i < |plugins|
        invariant 0 <= i <= |plugins|
        invariant forall j :: 0 <= j < i ==> plugins[j].ptype != t
      {
        if plugins[i].ptype == t {
          return Some(plugins[i]);
        }
        i := i + 1;
      }
      return None;
    }

    /** The fully managed login plugin: the first registered one in key order. */
    method GetFullManagedLoginPlugin() returns (r: Option<Plugin>)
      requires Valid()
      ensures r.None? <==> forall i :: 0 <= i < |plugins| ==> plugins[i].ptype != FullManagedLoginType
      ensures r.Some? ==> r.value in plugins && r.value.ptype == FullManagedLoginType && r.value.adapter != TrayAdapter
      ensures r.Some? ==> forall i :: 0 <= i < |plugins| && plugins[i].ptype == FullManagedLoginType ==>
                plugins[i] == r.value || KeyLess(r.value.key, plugins[i].key)
    {
      r := FirstOfType(FullManagedLoginType);
    }

    /** The assist login plugin: the first registered one in key order. */
    method GetAssistloginPlugin() returns (r: Option<Plugin>)
      requires Valid()
      ensures r.None? <==> forall i :: 0 <= i < |plugins| ==> plugins[i].ptype != IpcAssistLoginType
      ensures r.Some? ==> r.value in plugins && r.value.ptype == IpcAssistLoginType
      ensures r.Some? ==> forall i :: 0 <= i < |plugins| && plugins[i].ptype == IpcAssistLoginType ==>
                plugins[i] == r.value || KeyLess(r.value.key, plugins[i].key)
    {
      r := FirstOfType(IpcAssistLoginType);
    }

    /** All tray plugins, in key order. */
    method TrayPlugins() returns (list: seq<Plugin>)
      requires Valid()
      ensures list == Filter(plugins, OfType(TrayType))
      ensures Sorted(list) && forall i :: 0 <= i < |list| ==> list[i].ptype == TrayType
    {
      list := [];
      var i := 0;
      while i < |plugins|
        invariant 0 <= i <= |plugins|
        invariant list == Filter(plugins[..i], OfType(TrayType))
      {
        FilterSnoc(plugins[..i], plugins[i], OfType(TrayType));
        assert plugins[..i + 1] == plugins[..i] + [plugins[i]];
        if plugins[i].ptype == TrayType {
          list := list + [plugins[i]];
        }
        i := i + 1;
      }
      assert plugins[..i] == plugins;
      FilterSorted(plugins, OfType(TrayType));
    }
  }
}
