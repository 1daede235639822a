/** The modules loader: scans the module directory and registers, in the
    plugin manager, the module of every library that qualifies.  What the
    directory holds and what loading each library reveals (its metadata and
    its module instance) are inputs. */
module ModulesLoader {
  import opened Common
  import opened PluginRegistry

  const LoginPluginType: string := "Login"
  const TrayPluginType: string := "Tray"

  /** One directory entry: whether it is a library, the "api" and
      "pluginType" values of its metadata, and the module instance loading
      it gives (None when loading fails or gives no module). */
  datatype DirEntry = DirEntry(isLibrary: bool, api: string, pluginType: string, instance: Option<Module>)

  /** What the loader decides for an entry; the reasons to skip one are
      listed in the order they are checked. */
  datatype Verdict =
    | NotLibrary
    | VersionTooLow
    | OtherMode
    | NoPluginType
    | LoadFailed
    | Blacklisted
    | DoesNotWantLoad
    | AlreadyLoaded
    | Accept(m: Module)

  /** The conditions under which an entry's module may be registered,
      stated independently of the order in which they are checked. */
  predicate Admissible(e: DirEntry, loadLogin: bool, blackList: seq<string>, check: VersionCheck)
  {
    && e.isLibrary
    && check(e.api, LowestApi)
    // the greeter loads login modules only, the lock screen tray modules only
    && (e.pluginType == LoginPluginType ==> loadLogin)
    && (e.pluginType == TrayPluginType ==> !loadLogin)
    && e.pluginType != ""
    && e.instance.Some?
    && e.instance.value.key !in blackList
    && e.instance.value.loadPluginType == Load
  }

  /** The loader's decision for one entry, given the registry so far. */
  function Judge(e: DirEntry, loadLogin: bool, blackList: seq<string>, ps: seq<Plugin>, check: VersionCheck): (v: Verdict)
    ensures v.Accept? <==> Admissible(e, loadLogin, blackList, check) && e.instance.value.key !in KeySet(ps)
    ensures v.Accept? ==> e.instance == Some(v.m)
  {
    if !e.isLibrary then NotLibrary
    else if !check(e.api, LowestApi) then VersionTooLow
    else if (e.pluginType == LoginPluginType && !loadLogin) || (e.pluginType == TrayPluginType && loadLogin) then OtherMode
    else if e.pluginType == "" then NoPluginType
    else if e.instance.None? then LoadFailed
    else if e.instance.value.key in blackList then Blacklisted
    else if e.instance.value.loadPluginType != Load then DoesNotWantLoad
    else if Find(ps, e.instance.value.key).Some? then AlreadyLoaded
    else Accept(e.instance.value)
  }

  /** The registry after one entry is processed. */
  function Step(r: Registry, e: DirEntry, loadLogin: bool, blackList: seq<string>, check: VersionCheck): Registry
  {
    match Judge(e, loadLogin, blackList, r.plugins, check)
    case Accept(m) => AddEffect(r, Some(m), e.api, check)
    case _ => r
  }

  /** The registry after the entries are processed in directory order. */
  function Scan(r: Registry, entries: seq<DirEntry>, loadLogin: bool, blackList: seq<string>, check: VersionCheck): Registry
    decreases |entries|
  {
    if entries == [] then r
    else Scan(Step(r, entries[0], loadLogin, blackList, check), entries[1..], loadLogin, blackList, check)
  }

  /** Scanning keeps the registry sorted, and a key registered before the
      scan keeps its plugin: a module is never registered over another. */
  lemma {:induction false} ScanKeepsExisting(r: Registry, entries: seq<DirEntry>, loadLogin: bool,
                                             blackList: seq<string>, check: VersionCheck, k: string)
    requires Sorted(r.plugins)
    ensures Sorted(Scan(r, entries, loadLogin, blackList, check).plugins)
    ensures Find(r.plugins, k).Some? ==> Find(Scan(r, entries, loadLogin, blackList, check).plugins, k) == Find(r.plugins, k)
    decreases |entries|
  {
    if entries != [] {
      var e := entries[0];
      var r1 := Step(r, e, loadLogin, blackList, check);
      var v := Judge(e, loadLogin, blackList, r.plugins, check);
      if v.Accept? {
        AddEffectFind(r, Some(v.m), e.api, check, k);
      }
      ScanKeepsExisting(r1, entries[1..], loadLogin, blackList, check, k);
    }
  }

  /** Every key the scan registers comes from an admissible entry of the
      directory, and is registered with the plugin created for that entry. */
  lemma {:induction false} ScanAddsOnlyAdmissible(r: Registry, entries: seq<DirEntry>, loadLogin: bool,
                                                  blackList: seq<string>, check: VersionCheck, k: string)
    requires Sorted(r.plugins)
    requires Find(r.plugins, k).None? && Find(Scan(r, entries, loadLogin, blackList, check).plugins, k).Some?
    ensures exists i :: 0 <= i < |entries| && Admissible(entries[i], loadLogin, blackList, check)
              && entries[i].instance.value.key == k
              && Find(Scan(r, entries, loadLogin, blackList, check).plugins, k)
                 == CreatePlugin(entries[i].instance.value, entries[i].api, check)
    decreases |entries|
  {
    var e := entries[0];
    var r1 := Step(r, e, loadLogin, blackList, check);
    var v := Judge(e, loadLogin, blackList, r.plugins, check);
    if v.Accept? {
      AddEffectFind(r, Some(v.m), e.api, check, k);
    }
    if Find(r1.plugins, k).Some? {
      ScanKeepsExisting(r1, entries[1..], loadLogin, blackList, check, k);
      assert Admissible(entries[0], loadLogin, blackList, check);
    } else {
      ScanAddsOnlyAdmissible(r1, entries[1..], loadLogin, blackList, check, k);
      var i :| 0 <= i < |entries[1..]| && Admissible(entries[1..][i], loadLogin, blackList, check)
               && entries[1..][i].instance.value.key == k
               && Find(Scan(r1, entries[1..], loadLogin, blackList, check).plugins, k)
                  == CreatePlugin(entries[1..][i].instance.value, entries[1..][i].api, check);
      assert entries[i + 1] == entries[1..][i];
    }
  }

  /** Every admissible entry whose module gets a plugin ends up registered
      (under its key, by that entry or an earlier one). */
  lemma {:induction false} ScanRegistersAdmissible(r: Registry, entries: seq<DirEntry>, loadLogin: bool,
                                                   blackList: seq<string>, check: VersionCheck, i: int)
    requires Sorted(r.plugins) && 0 <= i < |entries|
    requires Admissible(entries[i], loadLogin, blackList, check)
    requires CreatePlugin(entries[i].instance.value, entries[i].api, check).Some?
    ensures entries[i].instance.value.key in KeySet(Scan(r, entries, loadLogin, blackList, check).plugins)
    decreases |entries|
  {
    var e := entries[0];
    var k := entries[i].instance.value.key;
    var r1 := Step(r, e, loadLogin, blackList, check);
    var v := Judge(e, loadLogin, blackList, r.plugins, check);
    if v.Accept? {
      AddEffectFind(r, Some(v.m), e.api, check, k);
    }
    if i == 0 {
      assert Find(r1.plugins, k).Some?;
      ScanKeepsExisting(r1, entries[1..], loadLogin, blackList, check, k);
    } else {
      assert entries[1..][i - 1] == entries[i];
      ScanRegistersAdmissible(r1, entries[1..], loadLogin, blackList, check, i - 1);
    }
  }

  /** The greeter never registers a module whose metadata declares a tray
      plugin, and the lock screen never one declaring a login plugin. */
  lemma ScanRespectsMode(r: Registry, entries: seq<DirEntry>, loadLogin: bool,
                         blackList: seq<string>, check: VersionCheck, k: string)
    requires Sorted(r.plugins)
    requires Find(r.plugins, k).None? && Find(Scan(r, entries, loadLogin, blackList, check).plugins, k).Some?
    ensures exists i :: 0 <= i < |entries| && entries[i].instance.Some?
              && entries[i].instance.value.key == k
              && entries[i].pluginType != (if loadLogin then TrayPluginType else LoginPluginType)
              && entries[i].instance.value.key !in blackList
  {
    ScanAddsOnlyAdmissible(r, entries, loadLogin, blackList, check, k);
  }

  /** After a scan no key is registered twice. */
  lemma ScanKeysUnique(r: Registry, entries: seq<DirEntry>, loadLogin: bool,
                       blackList: seq<string>, check: VersionCheck, i: int, j: int)
    requires Sorted(r.plugins)
    requires var ps := Scan(r, entries, loadLogin, blackList, check).plugins;
             0 <= i < |ps| && 0 <= j < |ps| && ps[i].key == ps[j].key
    ensures i == j
  {
    ScanKeepsExisting(r, entries, loadLogin, blackList, check, "");
    SortedUnique(Scan(r, entries, loadLogin, blackList, check).plugins, i, j);
  }

  class ModulesLoader {
    /** Whether this process is the greeter (login modules) rather than the
        lock screen (tray modules). */
    var loadLoginModule: bool

    constructor (loadLogin: bool)
      ensures loadLoginModule == loadLogin
    {
      loadLoginModule := loadLogin;
    }

    /** Scans a directory: nothing happens when it does not exist; otherwise
        each entry is judged in turn and accepted modules are added. */
    method FindModule(dirExists: bool, entries: seq<DirEntry>, blackList: seq<string>,
                      check: VersionCheck, manager: PluginManager)
      requires manager.Valid()
      modifies manager
      ensures manager.Valid()
      ensures !dirExists ==> manager.State() == old(manager.State())
      ensures dirExists ==> manager.State() == Scan(old(manager.State()), entries, loadLoginModule, blackList, check)
    {
      if !dirExists {
        return;
      }
      ghost var target := Scan(manager.State(), entries, loadLoginModule, blackList, check);
      var i := 0;
      while i < |entries|
        invariant 0 <= i <= |entries|
        invariant manager.Valid()
        invariant Scan(manager.State(), entries[i..], loadLoginModule, blackList, check) == target
      {
        var e := entries[i];
        assert entries[i..][0] == e && entries[i..][1..] == entries[i + 1..];
        ghost var before := manager.State();
        ghost var v := Judge(e, loadLoginModule, blackList, before.plugins, check);
        i := i + 1;
        if !e.isLibrary {
          continue;
        }
        if !check(e.api, LowestApi) {
          continue;
        }
        if (e.pluginType == LoginPluginType && !loadLoginModule) || (e.pluginType == TrayPluginType && loadLoginModule) {
          continue;
        }
        if e.pluginType == "" {
          continue;
        }
        if e.instance.None? {
          continue;
        }
        var m := e.instance.value;
        if m.key in blackList {
          continue;
        }
        if m.loadPluginType != Load {
          continue;
        }
        var loaded := manager.Contains(m.key);
        if loaded {
          continue;
        }
        assert v == Accept(m);
        manager.AddPlugin(Some(m), e.api, check);
      }
    }
  }
}
