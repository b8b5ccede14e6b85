/** The configuration of the app's feature modules (src/moduleConfig.ts):
    the module list, the lookups and filters over it, and the URLs a
    module is reached by. */
module ModuleConfig {
  import opened Wrappers

  datatype ModuleConfig = ModuleConfig(
    id: string, path: string, title: string, description: string, icon: string,
    entryPoint: string, standalone: bool, externalUrl: Option<string>, isActive: bool)

  /** `modulesConfig`. */
  const ModulesConfig: seq<ModuleConfig> := [
    ModuleConfig("video-analysis", "video-analysis", "视频分析", "上传或拍摄视频进行康复动作分析",
                 "Video", "../VideoAnalysis", true, None, true),
    ModuleConfig("results-history", "results-history", "分析历史", "查看所有历史分析结果",
                 "History", "../ResultsHistory", true, None, true),
    ModuleConfig("settings", "settings", "系统设置", "配置系统参数和个人偏好",
                 "Settings", "../Settings", true, None, true)]

  /** Whether a module links to an outside system (`!!externalUrl`). */
  predicate IsExternal(m: ModuleConfig) {
    m.externalUrl.Some? && m.externalUrl.value != ""
  }

  /** `modules.find(module => key(module) === k)`. */
  function FindFirst(ms: seq<ModuleConfig>, key: ModuleConfig -> string, k: string): (r: Option<ModuleConfig>)
    ensures r.Some? <==> exists i :: 0 <= i < |ms| && key(ms[i]) == k
    ensures r.Some? ==> exists i :: 0 <= i < |ms| && ms[i] == r.value && key(ms[i]) == k &&
                                  forall j :: 0 <= j < i ==> key(ms[j]) != k
  {
    if ms == [] then None
    else if key(ms[0]) == k then Some(ms[0])
    else
      var r := FindFirst(ms[1..], key, k);
      assert forall i :: 1 <= i < |ms| ==> ms[i] == ms[1..][i - 1];
      if r.Some? then
        var i :| 0 <= i < |ms[1..]| && ms[1..][i] == r.value && key(ms[1..][i]) == k &&
                 forall j :: 0 <= j < i ==> key(ms[1..][j]) != k;
        assert ms[i + 1] == r.value && forall j :: 0 <= j < i + 1 ==> key(ms[j]) != k;
        r
      else r
  }

  function IdOf(m: ModuleConfig): string { m.id }
  function PathOf(m: ModuleConfig): string { m.path }

  /** `getModuleById(id)`. */
  function GetModuleById(id: string): (r: Option<ModuleConfig>)
    ensures r.Some? ==> r.value in ModulesConfig && r.value.id == id
    ensures r.None? <==> forall m :: m in ModulesConfig ==> m.id != id
  {
    FindFirst(ModulesConfig, IdOf, id)
  }

  /** `getModuleByPath(path)`. */
  function GetModuleByPath(path: string): (r: Option<ModuleConfig>)
    ensures r.Some? ==> r.value in ModulesConfig && r.value.path == path
    ensures r.None? <==> forall m :: m in ModulesConfig ==> m.path != path
  {
    FindFirst(ModulesConfig, PathOf, path)
  }

  /** `modules.filter(keep)`. */
  function Filter(ms: seq<ModuleConfig>, keep: ModuleConfig -> bool): (r: seq<ModuleConfig>)
    ensures forall m :: m in r <==> m in ms && keep(m)
    ensures |r| <= |ms|
  {
    if ms == [] then [] else (if keep(ms[0]) then [ms[0]] else []) + Filter(ms[1..], keep)
  }

  function Standalone(m: ModuleConfig): bool { m.standalone }
  function Active(m: ModuleConfig): bool { m.isActive }
  function Internal(m: ModuleConfig): bool { !IsExternal(m) }
  function External(m: ModuleConfig): bool { IsExternal(m) }

  function GetStandaloneModules(): (r: seq<ModuleConfig>)
    ensures forall m :: m in r <==> m in ModulesConfig && m.standalone
  {
    Filter(ModulesConfig, Standalone)
  }

  function GetActiveModules(): (r: seq<ModuleConfig>)
    ensures forall m :: m in r <==> m in ModulesConfig && m.isActive
  {
    Filter(ModulesConfig, Active)
  }

  function GetInternalModules(): (r: seq<ModuleConfig>)
    ensures forall m :: m in r <==> m in ModulesConfig && !IsExternal(m)
  {
    Filter(ModulesConfig, Internal)
  }

  function GetExternalModules(): (r: seq<ModuleConfig>)
    ensures forall m :: m in r <==> m in ModulesConfig && IsExternal(m)
  {
    Filter(ModulesConfig, External)
  }

  /** Filtering keeps order: filtering a concatenation concatenates the
      filtered parts. */
  lemma {:induction false} FilterKeepsOrder(a: seq<ModuleConfig>, b: seq<ModuleConfig>, keep: ModuleConfig -> bool)
    ensures Filter(a + b, keep) == Filter(a, keep) + Filter(b, keep)
  {
    if a == [] {
      assert a + b == b;
    } else {
      assert (a + b)[0] == a[0] && (a + b)[1..] == a[1..] + b;
      FilterKeepsOrder(a[1..], b, keep);
    }
  }

  lemma FilterCons(x: ModuleConfig, rest: seq<ModuleConfig>, keep: ModuleConfig -> bool)
    ensures Filter([x] + rest, keep) == (if keep(x) then [x] else []) + Filter(rest, keep)
  {
    assert ([x] + rest)[0] == x && ([x] + rest)[1..] == rest;
  }

  /** The internal and external modules split the list between them. */
  lemma {:induction false} InternalExternalPartition(ms: seq<ModuleConfig>)
    ensures |Filter(ms, Internal)| + |Filter(ms, External)| == |ms|
    ensures multiset(Filter(ms, Internal)) + multiset(Filter(ms, External)) == multiset(ms)
  {
    if ms != [] {
      var x, rest := ms[0], ms[1..];
      assert ms == [x] + rest;
      InternalExternalPartition(rest);
      FilterCons(x, rest, Internal);
      FilterCons(x, rest, External);
      assert multiset(ms) == multiset([x]) + multiset(rest);
    }
  }

  /** Every configured module is standalone, active and internal. */
  lemma ConfiguredModules()
    ensures GetStandaloneModules() == ModulesConfig
    ensures GetActiveModules() == ModulesConfig
    ensures GetInternalModules() == ModulesConfig
    ensures GetExternalModules() == []
  {
    var ms := ModulesConfig;
    assert ms[1..][1..][1..] == [];
  }

  /** The ids lead to the modules of the same position. */
  lemma LookupById()
    ensures GetModuleById("settings") == Some(ModulesConfig[2])
    ensures GetModuleByPath("video-analysis") == Some(ModulesConfig[0])
    ensures GetModuleById("unknown").None?
  {
    var ms := ModulesConfig;
    assert IdOf(ms[0]) != "settings" && IdOf(ms[1]) != "settings";
    assert forall i :: 0 <= i < 3 ==> IdOf(ms[i]) != "unknown";
  }

  /** `getModuleUrl(path)`: the hash route. */
  function GetModuleUrl(modulePath: string): (url: string)
    ensures |url| == |modulePath| + 2 && url[..2] == "#/" && url[2..] == modulePath
  {
    "#/" + modulePath
  }

  /** `getModuleAccessUrl(module)`: the external URL when there is a
      non-empty one, else the hash route of its path. */
  function GetModuleAccessUrl(m: ModuleConfig): (url: string)
    ensures IsExternal(m) ==> url == m.externalUrl.value
    ensures !IsExternal(m) ==> url == GetModuleUrl(m.path)
  {
    if IsExternal(m) then m.externalUrl.value else GetModuleUrl(m.path)
  }
}
