/** The registry of per-module API settings (src/services/api.ts): which
    base URL and endpoints each feature module talks to. */
module ModuleApi {
  import opened Wrappers
  import opened Strings

  /** `API_CONFIG.baseUrl` when no environment override is set. */
  const FallbackBaseUrl := "http://localhost:8000"

  const DefaultHeaders: map<string, string> :=
    map["Content-Type" := "application/json", "Accept" := "application/json"]

  datatype ModuleApiConfig = ModuleApiConfig(
    moduleId: string, baseUrl: Option<string>, endpoints: map<string, string>, isExternal: Option<bool>)

  /** What `new ApiClient(...)` is built from. */
  datatype ApiClient = ApiClient(baseUrl: string, defaultHeaders: map<string, string>)

  /** `API_CONFIG.baseUrl`: `VITE_API_URL` when it is set and non-empty. */
  function GlobalBaseUrl(viteApiUrl: Option<string>): (url: string)
    ensures viteApiUrl.Some? && viteApiUrl.value != "" ==> url == viteApiUrl.value
    ensures viteApiUrl.None? || viteApiUrl.value == "" ==> url == FallbackBaseUrl
  {
    if viteApiUrl.Some? && viteApiUrl.value != "" then viteApiUrl.value else FallbackBaseUrl
  }

  /** The three pre-registered modules. */
  const InitialApis: map<string, ModuleApiConfig> := map[
    "video-analysis" := ModuleApiConfig("video-analysis", None,
      map["analyze" := "/api/analyze", "uploadVideo" := "/api/video/upload",
          "captureVideo" := "/api/video/capture"], None),
    "results-history" := ModuleApiConfig("results-history", None,
      map["getHistory" := "/api/results", "getResultDetail" := "/api/results/:id",
          "deleteResult" := "/api/results/:id"], None),
    "settings" := ModuleApiConfig("settings", None,
      map["getSettings" := "/api/settings", "updateSettings" := "/api/settings"], None)]

  /** `getModuleApi(moduleId)` over a registry: an error for an id that is
      neither registered nor an inherited `Object.prototype` member (whose
      truthy lookup yields a client on the global URL); otherwise a client
      on the module's own non-empty base URL, or the global one. */
  function ClientFor(apis: map<string, ModuleApiConfig>, moduleId: string, globalUrl: string)
    : (r: Result<ApiClient, string>)
    ensures r.Err? <==> moduleId !in apis && moduleId !in PrototypeNames
    ensures r.Err? ==> r.error == "未找到模块API配置: " + moduleId
    ensures r.Ok? ==> r.value.defaultHeaders == DefaultHeaders
    ensures moduleId in apis ==> (r.Ok? && r.value.baseUrl ==
      (if apis[moduleId].baseUrl.Some? && apis[moduleId].baseUrl.value != "" then apis[moduleId].baseUrl.value
       else globalUrl))
  {
    if moduleId in apis then
      var c := apis[moduleId];
      var baseUrl := if c.baseUrl.Some? && c.baseUrl.value != "" then c.baseUrl.value else globalUrl;
      Ok(ApiClient(baseUrl, DefaultHeaders))
    else if moduleId in PrototypeNames then Ok(ApiClient(globalUrl, DefaultHeaders))
    else Err("未找到模块API配置: " + moduleId)
  }

  /** A registered module is found again with its own settings, and the
      other modules' clients are unchanged. */
  lemma RegisterThenGet(apis: map<string, ModuleApiConfig>, config: ModuleApiConfig, other: string, globalUrl: string)
    requires other != config.moduleId
    ensures var r := ClientFor(apis[config.moduleId := config], config.moduleId, globalUrl);
      r.Ok? && r.value.baseUrl == (if config.baseUrl.Some? && config.baseUrl.value != "" then config.baseUrl.value else globalUrl)
    ensures ClientFor(apis[config.moduleId := config], other, globalUrl) == ClientFor(apis, other, globalUrl)
  {
  }

  /** Each pre-registered module gets a client on the global URL; an
      unknown module is an error. */
  lemma InitialClients(globalUrl: string)
    ensures ClientFor(InitialApis, "video-analysis", globalUrl) == Ok(ApiClient(globalUrl, DefaultHeaders))
    ensures ClientFor(InitialApis, "pose-estimation", globalUrl).Err?
  {
    assert "pose-estimation" !in PrototypeNames;
  }

  /** The module-level `moduleApis` record. */
  class ModuleApiRegistry {
    var apis: map<string, ModuleApiConfig>
    /** `API_CONFIG.baseUrl`, fixed when the module loads. */
    const globalBaseUrl: string

    constructor (viteApiUrl: Option<string>)
      ensures apis == InitialApis && globalBaseUrl == GlobalBaseUrl(viteApiUrl)
    {
      apis := InitialApis;
      globalBaseUrl := GlobalBaseUrl(viteApiUrl);
    }

    /** `getModuleApi(moduleId)`; the thrown error is `Err`. */
    method GetModuleApi(moduleId: string) returns (r: Result<ApiClient, string>)
      ensures r == ClientFor(apis, moduleId, globalBaseUrl)
    {
      if moduleId !in apis && moduleId !in PrototypeNames {
        return Err("未找到模块API配置: " + moduleId);
      }
      var baseUrl := globalBaseUrl;
      if moduleId in apis {
        var c := apis[moduleId];
        if c.baseUrl.Some? && c.baseUrl.value != "" {
          baseUrl := c.baseUrl.value;
        }
      }
      r := Ok(ApiClient(baseUrl, DefaultHeaders));
    }

    /** `registerModuleApi(config)`: inserts or overwrites by module id. */
    method RegisterModuleApi(config: ModuleApiConfig)
      modifies this`apis
      ensures apis == old(apis)[config.moduleId := config]
    {
      apis := apis[config.moduleId := config];
    }

    /** `getAllModuleApis()`: a copy of the registry, which later
        registrations do not change. */
    method GetAllModuleApis() returns (all: map<string, ModuleApiConfig>)
      ensures all == apis
    {
      all := apis;
    }
  }
}
