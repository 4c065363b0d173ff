/**
 * Endpoint URLs as `config/api.js` builds them: a base chosen from an override,
 * the build mode or a fixed development address, and slash-joined paths.
 */
module EndpointConfig {
  import opened Strings

  /**
   * The build-time environment: `VITE_API_URL` ("" when unset, since an empty
   * value is falsy as well) and the `PROD` flag.
   */
  datatype BuildEnv = BuildEnv(viteApiUrl: string, prod: bool)

  const DevBaseUrl: string := "http://127.0.0.1:8000"
  const ProdBaseUrl: string := "/api"

  /** A set override wins verbatim, then the production proxy path, then the development address. */
  function ApiBaseUrl(env: BuildEnv): (base: string)
    ensures env.viteApiUrl != "" ==> base == env.viteApiUrl
    ensures env.viteApiUrl == "" && env.prod ==> base == ProdBaseUrl
    ensures env.viteApiUrl == "" && !env.prod ==> base == DevBaseUrl
    ensures base != ""
  {
    if env.viteApiUrl != "" then env.viteApiUrl
    else if env.prod then ProdBaseUrl
    else DevBaseUrl
  }

  /** At most one leading '/' is removed. */
  function CleanEndpoint(endpoint: string): (r: string)
    ensures StartsWith(endpoint, "/") ==> "/" + r == endpoint
    ensures !StartsWith(endpoint, "/") ==> r == endpoint
  {
    if StartsWith(endpoint, "/") then endpoint[1..] else endpoint
  }

  /** No separator when the base already ends with '/'. */
  function Separator(base: string): (sep: string)
    ensures sep == "" <==> EndsWith(base, "/")
    ensures sep == "" || sep == "/"
  {
    if EndsWith(base, "/") then "" else "/"
  }

  function BuildApiUrl(base: string, endpoint: string): (url: string)
    ensures url == base + Separator(base) + CleanEndpoint(endpoint)
    ensures StartsWith(url, base)
  {
    var url := base + Separator(base) + CleanEndpoint(endpoint);
    assert url[..|base|] == base;
    url
  }

  /** A leading slash on the endpoint makes no difference. */
  lemma LeadingSlashIgnored(base: string, x: string)
    requires !StartsWith(x, "/")
    ensures BuildApiUrl(base, "/" + x) == BuildApiUrl(base, x)
  {
    assert StartsWith("/" + x, "/");
    assert ("/" + x)[1..] == x;
  }

  /** Only one leading slash is removed: "//x" keeps a slash in front of x. */
  lemma OnlyOneSlashRemoved(base: string, x: string)
    ensures BuildApiUrl(base, "//" + x) == base + Separator(base) + "/" + x
  {
    assert StartsWith("//" + x, "/");
    assert ("//" + x)[1..] == "/" + x;
  }

  /**
   * Unless the base ends with "//" or the endpoint starts with "//", exactly one
   * '/' separates the base (minus its trailing slash) from the endpoint (minus
   * its leading slash).
   */
  lemma {:induction false} SingleSlashAtJoin(base: string, endpoint: string)
    requires !EndsWith(base, "//") && !StartsWith(endpoint, "//")
    ensures var stem := if EndsWith(base, "/") then base[..|base| - 1] else base;
      BuildApiUrl(base, endpoint) == stem + "/" + CleanEndpoint(endpoint) &&
      !EndsWith(stem, "/") && !StartsWith(CleanEndpoint(endpoint), "/")
  {
    if EndsWith(base, "/") {
      DropLastSlash(base);
      assert Separator(base) == "";
    } else {
      assert Separator(base) == "/";
    }
    if StartsWith(endpoint, "/") {
      DropFirstSlash(endpoint);
    }
  }

  /** The `API_ENDPOINTS` table. */
  datatype Endpoints = Endpoints(
    home: string, drift: string, timeline: string, snapshotInfo: string, alerts: string,
    resourceAnalysis: string, currentProcesses: string, triggerSnapshot: string, schedulerStatus: string)

  function ApiEndpoints(env: BuildEnv): (e: Endpoints)
    ensures var base := ApiBaseUrl(env);
      e.home == base + Separator(base) && e.drift == base + Separator(base) + "drift"
    ensures var base := ApiBaseUrl(env);
      e.timeline == base + Separator(base) + "timeline" &&
      e.snapshotInfo == base + Separator(base) + "snapshot-info" &&
      e.alerts == base + Separator(base) + "alerts"
    ensures var base := ApiBaseUrl(env);
      e.resourceAnalysis == base + Separator(base) + "resource-analysis" &&
      e.currentProcesses == base + Separator(base) + "current-processes"
    ensures var base := ApiBaseUrl(env);
      e.triggerSnapshot == base + Separator(base) + "trigger-snapshot" &&
      e.schedulerStatus == base + Separator(base) + "scheduler-status"
  {
    var base := ApiBaseUrl(env);
    assert CleanEndpoint("/") == "";
    assert CleanEndpoint("/drift") == "drift";
    assert CleanEndpoint("/timeline") == "timeline";
    assert CleanEndpoint("/snapshot-info") == "snapshot-info";
    assert CleanEndpoint("/alerts") == "alerts";
    assert CleanEndpoint("/resource-analysis") == "resource-analysis";
    assert CleanEndpoint("/current-processes") == "current-processes";
    assert CleanEndpoint("/trigger-snapshot") == "trigger-snapshot";
    assert CleanEndpoint("/scheduler-status") == "scheduler-status";
    Endpoints(
      BuildApiUrl(base, "/"), BuildApiUrl(base, "/drift"), BuildApiUrl(base, "/timeline"),
      BuildApiUrl(base, "/snapshot-info"), BuildApiUrl(base, "/alerts"),
      BuildApiUrl(base, "/resource-analysis"), BuildApiUrl(base, "/current-processes"),
      BuildApiUrl(base, "/trigger-snapshot"), BuildApiUrl(base, "/scheduler-status"))
  }

  /** `API_ENDPOINTS.PROCESS_DETAILS(pid)`. */
  function ProcessDetails(env: BuildEnv, pid: int): (url: string)
    ensures var base := ApiBaseUrl(env);
      url == BuildApiUrl(base, "/process-details/" + Decimal(pid)) &&
      url == base + Separator(base) + "process-details/" + Decimal(pid)
  {
    var path := "process-details/" + Decimal(pid);
    var endpoint := "/" + path;
    assert "/process-details/" + Decimal(pid) == endpoint;
    assert StartsWith(endpoint, "/");
    assert CleanEndpoint(endpoint) == path;
    BuildApiUrl(ApiBaseUrl(env), endpoint)
  }

  /** The production proxy path gives "/api/drift", the development address ".../drift". */
  lemma DriftUrls()
    ensures BuildApiUrl(ApiBaseUrl(BuildEnv("", true)), "/drift") == "/api/drift"
    ensures BuildApiUrl(ApiBaseUrl(BuildEnv("", false)), "/drift") == "http://127.0.0.1:8000/drift"
  {
    assert "/api"[4 - 1..] == "i";
    assert Separator(ProdBaseUrl) == "/";
    assert DevBaseUrl[|DevBaseUrl| - 1..] == "0";
    assert Separator(DevBaseUrl) == "/";
    assert CleanEndpoint("/drift") == "drift";
  }
}
