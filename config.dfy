/** The configuration report the `/config` route returns: `chatConfig` in service/src/chatgpt/index.ts. */
module Config {
  import opened Wrappers
  import opened Environment
  import opened Proxy
  import opened ApiClient

  /** `ModelConfig`; `-` marks a setting that is not there. */
  datatype ModelConfig = ModelConfig(
    apiModel: Option<ApiModel>,
    reverseProxy: string,
    timeoutMs: int,
    socksProxy: string,
    httpsProxy: string)

  /**
   * The report. `reverseProxy` falls back to `-` only for an absent variable;
   * `httpsProxy` prefers a non-empty `HTTPS_PROXY`, otherwise shows
   * `ALL_PROXY` even when it is empty, and falls back to `-` only when that
   * is absent; `socksProxy` is `host:port` only when both are non-empty.
   */
  function ConfigReport(env: Env, apiModel: Option<ApiModel>, timeoutMs: int): (r: ModelConfig)
    ensures r.apiModel == apiModel && r.timeoutMs == timeoutMs
    ensures ReverseProxyVar in env ==> r.reverseProxy == env[ReverseProxyVar]
    ensures ReverseProxyVar !in env ==> r.reverseProxy == "-"
    ensures SocksConfigured(env) ==> r.socksProxy == env[SocksHostVar] + ":" + env[SocksPortVar]
    ensures !SocksConfigured(env) ==> r.socksProxy == "-"
    ensures IsNotEmptyString(Lookup(env, HttpsProxyVar)) ==> r.httpsProxy == env[HttpsProxyVar]
    ensures !IsNotEmptyString(Lookup(env, HttpsProxyVar)) && AllProxyVar in env ==> r.httpsProxy == env[AllProxyVar]
    ensures !IsNotEmptyString(Lookup(env, HttpsProxyVar)) && AllProxyVar !in env ==> r.httpsProxy == "-"
  {
    var reverseProxy := Coalesce(Lookup(env, ReverseProxyVar), "-");
    var httpsProxy := Coalesce(Or(Lookup(env, HttpsProxyVar), Lookup(env, AllProxyVar)), "-");
    var host, port := Lookup(env, SocksHostVar), Lookup(env, SocksPortVar);
    var socksProxy := if IsNotEmptyString(host) && IsNotEmptyString(port) then host.value + ":" + port.value else "-";
    ModelConfig(apiModel, reverseProxy, timeoutMs, socksProxy, httpsProxy)
  }

  /** The SOCKS entry names a proxy exactly when requests go through SOCKS, and then the one they use. */
  lemma SocksReportMatchesProxy(env: Env, apiModel: Option<ApiModel>, timeoutMs: int)
    ensures var r := ConfigReport(env, apiModel, timeoutMs);
      (r.socksProxy != "-" <==> ProxyFor(env).Socks?) &&
      (ProxyFor(env).Socks? ==> r.socksProxy == ProxyFor(env).hostname + ":" + ProxyFor(env).port)
  {
  }

  /** When requests go through an HTTPS proxy, the report names that proxy. */
  lemma HttpsReportMatchesProxy(env: Env, apiModel: Option<ApiModel>, timeoutMs: int)
    requires ProxyFor(env).Https?
    ensures ConfigReport(env, apiModel, timeoutMs).httpsProxy == ProxyFor(env).proxy
  {
  }

  /** For a direct connection no proxy is reported, except that an empty `ALL_PROXY` shows as an empty string. */
  lemma DirectReport(env: Env, apiModel: Option<ApiModel>, timeoutMs: int)
    requires ProxyFor(env) == Direct
    ensures var r := ConfigReport(env, apiModel, timeoutMs);
      r.socksProxy == "-" && (r.httpsProxy == "-" || r.httpsProxy == "")
  {
  }

  /** With SOCKS in use the report still names a configured HTTPS proxy, although requests do not use it. */
  lemma UnusedHttpsReported(env: Env, apiModel: Option<ApiModel>, timeoutMs: int)
    requires SocksConfigured(env) && IsNotEmptyString(Lookup(env, HttpsProxyVar))
    ensures ProxyFor(env).Socks?
    ensures ConfigReport(env, apiModel, timeoutMs).httpsProxy == env[HttpsProxyVar]
  {
  }

  /**
   * For the reverse-proxy client, an empty `API_REVERSE_PROXY` is reported
   * as the empty string while the client uses the default URL.
   */
  lemma EmptyReverseProxyReported(env: Env, model: string, disableDebug: bool, timeoutMs: int)
    requires !IsNotEmptyString(Lookup(env, ApiKeyVar)) && IsNotEmptyString(Lookup(env, AccessTokenVar))
    requires Lookup(env, ReverseProxyVar) == Some("")
    ensures ConfigReport(env, Some(ChatGPTUnofficialProxyAPI), timeoutMs).reverseProxy == ""
    ensures ClientFor(env, model, disableDebug).unofficial.apiReverseProxyUrl == DefaultReverseProxy
  {
  }
}
