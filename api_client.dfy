/**
 * The startup configuration and the client chosen from it: the module-level
 * constants and the init block of service/src/chatgpt/index.ts.
 */
module ApiClient {
  import opened Wrappers
  import opened Text
  import opened Environment
  import opened TokenLimits
  import opened BaseUrl
  import opened Proxy

  const DefaultModel := "gpt-3.5-turbo"
  const DefaultTimeoutMs := 100 * 1000
  const DefaultReverseProxy := "https://ai.fakeopen.com/api/conversation"
  const MissingCredentials := "Missing OPENAI_API_KEY or OPENAI_ACCESS_TOKEN environment variable"

  /** Which client class is in use. */
  datatype ApiModel = ChatGPTAPI | ChatGPTUnofficialProxyAPI

  /** `completionParams`; the init block gives only the model, each request adds the sampling settings. */
  datatype CompletionParams = CompletionParams(model: string, temperature: Option<real>, topP: Option<real>)

  /** The options of the official client (`ChatGPTAPIOptions`), as far as the adapter sets them. */
  datatype OfficialOptions = OfficialOptions(
    apiKey: string,
    completionParams: CompletionParams,
    debug: bool,
    maxModelTokens: Option<nat>,
    maxResponseTokens: Option<nat>,
    apiBaseUrl: Option<string>,
    fetch: Option<ProxyChoice>)

  /** The options of the reverse-proxy client (`ChatGPTUnofficialProxyAPIOptions`). */
  datatype UnofficialOptions = UnofficialOptions(
    accessToken: string,
    apiReverseProxyUrl: string,
    model: string,
    debug: bool,
    fetch: Option<ProxyChoice>)

  /** The constructed client, identified by the options it was built with. */
  datatype Client = Official(official: OfficialOptions) | Unofficial(unofficial: UnofficialOptions)

  function ApiModelOf(client: Client): ApiModel {
    match client
    case Official(_) => ChatGPTAPI
    case Unofficial(_) => ChatGPTUnofficialProxyAPI
  }

  /**
   * `timeoutMs`: `TIMEOUT_MS` converted by JavaScript's unary `+`, which
   * `toNumber` stands for (`None` is NaN); NaN gives the default. An absent
   * variable converts to NaN.
   */
  function TimeoutMs(env: Env, toNumber: string -> Option<int>): (t: int)
    ensures TimeoutVar !in env ==> t == DefaultTimeoutMs
    ensures TimeoutVar in env && toNumber(env[TimeoutVar]).Some? ==> t == toNumber(env[TimeoutVar]).value
    ensures TimeoutVar in env && toNumber(env[TimeoutVar]).None? ==> t == DefaultTimeoutMs
  {
    match Lookup(env, TimeoutVar)
    case None => DefaultTimeoutMs
    case Some(v) => toNumber(v).GetOr(DefaultTimeoutMs)
  }

  /** `disableDebug`: the variable is exactly the string `true`. */
  function DisableDebug(env: Env): (disabled: bool)
    ensures disabled <==> DisableDebugVar in env && env[DisableDebugVar] == "true"
  {
    Lookup(env, DisableDebugVar) == Some("true")
  }

  /** `model`: `OPENAI_API_MODEL` when non-empty, `gpt-3.5-turbo` otherwise. */
  function ModelName(env: Env): (m: string)
    ensures |m| > 0
    ensures IsNotEmptyString(Lookup(env, ApiModelVar)) ==> m == env[ApiModelVar]
    ensures !IsNotEmptyString(Lookup(env, ApiModelVar)) ==> m == DefaultModel
  {
    if IsNotEmptyString(Lookup(env, ApiModelVar)) then env[ApiModelVar] else DefaultModel
  }

  /** The startup check: an API key or an access token must be non-empty, or loading fails. */
  predicate HasCredentials(env: Env) {
    IsNotEmptyString(Lookup(env, ApiKeyVar)) || IsNotEmptyString(Lookup(env, AccessTokenVar))
  }

  /**
   * The client the init block builds, stated case by case: an API key makes
   * an official client, whose token limits follow the model name and whose
   * base URL is normalised; otherwise the access token makes a reverse-proxy
   * client. Both are bound to the proxy `ProxyFor` selects.
   */
  function ClientFor(env: Env, model: string, disableDebug: bool): (c: Client)
    requires HasCredentials(env)
    ensures ApiModelOf(c) == ChatGPTAPI <==> IsNotEmptyString(Lookup(env, ApiKeyVar))
    ensures c.Official? ==> c.official.apiKey == env[ApiKeyVar] && |c.official.apiKey| > 0
    ensures c.Official? ==> c.official.debug == !disableDebug
    ensures c.Official? && c.official.apiBaseUrl.Some? ==> Contains(c.official.apiBaseUrl.value, "/v1")
    ensures c.Unofficial? ==> |c.unofficial.accessToken| > 0 && |c.unofficial.apiReverseProxyUrl| > 0
    ensures c.Unofficial? ==> c.unofficial.debug == !disableDebug
  {
    if IsNotEmptyString(Lookup(env, ApiKeyVar)) then
      var limits := TokenLimitsFor(model);
      Official(OfficialOptions(
        env[ApiKeyVar], CompletionParams(model, None, None), !disableDebug,
        limits.maxModelTokens, limits.maxResponseTokens,
        NormaliseBaseUrl(Lookup(env, ApiBaseUrlVar)), Some(ProxyFor(env))))
    else
      Unofficial(UnofficialOptions(
        env[AccessTokenVar],
        if IsNotEmptyString(Lookup(env, ReverseProxyVar)) then env[ReverseProxyVar] else DefaultReverseProxy,
        model, !disableDebug, Some(ProxyFor(env))))
  }

  /** A non-empty API key selects the official client even when an access token is also set. */
  lemma ApiKeyWins(env: Env, model: string, disableDebug: bool)
    requires IsNotEmptyString(Lookup(env, ApiKeyVar)) && IsNotEmptyString(Lookup(env, AccessTokenVar))
    ensures ApiModelOf(ClientFor(env, model, disableDebug)) == ChatGPTAPI
    ensures ClientFor(env, model, disableDebug).official.apiKey == env[ApiKeyVar]
  {
  }

  /** Without an API key the reverse-proxy client uses the token, and the default URL unless `API_REVERSE_PROXY` is non-empty. */
  lemma ReverseProxyDefault(env: Env, model: string, disableDebug: bool)
    requires !IsNotEmptyString(Lookup(env, ApiKeyVar)) && IsNotEmptyString(Lookup(env, AccessTokenVar))
    ensures var c := ClientFor(env, model, disableDebug);
      c.Unofficial? && c.unofficial.accessToken == env[AccessTokenVar] && c.unofficial.model == model &&
      c.unofficial.apiReverseProxyUrl ==
        (if IsNotEmptyString(Lookup(env, ReverseProxyVar)) then env[ReverseProxyVar] else DefaultReverseProxy)
  {
  }

  /** Both clients have their `fetch` bound, to the proxy the environment selects. */
  lemma FetchAlwaysSet(env: Env, model: string, disableDebug: bool)
    requires HasCredentials(env)
    ensures var c := ClientFor(env, model, disableDebug);
      (if c.Official? then c.official.fetch else c.unofficial.fetch) == Some(ProxyFor(env))
  {
  }

  /** The official client's token limits and base URL are those the model name and `OPENAI_API_BASE_URL` give. */
  lemma OfficialSettings(env: Env, model: string, disableDebug: bool)
    requires IsNotEmptyString(Lookup(env, ApiKeyVar))
    ensures var o := ClientFor(env, model, disableDebug).official;
      o.apiKey == env[ApiKeyVar] && o.debug == !disableDebug &&
      o.completionParams == CompletionParams(model, None, None) &&
      Limits(o.maxModelTokens, o.maxResponseTokens) == TokenLimitsFor(model) &&
      o.apiBaseUrl == NormaliseBaseUrl(Lookup(env, ApiBaseUrlVar))
  {
  }
}
