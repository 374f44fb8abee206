/**
 * The adapter's module state (service/src/chatgpt/index.ts): the settings
 * read once at load time, and the client and its kind, which the init block
 * assigns while the module loads; they stay unset only if that block throws.
 */
module Service {
  import opened Wrappers
  import opened Environment
  import opened TokenLimits
  import opened BaseUrl
  import opened Proxy
  import opened ApiClient
  import opened Reply
  import opened Config

  class ChatGPTService {
    const env: Env
    const timeoutMs: int
    const disableDebug: bool
    const model: string
    /** `api`; `None` unless the init block completed. */
    var api: Option<Client>
    /** `apiModel`; `None` (`undefined`) unless the init block completed. */
    var apiModel: Option<ApiModel>

    /** The load-time check passed, the settings come from `env`, and a set client is the one `env` selects. */
    ghost predicate Valid()
      reads this
    {
      && HasCredentials(env)
      && disableDebug == DisableDebug(env)
      && model == ModelName(env)
      && (api.Some? <==> apiModel.Some?)
      && (api.Some? ==> api.value == ClientFor(env, model, disableDebug) && apiModel.value == ApiModelOf(api.value))
    }

    /** The module-level constants; `Load` performs the check that must come first. */
    constructor (env: Env, toNumber: string -> Option<int>)
      requires HasCredentials(env)
      ensures Valid()
      ensures this.env == env && timeoutMs == TimeoutMs(env, toNumber)
      ensures api == None && apiModel == None
    {
      this.env := env;
      timeoutMs := TimeoutMs(env, toNumber);
      disableDebug := DisableDebug(env);
      model := ModelName(env);
      api := None;
      apiModel := None;
    }

    /** Loading the module: it throws unless an API key or an access token is non-empty. */
    static method Load(env: Env, toNumber: string -> Option<int>) returns (r: Result<ChatGPTService, string>)
      ensures r.Err? <==> !HasCredentials(env)
      ensures r.Err? ==> r.error == MissingCredentials
      ensures r.Ok? ==> fresh(r.value) && r.value.Valid() && r.value.env == env
      ensures r.Ok? ==> r.value.timeoutMs == TimeoutMs(env, toNumber) && r.value.apiModel == None
    {
      if !IsNotEmptyString(Lookup(env, ApiKeyVar)) && !IsNotEmptyString(Lookup(env, AccessTokenVar)) {
        return Err(MissingCredentials);
      }
      var service := new ChatGPTService(env, toNumber);
      return Ok(service);
    }

    /** The init block: builds the options field by field, binds the proxy, and records the client and its kind. */
    method Initialise()
      requires Valid()
      modifies this
      ensures Valid()
      ensures api == Some(ClientFor(env, model, disableDebug))
      ensures apiModel == Some(if IsNotEmptyString(Lookup(env, ApiKeyVar)) then ChatGPTAPI else ChatGPTUnofficialProxyAPI)
    {
      if IsNotEmptyString(Lookup(env, ApiKeyVar)) {
        var baseUrl := Lookup(env, ApiBaseUrlVar);
        var options := OfficialOptions(env[ApiKeyVar], CompletionParams(model, None, None), !disableDebug,
                                       None, None, None, None);
        var limits := TokenLimitsFor(model);
        options := options.(maxModelTokens := limits.maxModelTokens, maxResponseTokens := limits.maxResponseTokens);
        if IsNotEmptyString(baseUrl) {
          options := options.(apiBaseUrl := NormaliseBaseUrl(baseUrl));
        }
        var fetch := SetupProxy(env);
        options := options.(fetch := fetch);
        api := Some(Official(options));
        apiModel := Some(ChatGPTAPI);
      } else {
        var reverseProxy := Lookup(env, ReverseProxyVar);
        var options := UnofficialOptions(env[AccessTokenVar],
                                         if IsNotEmptyString(reverseProxy) then reverseProxy.value else DefaultReverseProxy,
                                         model, !disableDebug, None);
        var fetch := SetupProxy(env);
        options := options.(fetch := fetch);
        api := Some(Unofficial(options));
        apiModel := Some(ChatGPTUnofficialProxyAPI);
      }
    }

    /** `currentModel`: the kind of the client the environment selects, once the init block has run. */
    function CurrentModel(): (m: Option<ApiModel>)
      reads this
      requires Valid()
      ensures m.Some? <==> api.Some?
      ensures m.Some? ==> (m.value == ChatGPTAPI <==> IsNotEmptyString(Lookup(env, ApiKeyVar)))
    {
      apiModel
    }

    /** `chatConfig`: the report over the current state. */
    function ChatConfig(): (r: ModelConfig)
      reads this
      ensures r == ConfigReport(env, apiModel, timeoutMs)
      ensures r.apiModel == apiModel && r.timeoutMs == timeoutMs
      ensures r.socksProxy != "-" <==> ProxyFor(env).Socks?
      ensures ProxyFor(env).Https? ==> r.httpsProxy == ProxyFor(env).proxy
    {
      SocksReportMatchesProxy(env, apiModel, timeoutMs);
      ConfigReport(env, apiModel, timeoutMs)
    }

    /**
     * `chatReplyProcess`: sends the message with the options the current
     * client kind calls for; a failure becomes a `Fail` with the translated
     * message. `sendMessage` stands for the client library's call, including
     * its failure when the init block failed and no client is set.
     */
    method ChatReplyProcess<M>(req: ChatRequest, sendMessage: (Option<Client>, string, SendOptions) -> Result<M, ChatError>)
      returns (r: Response<M>)
      ensures var sent := sendMessage(api, req.message, SendOptionsFor(apiModel, model, timeoutMs, req));
        (sent.Ok? ==> r == Success(sent.value)) && (sent.Err? ==> r == Fail(FailureMessage(sent.error)))
    {
      var options := BuildSendOptions(apiModel, model, timeoutMs, req);
      var response := sendMessage(api, req.message, options);
      match response
      case Ok(message) =>
        r := Success(message);
      case Err(error) =>
        r := Fail(FailureMessage(error));
    }
  }
}
