# ChatGPT adapter configuration rules, in Dafny

This project models the server-side adapter of a chat web application that
forwards user messages to an OpenAI-compatible service
(`service/src/chatgpt/index.ts`). The adapter contains no algorithm of its own.
What it does contain is a set of configuration and decision rules, and each of
them is stated and proved here:

- **Authentication mode.** Loading fails unless an API key or an access token is
  non-empty. A non-empty API key selects the official client (`ChatGPTAPI`).
  Otherwise the access token selects the reverse-proxy client
  (`ChatGPTUnofficialProxyAPI`), and the reverse-proxy URL has a default.
- **Token limits by model name.** A case-insensitive cascade of substring tests
  sets `maxModelTokens` and `maxResponseTokens`, or leaves both unset.
- **Base URL.** `/v1` is appended unless the URL already contains it.
- **Proxy agent.** SOCKS is used when host and port are set. Otherwise
  `HTTPS_PROXY` is used, then `ALL_PROXY`. Otherwise the connection is direct.
- **Per-request options.** They depend on the client kind and on whether the
  request continues a conversation.
- **Error translation.** A fixed table maps HTTP status codes to messages.
  Other errors fall back to the error's own message, then to a fixed hint.
- **Configuration report.** The `/config` route shows the settings, with `-`
  for absent ones.

The environment is a `map<string, string>`, and an absent name reads as
`undefined`. `isNotEmptyString` means "present with at least one character". On
a string-or-undefined this is the same as JavaScript truthiness, so it also
models the `||`, `&&` and ternary tests on environment values.
The helper `Environment.NonEmptyOrUndefined` is the
`isNotEmptyString(v) ? v : undefined` idiom. What that idiom yields for the
SOCKS credentials and the system message is stated by
`Proxy.SocksCredentials` and `Reply.OfficialSendOptions`.

Files and modules:

- `wrappers.dfy` (`Wrappers`): `Option` and `Result`.
- `text.dfy` (`Text`): ASCII `toLowerCase`, substring search, and lemmas about
  occurrence.
- `environment.dfy` (`Environment`): variable names, lookup, and the JavaScript
  `||` and `??` operators.
- `token_limits.dfy` (`TokenLimits`): the model-name cascade.
- `base_url.dfy` (`BaseUrl`): base-URL normalisation.
- `proxy.dfy` (`Proxy`): proxy precedence (`ProxyFor`), and `setupProxy` as a
  method proved against it.
- `api_client.dfy` (`ApiClient`): the load-time settings and the client options
  (`ClientFor`).
- `reply.dfy` (`Reply`): the per-request options (`SendOptionsFor`, with the
  step-by-step `BuildSendOptions` proved against it) and error translation.
- `config.dfy` (`Config`): the configuration report, and how it relates to the
  proxy actually used.
- `service.dfy` (`Service`): the module state as a class. It holds the settings
  fixed at load time, plus `api` and `apiModel`, which the init block assigns.

## Model

| member | source | states |
|---|---|---|
| Text.ContainsTransitive | service/src/chatgpt/index.ts:51-80 | (`Text.Contains` models `includes` and the literal-alternative `.test` calls) an occurrence of `u` inside an occurrence of `t` in `s` is an occurrence of `u` in `s` |
| Text.NotContainsMissingChar | service/src/chatgpt/index.ts:51-80 | a string with a character absent from `s` is not contained in `s` |
| Text.ContainsSuffix | service/src/chatgpt/index.ts:83 | a string appended to another is contained in the result, so an appended `/v1` is found by `includes` |
| Text.Lower | service/src/chatgpt/index.ts:51 | the lower-cased name has the same length, and each character is lower-cased on its own (ASCII mapping) |
| TokenLimits.TokenLimitsFor | service/src/chatgpt/index.ts:50-76 | the two limits are both set or both unset; the response budget is at most a quarter of the context; every gpt-4 name gets limits |
| TokenLimits.TurboHasO | service/src/chatgpt/index.ts:62 | any name containing `-turbo` contains `o`, so that alternative of the regular expression never decides anything |
| TokenLimits.Gpt4Limits | service/src/chatgpt/index.ts:51-69 | for gpt-4 names: `32k` gives 32768/8192 and beats every other rule; then `-4o-mini` gives 128000/16384; then `-preview` or any `o` gives 128000/4096; otherwise 8192/2048 |
| TokenLimits.UnsetLimits | service/src/chatgpt/index.ts:71-76 | both limits stay unset exactly when the name is not gpt-4 and is not a gpt-3.5 name containing `16k`, `1106` or `0125` |
| TokenLimits.Gpt35Limits | service/src/chatgpt/index.ts:71-75 | a gpt-3.5 name (not gpt-4) containing `16k`, `1106` or `0125` gets 16384/4096 |
| TokenLimits.LargeContextOnlyForGpt4 | service/src/chatgpt/index.ts:57-65 | a 128000-token context is given only to gpt-4 names without `32k` that contain `-preview` or `o` |
| TokenLimits.CaseInsensitive | service/src/chatgpt/index.ts:51-72 | the limits of a name and of its lower-cased form are equal |
| TokenLimits.DefaultModelUnset | service/src/chatgpt/index.ts:71-76 | the default model `gpt-3.5-turbo` gets no limits |
| TokenLimits.MiniModelLimits | service/src/chatgpt/index.ts:57-59 | `gpt-4o-mini` gets 128000/16384, although it also matches the `o` rule that comes after it |
| TokenLimits.AnyOMatches | service/src/chatgpt/index.ts:61-65 | the bare `o` alternative gives `openai/gpt-4` the 128000/4096 limits |
| BaseUrl.NormaliseBaseUrl | service/src/chatgpt/index.ts:78-84 | set exactly for a non-empty URL; the result always contains `/v1`, starts with the given URL, and either equals it or adds `/v1` to a URL that lacked it |
| BaseUrl.NormaliseIdempotent | service/src/chatgpt/index.ts:78-84 | normalising twice equals normalising once |
| Proxy.ProxyFor | service/src/chatgpt/index.ts:154-177 | the precedence SOCKS, then `HTTPS_PROXY`, then `ALL_PROXY`, then direct; no agent is ever given an empty host, port, credential or proxy URL |
| Proxy.SetupProxy | service/src/chatgpt/index.ts:153-179 | `fetch` is assigned on every path, including the inner `if (httpsProxy)`, and is bound to the proxy of the precedence rule |
| Proxy.SocksChosen | service/src/chatgpt/index.ts:154-157 | SOCKS is used exactly when host and port are both non-empty, with those values |
| Proxy.SocksCredentials | service/src/chatgpt/index.ts:158-159 | user name and password are passed exactly when non-empty |
| Proxy.HttpsChosen | service/src/chatgpt/index.ts:165-168 | an HTTPS agent is used exactly when SOCKS is not configured and `HTTPS_PROXY` or `ALL_PROXY` is non-empty; a non-empty `HTTPS_PROXY` is preferred |
| Proxy.DirectChosen | service/src/chatgpt/index.ts:174-177 | the connection is direct exactly when none of the proxy settings applies |
| Proxy.SocksOverridesHttps | service/src/chatgpt/index.ts:154-165 | with SOCKS configured, setting `HTTPS_PROXY` and `ALL_PROXY` to any strings, or removing both, leaves the choice unchanged |
| Proxy.HttpsOverridesAll | service/src/chatgpt/index.ts:166 | with a non-empty `HTTPS_PROXY` and no SOCKS, setting `ALL_PROXY` to any string or removing it has no effect |
| ApiClient.TimeoutMs | service/src/chatgpt/index.ts:26 | an absent `TIMEOUT_MS`, or one that converts to NaN, gives 100000 ms; otherwise the converted number |
| ApiClient.DisableDebug | service/src/chatgpt/index.ts:27 | debug output is disabled exactly when `OPENAI_API_DISABLE_DEBUG` is the string `true` |
| ApiClient.ModelName | service/src/chatgpt/index.ts:30 | the model is `OPENAI_API_MODEL` when non-empty, otherwise `gpt-3.5-turbo`; it is never empty |
| ApiClient.ClientFor | service/src/chatgpt/index.ts:41-102 | the official client is chosen exactly when the API key is non-empty; its key is `OPENAI_API_KEY`; its base URL, when set, contains `/v1`; the reverse-proxy client has a non-empty token and URL; `debug` is the negation of `disableDebug` |
| ApiClient.ApiKeyWins | service/src/chatgpt/index.ts:41-45 | a non-empty API key selects `ChatGPTAPI` even when an access token is also set |
| ApiClient.ReverseProxyDefault | service/src/chatgpt/index.ts:90-96 | without an API key, the reverse-proxy client takes the access token and the model, and uses `API_REVERSE_PROXY` when non-empty or else `https://ai.fakeopen.com/api/conversation` |
| ApiClient.FetchAlwaysSet | service/src/chatgpt/index.ts:85-98 | both kinds of client get `fetch` bound to the selected proxy |
| ApiClient.OfficialSettings | service/src/chatgpt/index.ts:44-84 | the official client's key is `OPENAI_API_KEY` and `debug` is the negation of `disableDebug`; its completion parameters hold only the model; its limits are those of the model name; its base URL is the normalised `OPENAI_API_BASE_URL` |
| Reply.SendOptionsFor | service/src/chatgpt/index.ts:108-121 | completion parameters are sent exactly to the official client; a conversation id never reaches it; a sent system message is non-empty; a sent timeout is the configured one |
| Reply.BuildSendOptions | service/src/chatgpt/index.ts:108-121 | the options assembled one assignment at a time equal the case-by-case definition |
| Reply.TimeoutDroppedOnlyByContext | service/src/chatgpt/index.ts:108-120 | the timeout is sent unless a reverse-proxy client (or one whose init block failed) continues a conversation |
| Reply.OfficialSendOptions | service/src/chatgpt/index.ts:110-118 | for the official client: the system message only when non-empty; `{model, temperature, top_p}` as completion parameters; from a context only the parent message id; never a conversation id |
| Reply.ContextReplacesOptions | service/src/chatgpt/index.ts:116-120 | for the reverse-proxy client a context replaces the options: both ids, and no timeout, system message or completion parameters |
| Reply.UnofficialWithoutContext | service/src/chatgpt/index.ts:108-121 | without a context, a reverse-proxy client (or one whose init block failed) is sent exactly `{ timeoutMs }` |
| Reply.UnofficialIgnoresSettings | service/src/chatgpt/index.ts:110-120 | the reverse-proxy client's options do not depend on the model, system message, temperature or top_p |
| Reply.FailureMessage | service/src/chatgpt/index.ts:133-137 | a recognised status code gives its table entry; otherwise the error's message; otherwise `Please check the back-end console` |
| Reply.RecognisedCodes | service/src/chatgpt/index.ts:17-24 | the table covers exactly 401, 403, 500, 502, 503 and 504, with a distinct message for each |
| Reply.RecognisedCodeIgnoresMessage | service/src/chatgpt/index.ts:135-136 | for a recognised code the error's own message never shows, and the result is never the fallback hint |
| Config.ConfigReport | service/src/chatgpt/index.ts:141-149 | `reverseProxy` is `-` only for an absent variable; `httpsProxy` prefers a non-empty `HTTPS_PROXY`, passes an empty `ALL_PROXY` through, and is `-` only when `ALL_PROXY` is absent; `socksProxy` is `host:port` when both are non-empty, else `-` |
| Config.SocksReportMatchesProxy | service/src/chatgpt/index.ts:144-146 | the SOCKS entry differs from `-` exactly when requests go through SOCKS, and then it names that proxy |
| Config.HttpsReportMatchesProxy | service/src/chatgpt/index.ts:143 | when requests use an HTTPS agent, the report names its proxy |
| Config.DirectReport | service/src/chatgpt/index.ts:143-146 | for a direct connection the SOCKS entry is `-`, and the HTTPS entry is `-` or the empty string |
| Config.UnusedHttpsReported | service/src/chatgpt/index.ts:143 | with SOCKS in use, a non-empty `HTTPS_PROXY` is still reported, although requests do not use it |
| Config.EmptyReverseProxyReported | service/src/chatgpt/index.ts:142 | an empty `API_REVERSE_PROXY` is reported as the empty string while the client uses the default URL |
| Service.ChatGPTService.constructor | service/src/chatgpt/index.ts:26-30 | the load-time settings come from the environment; no client is set yet |
| Service.ChatGPTService.Load | service/src/chatgpt/index.ts:33-34 | loading fails, with the source's message, exactly when neither API key nor access token is non-empty |
| Service.ChatGPTService.Initialise | service/src/chatgpt/index.ts:38-103 | after the init block, the client is the one the environment selects, and `apiModel` is `ChatGPTAPI` exactly when the API key is non-empty |
| Service.ChatGPTService.CurrentModel | service/src/chatgpt/index.ts:181-183 | the reported kind is set exactly when a client is, and is `ChatGPTAPI` exactly when the API key is non-empty |
| Service.ChatGPTService.ChatConfig | service/src/chatgpt/index.ts:141-151 | the report is `ConfigReport` over the current environment, `apiModel` and `timeoutMs`, so all five fields are those `Config.ConfigReport` pins down; its SOCKS entry differs from `-` exactly when requests go through SOCKS; an HTTPS agent's proxy is the one reported |
| Service.ChatGPTService.ChatReplyProcess | service/src/chatgpt/index.ts:105-139 | the message is sent with the options for the current client kind; success is returned as `Success`, and any failure as `Fail` with the translated message |

## Left out

- `src/api/index.ts` is not part of this model. It holds the browser's HTTP call wrappers, which only send fixed payloads.
- The client library is not modelled. This covers `api.sendMessage`, the `onProgress` streaming callback, and `sendResponse`. `ChatReplyProcess` takes the send call as a function parameter, and `Response` stands for the object `sendResponse` receives.
- The agent and `fetch` objects are not modelled. `ProxyChoice` records which agent is built and with which arguments, but not the agent itself.
- `setupProxy` is modelled as returning the value it stores into `options.fetch`, and its caller stores that value. This is equivalent because each options record has a single owner.
- Reading `.env` files and `process.env` is not modelled. The environment is an input map.
- `ApiClient.TimeoutMs` does not model JavaScript's unary `+` conversion, because its rules for whitespace, hex and fractions are outside this adapter. It takes that conversion as a parameter that returns `None` for NaN. Timeouts are integers.
- The init block is an async function without any `await`, so it runs to completion while the module loads, before any request can arrive. `apiModel` and `api` stay `undefined` only if the block throws, for example in a client constructor. The model keeps `Initialise` as a separate step, so the state without a client stands for a failed init block. Exceptions inside the block are not modelled.
- Console logging and the effect of the `debug` flag are not modelled.
- `Text.Lower` does not model JavaScript's Unicode case mapping, only ASCII. For example, the Kelvin sign lower-cases to `k` in JavaScript, so it could match `32k` there, but not in this model.
- `Reply.FailureMessage` takes the status code as an optional integer. The model does not cover a string status code such as `"401"`, which `Reflect.has` also finds, nor property names inherited by the table object. It also does not cover a thrown value that is not an object.
- The context is spread as its two ids. Any extra fields a client puts into `lastContext` are not modelled.
- `temperature` and `top_p` are modelled as optional reals, passed through unchanged.
