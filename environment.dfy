/**
 * The process environment as the adapter reads it, and the JavaScript
 * operators it applies to environment values.
 */
module Environment {
  import opened Wrappers

  // The variables the adapter reads.
  const ApiKeyVar := "OPENAI_API_KEY"
  const AccessTokenVar := "OPENAI_ACCESS_TOKEN"
  const ApiModelVar := "OPENAI_API_MODEL"
  const ApiBaseUrlVar := "OPENAI_API_BASE_URL"
  const DisableDebugVar := "OPENAI_API_DISABLE_DEBUG"
  const TimeoutVar := "TIMEOUT_MS"
  const ReverseProxyVar := "API_REVERSE_PROXY"
  const SocksHostVar := "SOCKS_PROXY_HOST"
  const SocksPortVar := "SOCKS_PROXY_PORT"
  const SocksUserVar := "SOCKS_PROXY_USERNAME"
  const SocksPasswordVar := "SOCKS_PROXY_PASSWORD"
  const HttpsProxyVar := "HTTPS_PROXY"
  const AllProxyVar := "ALL_PROXY"

  /** Environment variables by name; an absent name reads as `undefined`. */
  type Env = map<string, string>

  /** `process.env[name]`. */
  function Lookup(env: Env, name: string): (v: Option<string>)
    ensures v.Some? <==> name in env
    ensures v.Some? ==> v.value == env[name]
  {
    if name in env then Some(env[name]) else None
  }

  /**
   * `isNotEmptyString(v)`: a string with at least one character. For a
   * string-or-undefined this is also JavaScript truthiness.
   */
  predicate IsNotEmptyString(v: Option<string>) {
    v.Some? && |v.value| > 0
  }

  /** `a || b` on strings-or-undefined. */
  function Or(a: Option<string>, b: Option<string>): Option<string> {
    if IsNotEmptyString(a) then a else b
  }

  /** `a ?? d`: the fallback replaces only `undefined`, never the empty string. */
  function Coalesce(a: Option<string>, d: string): string {
    a.GetOr(d)
  }

  /** `isNotEmptyString(v) ? v : undefined`. */
  function NonEmptyOrUndefined(v: Option<string>): (r: Option<string>)
    ensures r.Some? <==> IsNotEmptyString(v)
    ensures r.Some? ==> r == v
  {
    if IsNotEmptyString(v) then v else None
  }
}
