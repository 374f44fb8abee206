/** How outgoing requests reach the API: `setupProxy` in service/src/chatgpt/index.ts. */
module Proxy {
  import opened Wrappers
  import opened Environment

  /** The agent the client's `fetch` is bound to. */
  datatype ProxyChoice =
    | Socks(hostname: string, port: string, userId: Option<string>, password: Option<string>)
    | Https(proxy: string)
    | Direct

  /** A SOCKS proxy is configured when both its host and its port are non-empty. */
  predicate SocksConfigured(env: Env) {
    IsNotEmptyString(Lookup(env, SocksHostVar)) && IsNotEmptyString(Lookup(env, SocksPortVar))
  }

  /**
   * The precedence, stated rule by rule: SOCKS, then `HTTPS_PROXY`, then
   * `ALL_PROXY`, then a direct connection.
   */
  function ProxyFor(env: Env): (r: ProxyChoice)
    ensures r.Socks? ==> |r.hostname| > 0 && |r.port| > 0
    ensures r.Socks? && r.userId.Some? ==> |r.userId.value| > 0
    ensures r.Socks? && r.password.Some? ==> |r.password.value| > 0
    ensures r.Https? ==> |r.proxy| > 0
  {
    if SocksConfigured(env) then
      Socks(env[SocksHostVar], env[SocksPortVar],
            NonEmptyOrUndefined(Lookup(env, SocksUserVar)),
            NonEmptyOrUndefined(Lookup(env, SocksPasswordVar)))
    else if IsNotEmptyString(Lookup(env, HttpsProxyVar)) then Https(env[HttpsProxyVar])
    else if IsNotEmptyString(Lookup(env, AllProxyVar)) then Https(env[AllProxyVar])
    else Direct
  }

  /**
   * `setupProxy`: the value it assigns to `options.fetch`, as the agent that
   * fetch uses (`None` would leave `options.fetch` unassigned). Every branch
   * assigns it: the inner `if (httpsProxy)` always holds.
   */
  method SetupProxy(env: Env) returns (fetch: Option<ProxyChoice>)
    ensures fetch == Some(ProxyFor(env))
  {
    fetch := None;
    if IsNotEmptyString(Lookup(env, SocksHostVar)) && IsNotEmptyString(Lookup(env, SocksPortVar)) {
      var userId := if IsNotEmptyString(Lookup(env, SocksUserVar)) then Lookup(env, SocksUserVar) else None;
      var password := if IsNotEmptyString(Lookup(env, SocksPasswordVar)) then Lookup(env, SocksPasswordVar) else None;
      fetch := Some(Socks(env[SocksHostVar], env[SocksPortVar], userId, password));
    } else if IsNotEmptyString(Lookup(env, HttpsProxyVar)) || IsNotEmptyString(Lookup(env, AllProxyVar)) {
      var httpsProxy := Or(Lookup(env, HttpsProxyVar), Lookup(env, AllProxyVar));
      if IsNotEmptyString(httpsProxy) {
        fetch := Some(Https(httpsProxy.value));
      }
    } else {
      fetch := Some(Direct);
    }
  }

  /** SOCKS is used exactly when host and port are both non-empty, with their values. */
  lemma SocksChosen(env: Env)
    ensures ProxyFor(env).Socks? <==> SocksConfigured(env)
    ensures ProxyFor(env).Socks? ==>
      ProxyFor(env).hostname == env[SocksHostVar] && ProxyFor(env).port == env[SocksPortVar]
  {
  }

  /** Credentials are passed to the SOCKS agent only when non-empty. */
  lemma SocksCredentials(env: Env)
    requires SocksConfigured(env)
    ensures ProxyFor(env).userId.Some? <==> IsNotEmptyString(Lookup(env, SocksUserVar))
    ensures ProxyFor(env).password.Some? <==> IsNotEmptyString(Lookup(env, SocksPasswordVar))
    ensures ProxyFor(env).userId.Some? ==> ProxyFor(env).userId.value == env[SocksUserVar]
    ensures ProxyFor(env).password.Some? ==> ProxyFor(env).password.value == env[SocksPasswordVar]
  {
  }

  /** An HTTPS agent is used exactly when SOCKS is not configured and one of the two variables is non-empty. */
  lemma HttpsChosen(env: Env)
    ensures ProxyFor(env).Https? <==>
      !SocksConfigured(env) &&
      (IsNotEmptyString(Lookup(env, HttpsProxyVar)) || IsNotEmptyString(Lookup(env, AllProxyVar)))
    ensures ProxyFor(env).Https? && IsNotEmptyString(Lookup(env, HttpsProxyVar)) ==>
      ProxyFor(env).proxy == env[HttpsProxyVar]
    ensures ProxyFor(env).Https? && !IsNotEmptyString(Lookup(env, HttpsProxyVar)) ==>
      ProxyFor(env).proxy == env[AllProxyVar]
  {
  }

  /** A direct connection is used exactly when none of the proxy settings applies. */
  lemma DirectChosen(env: Env)
    ensures ProxyFor(env) == Direct <==>
      !SocksConfigured(env) &&
      !IsNotEmptyString(Lookup(env, HttpsProxyVar)) && !IsNotEmptyString(Lookup(env, AllProxyVar))
  {
  }

  /** Once SOCKS is configured, neither setting nor removing the HTTPS variables can change the choice. */
  lemma SocksOverridesHttps(env: Env, https: string, all: string)
    requires SocksConfigured(env)
    ensures ProxyFor(env[HttpsProxyVar := https][AllProxyVar := all]) == ProxyFor(env)
    ensures ProxyFor(env - {HttpsProxyVar, AllProxyVar}) == ProxyFor(env)
  {
  }

  /** Once `HTTPS_PROXY` is non-empty and SOCKS is not configured, `ALL_PROXY` is ignored. */
  lemma HttpsOverridesAll(env: Env, all: string)
    requires !SocksConfigured(env) && IsNotEmptyString(Lookup(env, HttpsProxyVar))
    ensures ProxyFor(env[AllProxyVar := all]) == ProxyFor(env)
    ensures ProxyFor(env - {AllProxyVar}) == ProxyFor(env)
  {
  }
}
