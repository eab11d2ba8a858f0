/**
 * `proxyHandler` (`handler_proxy.go`): forwards a request for a registered
 * API group to that group's backend over TLS, asserting the caller's
 * identity with front-proxy headers. The handler's settings are changed in
 * place by the proxy controller's manager.
 *
 * The request context mapper, `http.NewRequest`, `restclient.TransportFor`,
 * `TLSConfigFor` and `HTTPWrappersForConfig` are not modelled: the context
 * is a parameter and the library outcomes come in a `ProxyEnv`. The
 * upgrade-aware proxy that finally carries the request is the `Forward`
 * result.
 */
module HandlerProxy {
  import opened Wrappers
  import opened KubeErrors
  import opened RestClient
  import opened Http

  /**
   * The transport configuration: the handler's TLS settings and nothing
   * else; the handler presents no bearer token of its own.
   */
  function ProxyConfig(insecureSkipTLSVerify: bool, tls: TLSClientConfig): (cfg: Config)
    ensures cfg.insecure == insecureSkipTLSVerify && cfg.tlsClientConfig == tls
    ensures cfg.bearerToken == "" && cfg.host == "" && cfg.qps == 0 && cfg.burst == 0
  {
    EmptyConfig.(insecure := insecureSkipTLSVerify, tlsClientConfig := tls)
  }

  class ProxyHandler {
    var enabled: bool
    var destinationHost: string
    var proxyTLSConfig: TLSClientConfig
    var insecureSkipTLSVerify: bool

    /** The zero handler the manager starts from: disabled, no destination. */
    constructor ()
      ensures !enabled && destinationHost == "" && proxyTLSConfig == EmptyTLSClientConfig && !insecureSkipTLSVerify
    {
      enabled := false;
      destinationHost := "";
      proxyTLSConfig := EmptyTLSClientConfig;
      insecureSkipTLSVerify := false;
    }

    /**
     * `ServeHTTP`: a disabled handler answers 404 with an empty body; a
     * request without a context or without a user is a 500. Otherwise the
     * request is rebuilt for the backend (same method, path, query values,
     * a fresh copy of the header, length and transfer encoding) and
     * forwarded with the handler's TLS settings as the caller; a
     * `Connection` header makes it an upgrade. A failure to build the
     * transport, or for an upgrade the TLS config or the wrappers, is a 500
     * with the library's message. The caller's identity is asserted on
     * upgraded requests too (`Http.TransportOutcome`), where the Go handler
     * drops it (`Http.TransportOutcomeAsWritten`).
     */
    method ServeHTTP(req: Request, ctx: Option<RequestContext>, env: ProxyEnv) returns (r: ProxyResult)
      ensures !enabled ==> r == TextError(404, "")
      ensures enabled && ctx.None? ==> r == TextError(500, "missing context")
      ensures enabled && ctx.Some? && ctx.value.user.None? ==> r == TextError(500, "missing user")
      ensures enabled && ctx.Some? && ctx.value.user.Some? && env.newRequestError.Some? ==>
                r == NewRequestFailure(env.newRequestError.value)
      ensures enabled && ctx.Some? && ctx.value.user.Some? && env.newRequestError.None? && env.transportError.Some? ==>
                r == TextError(500, env.transportError.value)
      ensures && enabled && ctx.Some? && ctx.value.user.Some? && env.newRequestError.None? && env.transportError.None?
              && WantsUpgrade(req.header.values) && env.tlsConfigError.Some? ==>
                r == TextError(500, env.tlsConfigError.value)
      ensures && enabled && ctx.Some? && ctx.value.user.Some? && env.newRequestError.None? && env.transportError.None?
              && WantsUpgrade(req.header.values) && env.tlsConfigError.None? && env.wrappersError.Some? ==>
                r == TextError(500, env.wrappersError.value)
      ensures r.Forward? <==>
                && enabled && ctx.Some? && ctx.value.user.Some? && env.newRequestError.None?
                && env.transportError.None?
                && (WantsUpgrade(req.header.values) ==> env.tlsConfigError.None? && env.wrappersError.None?)
      ensures r.Forward? ==>
                && r.location == ProxyLocation(destinationHost, req.url)
                && r.request.url == r.location
                && r.request.httpMethod == req.httpMethod
                && fresh(r.request.header)
                && r.request.header.values == MergeAppend(map[], req.header.values)
                && r.request.contentLength == req.contentLength
                && r.request.transferEncoding == req.transferEncoding
                && r.config == ProxyConfig(insecureSkipTLSVerify, proxyTLSConfig)
                && r.authProxyUser == ctx.value.user
                && r.upgrade == WantsUpgrade(req.header.values)
      ensures req.header.values == old(req.header.values)
    {
      if !enabled {
        return TextError(404, "");
      }
      if ctx.None? {
        return TextError(500, "missing context");
      }
      var user := ctx.value.user;
      if user.None? {
        return TextError(500, "missing user");
      }
      var query := AddQueryValues(map[], req.url.query);
      var location := URL("https", destinationHost, req.url.path, query);
      if env.newRequestError.Some? {
        return NewRequestFailure(env.newRequestError.value);
      }
      var header := new Header(map[]);
      CopyHeader(header, req.header.values);
      var newReq := OutRequest(req.httpMethod, location, header, req.contentLength, req.transferEncoding);
      var cfg := ProxyConfig(insecureSkipTLSVerify, proxyTLSConfig);
      var upgrade := WantsUpgrade(req.header.values);
      r := TransportOutcome(env, location, newReq, cfg, user, upgrade);
    }

    /** `getDestinationHost`. */
    function GetDestinationHost(): string
      reads this
    {
      destinationHost
    }

    /** `SetDestinationHost`: changes the backend host and nothing else. */
    method SetDestinationHost(destinationHost: string)
      modifies this
      ensures this.destinationHost == destinationHost
      ensures enabled == old(enabled) && proxyTLSConfig == old(proxyTLSConfig)
      ensures insecureSkipTLSVerify == old(insecureSkipTLSVerify)
    {
      this.destinationHost := destinationHost;
    }

    /** `isEnabled`. */
    function IsEnabled(): bool
      reads this
    {
      enabled
    }

    /** `SetEnabled`: switches serving on or off and changes nothing else. */
    method SetEnabled(enabled: bool)
      modifies this
      ensures this.enabled == enabled
      ensures destinationHost == old(destinationHost) && proxyTLSConfig == old(proxyTLSConfig)
      ensures insecureSkipTLSVerify == old(insecureSkipTLSVerify)
    {
      this.enabled := enabled;
    }

    /** `getTLSConfig`. */
    function GetTLSConfig(): TLSClientConfig
      reads this
    {
      proxyTLSConfig
    }

    /** `SetTLSConfig`: replaces the client TLS settings and nothing else. */
    method SetTLSConfig(tlsConfig: TLSClientConfig)
      modifies this
      ensures proxyTLSConfig == tlsConfig
      ensures enabled == old(enabled) && destinationHost == old(destinationHost)
      ensures insecureSkipTLSVerify == old(insecureSkipTLSVerify)
    {
      proxyTLSConfig := tlsConfig;
    }

    /** `isInsecureSkipTLSVerify`. */
    function IsInsecureSkipTLSVerify(): bool
      reads this
    {
      insecureSkipTLSVerify
    }

    /** `SetInsecureSkipTLSVerify`: changes whether the backend's certificate is checked, and nothing else. */
    method SetInsecureSkipTLSVerify(insecureSkipTLSVerify: bool)
      modifies this
      ensures this.insecureSkipTLSVerify == insecureSkipTLSVerify
      ensures enabled == old(enabled) && destinationHost == old(destinationHost)
      ensures proxyTLSConfig == old(proxyTLSConfig)
    {
      this.insecureSkipTLSVerify := insecureSkipTLSVerify;
    }
  }
}
