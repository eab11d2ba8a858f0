/**
 * The older `ProxyHandler` (`proxy.go`): forwards every request to one
 * backend host over TLS without verifying it, with a fixed bearer token,
 * and hands the inbound header object itself to the outbound request.
 *
 * As in the newer handler, the library calls' outcomes come in a
 * `ProxyEnv` and the upgrade-aware proxy is the `Forward` result.
 */
module Proxy {
  import opened Wrappers
  import opened KubeErrors
  import opened RestClient
  import opened Http

  /** The token the older handler always presents to the backend. */
  const FixedBearerToken := "deads/system:masters"

  /** The transport configuration: always insecure, always the fixed token, whatever the destination. */
  function FixedConfig(): (cfg: Config)
    ensures cfg.insecure && cfg.bearerToken == FixedBearerToken
    ensures cfg.tlsClientConfig == EmptyTLSClientConfig && cfg.host == ""
  {
    EmptyConfig.(insecure := true, bearerToken := FixedBearerToken)
  }

  class ProxyHandler {
    var enabled: bool
    var destinationHost: string

    constructor ()
      ensures !enabled && destinationHost == ""
    {
      enabled := false;
      destinationHost := "";
    }

    /**
     * `ServeHTTP`: a disabled handler answers 404 with body "{}". Otherwise
     * the request is rebuilt for the backend (same method, path and query
     * values, the very same header object, length and transfer encoding)
     * and forwarded with the fixed configuration and no asserted user; a
     * `Connection` header makes it an upgrade. A failure to build the
     * transport, or for an upgrade the TLS config or the wrappers, is a 500
     * with the library's message.
     */
    method ServeHTTP(req: Request, env: ProxyEnv) returns (r: ProxyResult)
      ensures !enabled ==> r == TextError(404, "{}")
      ensures enabled && env.newRequestError.Some? ==> r == NewRequestFailure(env.newRequestError.value)
      ensures enabled && env.newRequestError.None? && env.transportError.Some? ==>
                r == TextError(500, env.transportError.value)
      ensures && enabled && env.newRequestError.None? && env.transportError.None?
              && WantsUpgrade(req.header.values) && env.tlsConfigError.Some? ==>
                r == TextError(500, env.tlsConfigError.value)
      ensures && enabled && env.newRequestError.None? && env.transportError.None?
              && WantsUpgrade(req.header.values) && env.tlsConfigError.None? && env.wrappersError.Some? ==>
                r == TextError(500, env.wrappersError.value)
      ensures r.Forward? <==>
                && enabled && env.newRequestError.None? && env.transportError.None?
                && (WantsUpgrade(req.header.values) ==> env.tlsConfigError.None? && env.wrappersError.None?)
      ensures r.Forward? ==>
                && r.location == ProxyLocation(destinationHost, req.url)
                && r.request == OutRequest(req.httpMethod, r.location, req.header, req.contentLength, req.transferEncoding)
                && r.config == FixedConfig()
                && r.authProxyUser.None?
                && r.upgrade == WantsUpgrade(req.header.values)
    {
      if !enabled {
        return TextError(404, "{}");
      }
      var query := AddQueryValues(map[], req.url.query);
      var location := URL("https", destinationHost, req.url.path, query);
      if env.newRequestError.Some? {
        return NewRequestFailure(env.newRequestError.value);
      }
      var newReq := OutRequest(req.httpMethod, location, req.header, req.contentLength, req.transferEncoding);
      var cfg := FixedConfig();
      var upgrade := WantsUpgrade(req.header.values);
      r := TransportOutcome(env, location, newReq, cfg, None, upgrade);
    }

    /** `getDestinationHost`. */
    function GetDestinationHost(): string
      reads this
    {
      destinationHost
    }

    /** `SetDestinationHost`: changes the backend host and nothing else. */
    method SetDestinationHost(destinationHost: string)
      modifies this
      ensures this.destinationHost == destinationHost && enabled == old(enabled)
    {
      this.destinationHost := destinationHost;
    }

    /** `isEnabled`. */
    function IsEnabled(): bool
      reads this
    {
      enabled
    }

    /** `SetEnabled`: switches serving on or off and changes nothing else. */
    method SetEnabled(enabled: bool)
      modifies this
      ensures this.enabled == enabled && destinationHost == old(destinationHost)
    {
      this.enabled := enabled;
    }
  }
}
