/**
 * The discovery handler of the aggregator's server (`apiserver.go`): the
 * `/api` route passes legacy requests straight through to the backend
 * registered as "v1.", and `getClient` keeps one discovery client per
 * backend name.
 *
 * The lister is a function of the object name; `http.NewRequest`,
 * `http.Client.Do` and `NewDiscoveryClientForConfig` are not modelled, only
 * whether they fail. The response body is a byte sequence read through a
 * buffer, one `Read` call at a time.
 */
module DiscoveryServer {
  import opened Wrappers
  import opened KubeErrors
  import opened Apifederation
  import opened RestClient
  import opened Http

  /** The name under which the legacy API server registers: version "v1", empty group. */
  const LegacyName := "v1."

  /** The capacity the relay buffer is allocated with. */
  const BufferCapacity := 1024

  // ---------------------------------------------------------------------
  // Relaying the response body
  // ---------------------------------------------------------------------

  /** What one `Read(buffer)` returns: the bytes read, and whether the body reported EOF. */
  datatype ReadResult = ReadResult(data: seq<Byte>, eof: bool)

  /**
   * One `Read` of a body of which `pos` bytes were already read, into a
   * buffer of length `bufLen`: at the end it reports EOF with no data;
   * otherwise it returns as many of the next bytes as fit, which is none
   * when the buffer has length 0.
   */
  function ReadBody(body: seq<Byte>, pos: nat, bufLen: nat): (r: ReadResult)
    requires pos <= |body|
    ensures r.eof <==> pos == |body|
    ensures r.eof ==> r.data == []
    ensures !r.eof ==> |r.data| == (if bufLen < |body| - pos then bufLen else |body| - pos)
    ensures body[..pos] + r.data == body[..pos + |r.data|]
  {
    if pos == |body| then ReadResult([], true)
    else
      var n := if bufLen < |body| - pos then bufLen else |body| - pos;
      assert body[..pos] + body[pos..pos + n] == body[..pos + n];
      ReadResult(body[pos..pos + n], false)
  }

  /**
   * The relay loop of the `/api` route: read into a buffer of length
   * `bufLen`, write what was read, stop after EOF. What is written is
   * always a prefix of the body, and all of it once EOF is seen. With a
   * non-empty buffer every read before EOF makes progress, so `|body| + 1`
   * reads suffice; with an empty buffer a non-empty body is never finished
   * and nothing is written. The loop is cut off after `fuel` reads.
   */
  method RelayBody(body: seq<Byte>, bufLen: nat, fuel: nat) returns (written: seq<Byte>, finished: bool)
    ensures written <= body
    ensures finished ==> written == body
    ensures bufLen > 0 && fuel > |body| ==> finished
    ensures bufLen == 0 && |body| > 0 ==> !finished && written == []
    ensures |body| == 0 && fuel > 0 ==> finished
  {
    var pos := 0;
    written := [];
    finished := false;
    var readCount := 0;
    while readCount < fuel && !finished
      invariant 0 <= pos <= |body| && written == body[..pos]
      invariant finished ==> pos == |body|
      invariant bufLen > 0 && !finished ==> readCount <= pos
      invariant bufLen == 0 ==> pos == 0 && (finished ==> |body| == 0)
      invariant readCount <= fuel
      invariant readCount > 0 && |body| == 0 ==> finished
      decreases fuel - readCount
    {
      var chunk := ReadBody(body, pos, bufLen);
      written := written + chunk.data;
      pos := pos + |chunk.data|;
      if chunk.eof {
        finished := true;
      }
      readCount := readCount + 1;
    }
  }

  /**
   * The relay as written: the buffer is made with length 0 (and capacity
   * 1024), so a non-empty response body is never relayed and the loop never
   * ends.
   */
  method RelayResponseAsWritten(body: seq<Byte>, fuel: nat) returns (written: seq<Byte>, finished: bool)
    ensures |body| > 0 ==> !finished && written == []
    ensures |body| == 0 && fuel > 0 ==> finished
  {
    written, finished := RelayBody(body, 0, fuel);
  }

  /** The relay with the buffer given its full length: the whole body is relayed. */
  method RelayResponse(body: seq<Byte>, fuel: nat) returns (written: seq<Byte>, finished: bool)
    ensures written <= body
    ensures finished ==> written == body
    ensures fuel > |body| ==> finished && written == body
  {
    written, finished := RelayBody(body, BufferCapacity, fuel);
  }

  // ---------------------------------------------------------------------
  // The /api route
  // ---------------------------------------------------------------------

  /** The URL the `/api` route sends a request to: the legacy backend's host and the request's own URI. */
  function LegacyURL(internalHost: string, requestURI: string): (u: string)
    ensures |u| == 8 + |internalHost| + |requestURI|
    ensures u[..8] == "https://" && u[8..|u| - |requestURI|] == internalHost
    ensures u[|u| - |requestURI|..] == requestURI
  {
    "https://" + internalHost + requestURI
  }

  /** The outcomes of the library calls the `/api` route makes. */
  datatype ApiEnv = ApiEnv(newRequestError: Option<string>, doError: Option<string>)

  /** The response the legacy backend returns. */
  datatype BackendResponse = BackendResponse(code: int, header: Values, body: seq<Byte>)

  /** The outbound request of the `/api` route. */
  datatype LegacyRequest = LegacyRequest(httpMethod: string, url: string, header: Header)

  /** What the `/api` route does: answer with an error, or relay the backend's response. */
  datatype ApiResult =
    | ApiText(code: int, text: string)
    | ApiStatus(code: int, status: Status)
    | Relayed(request: LegacyRequest, code: int, written: seq<Byte>, finished: bool)

  /**
   * The status the `/api` route answers a relayed response with, as
   * written: the handler never calls `WriteHeader`, so its first `Write`
   * sends an implicit 200 whatever the backend answered.
   */
  function RelayedCodeAsWritten(backend: BackendResponse): int
  {
    200
  }

  /**
   * As written, the client sees the backend's status exactly when that
   * status is 200: a 401, 404 or 503 from the backend reaches it as 200.
   */
  lemma RelayedCodeAsWrittenLosesStatus(backend: BackendResponse)
    ensures RelayedCodeAsWritten(backend) == backend.code <==> backend.code == 200
    ensures backend.code == 503 ==> RelayedCodeAsWritten(backend) == 200 != backend.code
  {
  }

  /** A discovery client, standing for the one built from this configuration. */
  datatype DiscoveryClient = DiscoveryClient(config: Config)

  /** The configuration `getClient` builds a backend's client from: the base with the backend's host, TLS unchecked. */
  function ClientConfig(base: Config, internalHost: string): (cfg: Config)
    ensures cfg.host == internalHost && cfg.insecure
    ensures cfg.bearerToken == base.bearerToken && cfg.tlsClientConfig == base.tlsClientConfig
    ensures cfg.qps == base.qps && cfg.burst == base.burst
  {
    base.(host := internalHost, insecure := true)
  }

  /**
   * `getClient` as a function of the cache: a cached client is returned as
   * is; otherwise a client is built, and stored under the backend's name
   * only when building succeeds.
   */
  function GetClientSpec(cache: map<string, DiscoveryClient>, base: Config, server: APIServer,
                         buildError: Config -> Option<string>): (out: (Result<DiscoveryClient, string>, map<string, DiscoveryClient>))
  {
    if server.Name() in cache then (Ok(cache[server.Name()]), cache)
    else
      var cfg := ClientConfig(base, server.spec.internalHost);
      match buildError(cfg)
      case Some(e) => (Err(e), cache)
      case None => (Ok(DiscoveryClient(cfg)), cache[server.Name() := DiscoveryClient(cfg)])
  }

  /**
   * The cache only grows, by at most the backend's own name, and a
   * successful call leaves the returned client cached under that name; so a
   * second call returns the same client and changes nothing.
   */
  lemma GetClientMemoises(cache: map<string, DiscoveryClient>, base: Config, server: APIServer,
                          buildError: Config -> Option<string>)
    ensures var (r, next) := GetClientSpec(cache, base, server, buildError);
      && (forall n :: n in cache ==> n in next && next[n] == cache[n])
      && (forall n :: n in next && n !in cache ==> n == server.Name())
      && (r.Ok? ==> server.Name() in next && next[server.Name()] == r.value)
      && (r.Ok? ==> GetClientSpec(next, base, server, buildError) == (r, next))
      && (r.Err? ==> next == cache && server.Name() !in cache)
  {
  }

  class DiscoveryHandler {
    const lister: string -> Result<APIServer, Error>
    var discoveryConfig: Config
    var versionsToDiscoveryClients: map<string, DiscoveryClient>

    /** The handler `New` installs: the informer's lister and an empty client cache. */
    constructor (lister: string -> Result<APIServer, Error>)
      ensures this.lister == lister && discoveryConfig == EmptyConfig && versionsToDiscoveryClients == map[]
    {
      this.lister := lister;
      discoveryConfig := EmptyConfig;
      versionsToDiscoveryClients := map[];
    }

    /**
     * The `/api` route: the "v1." backend is looked up; a StatusError is
     * answered with its own code and status, any other error with 500.
     * The request goes to that backend's host with the same URI, method
     * and a copy of the header; failing to build or to send it is a 500.
     * The backend's header values are added to the response header and
     * its body is relayed, under the backend's own status code (the Go
     * handler answers 200, see `RelayedCodeAsWritten`).
     */
    method ServeAPI(req: Request, env: ApiEnv, backend: BackendResponse, w: Header, fuel: nat)
        returns (r: ApiResult)
      modifies w
      ensures var lookup := lister(LegacyName);
        && (lookup.Err? && lookup.error.StatusError? ==> r == ApiStatus(lookup.error.status.code, lookup.error.status))
        && (lookup.Err? && lookup.error.PlainError? ==> r == ApiText(500, lookup.error.message))
        && (lookup.Ok? && env.newRequestError.Some? ==> r == ApiText(500, env.newRequestError.value))
        && (lookup.Ok? && env.newRequestError.None? && env.doError.Some? ==> r == ApiText(500, env.doError.value))
        && (r.Relayed? <==> lookup.Ok? && env.newRequestError.None? && env.doError.None?)
        && (r.Relayed? ==>
              && r.request.httpMethod == req.httpMethod
              && r.request.url == LegacyURL(lookup.value.spec.internalHost, req.requestURI)
              && fresh(r.request.header)
              && r.request.header.values == MergeAppend(map[], old(req.header.values))
              && r.code == backend.code
              && (fuel > |backend.body| ==> r.finished && r.written == backend.body))
      ensures r.Relayed? && w != req.header ==> w.values == MergeAppend(old(w.values), backend.header)
      ensures !r.Relayed? ==> w.values == old(w.values)
    {
      var lookup := lister(LegacyName);
      if lookup.Err? {
        match lookup.error
        case StatusError(s) => return ApiStatus(s.code, s);
        case PlainError(m) => return ApiText(500, m);
      }
      var urlStr := LegacyURL(lookup.value.spec.internalHost, req.requestURI);
      if env.newRequestError.Some? {
        return ApiText(500, env.newRequestError.value);
      }
      var header := new Header(map[]);
      CopyHeader(header, req.header.values);
      var proxyRequest := LegacyRequest(req.httpMethod, urlStr, header);
      if env.doError.Some? {
        return ApiText(500, env.doError.value);
      }
      CopyHeader(w, backend.header);
      var written, finished := RelayResponse(backend.body, fuel);
      r := Relayed(proxyRequest, backend.code, written, finished);
    }

    /**
     * `getClient`: the cached client for the backend's name if there is
     * one; otherwise a client built from the discovery configuration with
     * the backend's host and TLS unchecked, cached on success.
     */
    method GetClient(apiServer: APIServer, buildError: Config -> Option<string>)
        returns (r: Result<DiscoveryClient, string>)
      modifies this
      ensures (r, versionsToDiscoveryClients) ==
              GetClientSpec(old(versionsToDiscoveryClients), discoveryConfig, apiServer, buildError)
      ensures discoveryConfig == old(discoveryConfig)
    {
      if apiServer.Name() in versionsToDiscoveryClients {
        return Ok(versionsToDiscoveryClients[apiServer.Name()]);
      }
      var cfg := ClientConfig(discoveryConfig, apiServer.spec.internalHost);
      var err := buildError(cfg);
      if err.Some? {
        return Err(err.value);
      }
      var client := DiscoveryClient(cfg);
      versionsToDiscoveryClients := versionsToDiscoveryClients[apiServer.Name() := client];
      r := Ok(client);
    }
  }
}
