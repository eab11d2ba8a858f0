/**
 * The parts of Go's `net/http` and `net/url` the proxy handlers use:
 * multi-valued maps (`url.Values`, and the map behind `http.Header`), the
 * header object requests share, request and URL values, and the outcome
 * of a proxying handler.
 *
 * Header keys are taken to be in canonical form already, as the server
 * delivers them; `Add` therefore does not rewrite keys here.
 */
module Http {
  import opened Wrappers
  import opened KubeErrors
  import RestClient

  /** `url.Values`, and the contents of an `http.Header`. */
  type Values = map<string, seq<string>>

  /** The values under `k`, none if absent. */
  function ValuesOf(h: Values, k: string): seq<string>
  {
    if k in h then h[k] else []
  }

  /** `h.Add(k, v)`: appends v to the values of k. */
  function AddValue(h: Values, k: string, v: string): (r: Values)
    ensures ValuesOf(r, k) == ValuesOf(h, k) + [v]
    ensures forall k' :: k' != k ==> ValuesOf(r, k') == ValuesOf(h, k') && (k' in r <==> k' in h)
    ensures k in r
  {
    h[k := ValuesOf(h, k) + [v]]
  }

  /** `h.Get(k)`: the first value of k, or "" when there is none. */
  function GetFirst(h: Values, k: string): (r: string)
    ensures |ValuesOf(h, k)| > 0 ==> r == ValuesOf(h, k)[0]
    ensures |ValuesOf(h, k)| == 0 ==> r == ""
  {
    if k in h && |h[k]| > 0 then h[k][0] else ""
  }

  /**
   * The result of adding every value of `src` to `dst`, key by key: each
   * key keeps dst's values and then gets src's, in src's order; a key
   * appears if dst had it or src has a value for it.
   */
  function MergeAppend(dst: Values, src: Values): (r: Values)
    ensures forall k :: ValuesOf(r, k) == ValuesOf(dst, k) + ValuesOf(src, k)
    ensures forall k :: k in r <==> k in dst || |ValuesOf(src, k)| > 0
  {
    map k | k in dst.Keys + src.Keys && (k in dst || |src[k]| > 0) :: ValuesOf(dst, k) + ValuesOf(src, k)
  }

  /** Two maps with the same keys and the same values under each key are equal. */
  lemma ValuesExt(a: Values, b: Values)
    requires forall k :: (k in a <==> k in b) && ValuesOf(a, k) == ValuesOf(b, k)
    ensures a == b
  {
    forall k | k in a ensures a[k] == b[k] {
      assert ValuesOf(a, k) == ValuesOf(b, k);
    }
  }

  /** `h.Add(k, v)` for each v of vs in order; with no values nothing changes. */
  function AddValues(h: Values, k: string, vs: seq<string>): (r: Values)
    ensures ValuesOf(r, k) == ValuesOf(h, k) + vs
    ensures forall k' :: k' != k ==> ValuesOf(r, k') == ValuesOf(h, k') && (k' in r <==> k' in h)
    ensures k in r <==> k in h || |vs| > 0
  {
    if |vs| == 0 then h else h[k := ValuesOf(h, k) + vs]
  }

  /** One more `Add` extends the values added so far. */
  lemma AddValuesStep(h: Values, k: string, vs: seq<string>, v: string)
    ensures AddValue(AddValues(h, k, vs), k, v) == AddValues(h, k, vs + [v])
  {
    assert ValuesOf(h, k) + vs + [v] == ValuesOf(h, k) + (vs + [v]);
  }

  /** Merging one more source key adds that key's values to the merge so far. */
  lemma MergeStep(dst: Values, part: Values, k: string, vs: seq<string>)
    requires k !in part
    ensures MergeAppend(dst, part[k := vs]) == AddValues(MergeAppend(dst, part), k, vs)
  {
    var a, b := MergeAppend(dst, part[k := vs]), AddValues(MergeAppend(dst, part), k, vs);
    forall k' ensures (k' in a <==> k' in b) && ValuesOf(a, k') == ValuesOf(b, k') {
      MergeStepAt(dst, part, k, vs, k');
    }
    ValuesExt(a, b);
  }

  lemma MergeStepAt(dst: Values, part: Values, k: string, vs: seq<string>, k': string)
    requires k !in part
    ensures var a, b := MergeAppend(dst, part[k := vs]), AddValues(MergeAppend(dst, part), k, vs);
      (k' in a <==> k' in b) && ValuesOf(a, k') == ValuesOf(b, k')
  {
    var p := part[k := vs];
    if k' == k {
      assert ValuesOf(p, k) == vs;
      assert ValuesOf(part, k) == [];
    } else {
      assert ValuesOf(p, k') == ValuesOf(part, k');
    }
  }

  /** Taking one more key off the remaining ones adds its entry to the done part. */
  lemma RemainingStep(src: Values, keys: set<string>, k: string)
    requires k in keys && keys <= src.Keys
    ensures src - (keys - {k}) == (src - keys)[k := src[k]]
    ensures k !in src - keys
  {
  }

  /** Merging nothing leaves dst as it is; dst's values are never removed or reordered. */
  lemma MergeAppendKeeps(dst: Values, src: Values)
    ensures MergeAppend(dst, map[]) == dst
    ensures forall k :: k in dst ==> k in MergeAppend(dst, src) && MergeAppend(dst, src)[k][..|dst[k]|] == dst[k]
  {
    var r := MergeAppend(dst, map[]);
    forall k ensures (k in r <==> k in dst) && ValuesOf(r, k) == ValuesOf(dst, k) {
      assert ValuesOf(map[], k) == [];
    }
    ValuesExt(r, dst);
    forall k | k in dst ensures k in MergeAppend(dst, src) && MergeAppend(dst, src)[k][..|dst[k]|] == dst[k] {
      assert ValuesOf(MergeAppend(dst, src), k) == dst[k] + ValuesOf(src, k);
    }
  }

  /** An `http.Header`: a map that requests share by reference and `Add` changes in place. */
  class Header {
    var values: Values

    constructor (values: Values)
      ensures this.values == values
    {
      this.values := values;
    }

    /** `h.Add(k, v)`. */
    method Add(k: string, v: string)
      modifies this
      ensures values == AddValue(old(values), k, v)
    {
      values := AddValue(values, k, v);
    }

    /** `h.Get(k)`. */
    function Get(k: string): string
      reads this
    {
      GetFirst(values, k)
    }
  }

  /**
   * `copyHeader(dst, src)` (declared alike in `handler_proxy.go` and
   * `apiserver.go`): `dst.Add(k, v)` for every key of src, in any order,
   * and every value of that key, in order.
   */
  method CopyHeader(dst: Header, src: Values)
    modifies dst
    ensures dst.values == MergeAppend(old(dst.values), src)
  {
    ghost var d0 := dst.values;
    ghost var done: Values := map[];
    MergeAppendKeeps(d0, map[]);
    var keys := src.Keys;
    while keys != {}
      invariant keys <= src.Keys && done == src - keys
      invariant dst.values == MergeAppend(d0, done)
      decreases keys
    {
      var k :| k in keys;
      MergeStep(d0, done, k, src[k]);
      RemainingStep(src, keys, k);
      AddEach(dst, k, src[k]);
      done := done[k := src[k]];
      keys := keys - {k};
    }
    assert src - {} == src;
  }

  /** The inner loop of `copyHeader`: `dst.Add(k, v)` for each value, in order. */
  method AddEach(dst: Header, k: string, vs: seq<string>)
    modifies dst
    ensures dst.values == AddValues(old(dst.values), k, vs)
  {
    ghost var h0 := dst.values;
    for j := 0 to |vs|
      invariant dst.values == AddValues(h0, k, vs[..j])
    {
      AddValuesStep(h0, k, vs[..j], vs[j]);
      assert vs[..j + 1] == vs[..j] + [vs[j]];
      dst.Add(k, vs[j]);
    }
    assert vs[..|vs|] == vs;
  }

  /**
   * The query loop of the proxy handlers: `values.Add(k, v)` for every key
   * of src, in any order, and every value of that key, in order.
   */
  method AddQueryValues(dst: Values, src: Values) returns (values: Values)
    ensures values == MergeAppend(dst, src)
  {
    values := dst;
    ghost var done: Values := map[];
    MergeAppendKeeps(dst, map[]);
    var keys := src.Keys;
    while keys != {}
      invariant keys <= src.Keys && done == src - keys
      invariant values == MergeAppend(dst, done)
      decreases keys
    {
      var k :| k in keys;
      MergeStep(dst, done, k, src[k]);
      RemainingStep(src, keys, k);
      values := AddEachValue(values, k, src[k]);
      done := done[k := src[k]];
      keys := keys - {k};
    }
    assert src - {} == src;
  }

  /** The inner loop of the query copy: `values.Add(k, v)` for each value, in order. */
  method AddEachValue(h: Values, k: string, vs: seq<string>) returns (values: Values)
    ensures values == AddValues(h, k, vs)
  {
    values := h;
    for j := 0 to |vs|
      invariant values == AddValues(h, k, vs[..j])
    {
      AddValuesStep(h, k, vs[..j], vs[j]);
      assert vs[..j + 1] == vs[..j] + [vs[j]];
      values := AddValue(values, k, vs[j]);
    }
    assert vs[..|vs|] == vs;
  }

  // ---------------------------------------------------------------------
  // Requests and proxying outcomes
  // ---------------------------------------------------------------------

  /** A parsed URL; the query is kept as values (its encoding is not modelled). */
  datatype URL = URL(scheme: string, host: string, path: string, query: Values)

  /** The location a request is proxied to: https, the backend host, the request's path and query values. */
  function ProxyLocation(destinationHost: string, u: URL): (loc: URL)
  {
    URL("https", destinationHost, u.path, MergeAppend(map[], u.query))
  }

  /**
   * The location keeps the request's path and every query value, in order;
   * only keys without values are dropped (an encoded query cannot hold them).
   */
  lemma ProxyLocationKeepsRequest(destinationHost: string, u: URL)
    ensures var loc := ProxyLocation(destinationHost, u);
      && loc.scheme == "https" && loc.host == destinationHost && loc.path == u.path
      && (forall k :: ValuesOf(loc.query, k) == ValuesOf(u.query, k))
      && (forall k :: k in loc.query <==> k in u.query && |u.query[k]| > 0)
  {
    var q := ProxyLocation(destinationHost, u).query;
    forall k ensures ValuesOf(q, k) == ValuesOf(u.query, k) {
      assert ValuesOf(map[], k) == [];
    }
  }

  /** The authenticated user a request context may carry. */
  datatype UserInfo = UserInfo(name: string, groups: seq<string>, extra: map<string, seq<string>>)

  datatype RequestContext = RequestContext(user: Option<UserInfo>)

  /** An inbound request; its header is an object the handler may share. */
  datatype Request = Request(
    httpMethod: string,
    url: URL,
    requestURI: string,
    header: Header,
    contentLength: int,
    transferEncoding: seq<string>)

  /** The outbound request a proxy handler builds. */
  datatype OutRequest = OutRequest(
    httpMethod: string,
    url: URL,
    header: Header,
    contentLength: int,
    transferEncoding: seq<string>)

  /**
   * What a proxy handler does with a request: answer with an error, or hand
   * the outbound request to the upgrade-aware proxy with the transport
   * configuration, the user the auth-proxy round tripper asserts (if any)
   * and whether the connection is upgraded.
   */
  datatype ProxyResult =
    | TextError(code: int, text: string)
    | StatusJSON(code: int, status: Status)
    | Forward(location: URL, request: OutRequest, config: RestClient.Config,
              authProxyUser: Option<UserInfo>, upgrade: bool)

  /**
   * The outcomes of the library calls a proxy handler makes, none of which
   * is modelled: building the request, building the transport, and, for an
   * upgrade, building the TLS config and the wrappers.
   */
  datatype ProxyEnv = ProxyEnv(
    newRequestError: Option<Error>,
    transportError: Option<string>,
    tlsConfigError: Option<string>,
    wrappersError: Option<string>)

  /** The `Connection` header asks for an upgrade exactly when its first value is non-empty. */
  predicate WantsUpgrade(header: Values)
  {
    |GetFirst(header, "Connection")| > 0
  }

  /** Failing to build the outbound request: a StatusError with its own code, any other error with 500. */
  function NewRequestFailure(e: Error): (r: ProxyResult)
    ensures e.StatusError? ==> r == StatusJSON(e.status.code, e.status)
    ensures e.PlainError? ==> r == TextError(500, e.message)
  {
    match e
    case StatusError(s) => StatusJSON(s.code, s)
    case PlainError(m) => TextError(500, m)
  }

  /**
   * After the outbound request exists, as written: a transport error is a
   * 500; an upgrade also needs the TLS config and the wrappers, each failure
   * a 500; otherwise the request is forwarded. The auth-proxy round tripper
   * wraps the plain transport only, and the upgrade branch replaces the
   * round tripper with the wrapped upgrade one, so an upgraded request
   * carries no front-proxy identity.
   */
  function TransportOutcomeAsWritten(env: ProxyEnv, location: URL, out: OutRequest, cfg: RestClient.Config,
                                     user: Option<UserInfo>, upgrade: bool): (r: ProxyResult)
    ensures r.Forward? <==> env.transportError.None? && (upgrade ==> env.tlsConfigError.None? && env.wrappersError.None?)
    ensures r.Forward? ==> r == Forward(location, out, cfg, if upgrade then None else user, upgrade)
    ensures !r.Forward? ==> r.TextError? && r.code == 500
  {
    if env.transportError.Some? then TextError(500, env.transportError.value)
    else if upgrade && env.tlsConfigError.Some? then TextError(500, env.tlsConfigError.value)
    else if upgrade && env.wrappersError.Some? then TextError(500, env.wrappersError.value)
    else if upgrade then Forward(location, out, cfg, None, upgrade)
    else Forward(location, out, cfg, user, upgrade)
  }

  /**
   * The same outcome with the caller's identity asserted on every forwarded
   * request, upgraded or not: the auth-proxy round tripper wraps whichever
   * round tripper finally carries the request.
   */
  function TransportOutcome(env: ProxyEnv, location: URL, out: OutRequest, cfg: RestClient.Config,
                            user: Option<UserInfo>, upgrade: bool): (r: ProxyResult)
    ensures r.Forward? <==> env.transportError.None? && (upgrade ==> env.tlsConfigError.None? && env.wrappersError.None?)
    ensures r.Forward? ==> r == Forward(location, out, cfg, user, upgrade)
    ensures !r.Forward? ==> r.TextError? && r.code == 500
  {
    if env.transportError.Some? then TextError(500, env.transportError.value)
    else if upgrade && env.tlsConfigError.Some? then TextError(500, env.tlsConfigError.value)
    else if upgrade && env.wrappersError.Some? then TextError(500, env.wrappersError.value)
    else Forward(location, out, cfg, user, upgrade)
  }

  /**
   * As written, a successful upgrade of an authenticated request is
   * forwarded with no user at all.
   */
  lemma UpgradeDropsIdentity(location: URL, out: OutRequest, cfg: RestClient.Config, u: UserInfo)
    ensures var env := ProxyEnv(None, None, None, None);
      && TransportOutcomeAsWritten(env, location, out, cfg, Some(u), true).Forward?
      && TransportOutcomeAsWritten(env, location, out, cfg, Some(u), true).authProxyUser.None?
      && TransportOutcome(env, location, out, cfg, Some(u), true).authProxyUser == Some(u)
  {
  }

  /**
   * The two outcomes fail alike and forward the same request; they differ
   * only in the identity of an upgraded request.
   */
  lemma AsWrittenDiffersOnlyInUpgradeIdentity(env: ProxyEnv, location: URL, out: OutRequest, cfg: RestClient.Config,
                                              user: Option<UserInfo>, upgrade: bool)
    ensures var w := TransportOutcomeAsWritten(env, location, out, cfg, user, upgrade);
            var c := TransportOutcome(env, location, out, cfg, user, upgrade);
      && (w.Forward? <==> c.Forward?)
      && (!c.Forward? ==> w == c)
      && (c.Forward? ==> w == c.(authProxyUser := if upgrade then None else user))
      && (!upgrade ==> w == c)
  {
  }
}
