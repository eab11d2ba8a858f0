/**
 * The server command's configuration helpers (`cmd/server/start.go`): the
 * default serving settings, the loopback client configuration the server
 * uses to reach itself, and the storage options of each resource.
 *
 * `net.SplitHostPort` is a parameter; `net.JoinHostPort` and `path.Join`
 * (on the clean constants it is given) are written out.
 */
module ServerStart {
  import opened Wrappers
  import opened RestClient

  const DefaultConfigDir := "openshift.local.config/kube-aggregator"
  const DefaultEtcdPathPrefix := "/registry/openshift.io/kube-aggregator"

  datatype CertKey = CertKey(certFile: string, keyFile: string)

  /** The secure serving settings the loopback client is derived from. */
  datatype SecureServingInfo = SecureServingInfo(bindAddress: string, serverCert: CertKey, clientCA: string)

  /** `net.JoinHostPort`: `host:port`, with the host in brackets when it contains a colon. */
  function JoinHostPort(host: string, port: string): (r: string)
    ensures ':' !in host ==> r == host + ":" + port
    ensures ':' in host ==> r == "[" + host + "]:" + port
  {
    if ':' in host then "[" + host + "]:" + port else host + ":" + port
  }

  /** `path.Join(dir, file)` for a clean directory and a plain file name. */
  function JoinPath(dir: string, file: string): string
  {
    dir + "/" + file
  }

  /** The serving settings `RunDiscoveryServer` uses: every interface on port 8444, a certificate pair under the config directory. */
  function DefaultServingInfo(clientCA: string): (info: SecureServingInfo)
    ensures info.bindAddress == "0.0.0.0:8444"
    ensures info.serverCert == CertKey("openshift.local.config/kube-aggregator/apiserver.crt",
                                       "openshift.local.config/kube-aggregator/apiserver.key")
    ensures info.clientCA == clientCA
  {
    SecureServingInfo(JoinHostPort("0.0.0.0", "8444"),
                      CertKey(JoinPath(DefaultConfigDir, "apiserver.crt"), JoinPath(DefaultConfigDir, "apiserver.key")),
                      clientCA)
  }

  /** The host the loopback client dials: the wildcard address becomes the loopback address. */
  function LoopbackHost(host: string): (r: string)
    ensures host == "0.0.0.0" ==> r == "127.0.0.1"
    ensures host != "0.0.0.0" ==> r == host
  {
    if host == "0.0.0.0" then "127.0.0.1" else host
  }

  /**
   * `newSelfClientConfig`: when the bind address splits, a client for
   * `https://host:port` (the wildcard host replaced by loopback) trusting
   * the serving certificate, with the given token and raised rate limits;
   * otherwise the split error and no configuration.
   */
  function NewSelfClientConfig(servingInfo: SecureServingInfo, token: string,
                               splitHostPort: string -> Result<(string, string), string>): (r: Result<Config, string>)
    ensures splitHostPort(servingInfo.bindAddress).Err? ==> r == Err(splitHostPort(servingInfo.bindAddress).error)
    ensures splitHostPort(servingInfo.bindAddress).Ok? ==>
              var (host, port) := splitHostPort(servingInfo.bindAddress).value;
              && r.Ok?
              && r.value.host == "https://" + JoinHostPort(LoopbackHost(host), port)
              && r.value.tlsClientConfig == EmptyTLSClientConfig.(caFile := servingInfo.serverCert.certFile)
              && r.value.bearerToken == token
              && r.value.qps == 50 && r.value.burst == 100
              && !r.value.insecure
  {
    match splitHostPort(servingInfo.bindAddress)
    case Err(e) => Err(e)
    case Ok((host, port)) =>
      Ok(EmptyConfig.(qps := 50, burst := 100,
                      host := "https://" + JoinHostPort(LoopbackHost(host), port),
                      tlsClientConfig := EmptyTLSClientConfig.(caFile := servingInfo.serverCert.certFile),
                      bearerToken := token))
  }

  /**
   * With the default serving settings, and a `SplitHostPort` that splits
   * the default bind address "0.0.0.0:8444" into its host and port (as
   * `net.SplitHostPort` does), the server reaches itself at
   * https://127.0.0.1:8444, trusting its own generated certificate.
   */
  lemma DefaultSelfClient(token: string, clientCA: string, splitHostPort: string -> Result<(string, string), string>)
    requires splitHostPort("0.0.0.0:8444") == Ok(("0.0.0.0", "8444"))
    ensures var r := NewSelfClientConfig(DefaultServingInfo(clientCA), token, splitHostPort);
      && r.Ok? && r.value.host == "https://127.0.0.1:8444"
      && r.value.tlsClientConfig.caFile == "openshift.local.config/kube-aggregator/apiserver.crt"
  {
    assert JoinHostPort("0.0.0.0", "8444") == "0.0.0.0:8444";
    assert ':' !in "127.0.0.1";
  }

  /** The storage options of one resource. */
  datatype RESTOptions = RESTOptions(storagePrefix: string, deleteCollectionWorkers: int,
                                     enableGarbageCollection: bool, resourcePrefix: string)

  /** `restOptionsFactory.NewFor`: one delete worker, no garbage collection, keys under prefix/group/resource. */
  function NewFor(storagePrefix: string, group: string, resource: string): (o: RESTOptions)
    ensures o.storagePrefix == storagePrefix && o.deleteCollectionWorkers == 1 && !o.enableGarbageCollection
    ensures |o.resourcePrefix| == |storagePrefix| + |group| + |resource| + 2
    ensures o.resourcePrefix[..|storagePrefix|] == storagePrefix
    ensures o.resourcePrefix[|storagePrefix|..] == "/" + group + "/" + resource
  {
    RESTOptions(storagePrefix, 1, false, storagePrefix + "/" + group + "/" + resource)
  }

  /** In `a + "/" + b` with no "/" in a, the first "/" is the one after a. */
  lemma FirstSlash(a: string, b: string)
    requires '/' !in a
    ensures var s := a + "/" + b; |a| < |s| && s[|a|] == '/' && forall i :: 0 <= i < |a| ==> s[i] != '/'
  {
    var s := a + "/" + b;
    forall i | 0 <= i < |a| ensures s[i] != '/' {
      assert s[i] == a[i];
    }
  }

  /** Two strings joined by "/" come apart again when the first has no "/". */
  lemma {:induction false} SplitAtSlash(a1: string, b1: string, a2: string, b2: string)
    requires '/' !in a1 && '/' !in a2
    requires a1 + "/" + b1 == a2 + "/" + b2
    ensures a1 == a2 && b1 == b2
  {
    var s := a1 + "/" + b1;
    FirstSlash(a1, b1);
    FirstSlash(a2, b2);
    assert |a1| == |a2|;
    assert a1 == s[..|a1|] == a2;
    assert b1 == s[|a1| + 1..] == b2;
  }

  /**
   * Resources of groups without "/" get distinct storage prefixes under the
   * same storage prefix, so no two resources share keys.
   */
  lemma ResourcePrefixInjective(storagePrefix: string, g1: string, r1: string, g2: string, r2: string)
    requires '/' !in g1 && '/' !in g2
    requires NewFor(storagePrefix, g1, r1).resourcePrefix == NewFor(storagePrefix, g2, r2).resourcePrefix
    ensures g1 == g2 && r1 == r2
  {
    var p1 := NewFor(storagePrefix, g1, r1).resourcePrefix;
    var p2 := NewFor(storagePrefix, g2, r2).resourcePrefix;
    assert p1 == storagePrefix + "/" + (g1 + "/" + r1);
    assert p2 == storagePrefix + "/" + (g2 + "/" + r2);
    assert g1 + "/" + r1 == p1[|storagePrefix| + 1..] == p2[|storagePrefix| + 1..] == g2 + "/" + r2;
    SplitAtSlash(g1, r1, g2, r2);
  }

  /** `DiscoveryServerOptions.Validate`: accepts any arguments. */
  function Validate(args: seq<string>): (err: Option<string>)
    ensures err.None?
  {
    None
  }

  /** `DiscoveryServerOptions.Complete`: nothing to complete. */
  function Complete(): (err: Option<string>)
    ensures err.None?
  {
    None
  }
}
