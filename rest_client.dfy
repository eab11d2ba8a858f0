/**
 * The fields of the REST client configuration the aggregator sets: the
 * server address, TLS verification and client certificate settings, the
 * bearer token and the client-side rate limits.
 */
module RestClient {
  import opened Apifederation

  datatype TLSClientConfig = TLSClientConfig(certFile: string, keyFile: string, caFile: string, caData: seq<Byte>)

  /** A `restclient.Config`; `qps` is a float32 in Go and only ever set to a whole number here. */
  datatype Config = Config(
    host: string,
    insecure: bool,
    bearerToken: string,
    tlsClientConfig: TLSClientConfig,
    qps: int,
    burst: int)

  const EmptyTLSClientConfig: TLSClientConfig := TLSClientConfig("", "", "", [])

  /** The zero `restclient.Config{}`. */
  const EmptyConfig: Config := Config("", false, "", EmptyTLSClientConfig, 0, 0)
}
