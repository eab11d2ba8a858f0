/**
 * The backend descriptor of the `apifederation.openshift.io` API group
 * (package `apifederation`): an `APIServer` object names one backend API
 * server, the group and version it serves, where to reach it and with what
 * priority it is advertised.
 */
module Apifederation {

  /** The aggregator's own API group. */
  const GroupName: string := "apifederation.openshift.io"

  /** Go's int64. */
  type Int64 = x: int | -0x8000_0000_0000_0000 <= x < 0x8000_0000_0000_0000

  type Byte = x: int | 0 <= x < 256

  /** The object metadata the core reads: name, namespace and labels. */
  datatype ObjectMeta = ObjectMeta(name: string, namespace: string, labels: map<string, string>)

  datatype APIServerSpec = APIServerSpec(
    internalHost: string,
    prefix: string,
    group: string,
    version: string,
    insecureSkipTLSVerify: bool,
    caBundle: seq<Byte>,
    priority: Int64)

  datatype APIServerStatus = APIServerStatus

  datatype APIServer = APIServer(meta: ObjectMeta, spec: APIServerSpec, status: APIServerStatus)
  {
    function Name(): string { meta.name }
  }
}
