/**
 * The older descriptor type of package `api`, the one the validation code and
 * the registry strategy check: no TLS fields, and a status with conditions
 * and a resource list.
 */
module DiscoveryApi {
  import opened Apifederation

  datatype APIServerSpec = APIServerSpec(
    internalHost: string,
    prefix: string,
    group: string,
    version: string,
    priority: Int64)

  datatype APIServerCondition = APIServerCondition(
    conditionType: string,
    status: string,
    reason: string,
    message: string)

  datatype APISubResource = APISubResource(name: string, kind: string)

  datatype APIResource = APIResource(
    name: string,
    namespaced: bool,
    kind: string,
    subResources: seq<APISubResource>)

  datatype APIServerStatus = APIServerStatus(
    conditions: seq<APIServerCondition>,
    group: string,
    version: string,
    resources: seq<APIResource>)

  datatype APIServer = APIServer(meta: ObjectMeta, spec: APIServerSpec, status: APIServerStatus)
}
