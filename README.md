# kube-aggregator core, modelled in Dafny

This project models the part of kube-aggregator that decides what the
aggregator advertises and where it routes requests. The aggregator is an
API server that fronts backend Kubernetes API servers. Each backend is
described by an `APIServer` object of the `apifederation.openshift.io`
group, carrying its group, version, internal host and priority.

The model covers:

- **Discovery ordering and grouping** (`helpers.go`, `handler_apis.go`).
  - `ByPriority` orders backends by priority, then by name.
  - `SortByGroup` sorts the caller's array in place and partitions it into per-group lists.
  - The `/apis` handler lists the aggregator's own group first, then one entry per non-legacy group.
  - `newDiscoveryAPIGroup` sorts its argument in place and reads element 0 afterwards, which picks the preferred version.
  - The `/apis/<group>` handler filters the listed backends by group.
- **Descriptor validation and the registry strategy** (`validation.go`, `strategy.go`).
  - Validation is a list of field errors, built check by check.
  - The update strategy keeps the old status.
- **The two registration controllers** (`apiserver_controller.go`, `proxy_controller.go`).
  - Each is a rate-limited work queue of backend names.
  - `sync` checks each name against the lister and tells a manager to add or remove that backend.
  - The manager records the calls it receives.
- **The proxy handlers** (`handler_proxy.go`, and the older `proxy.go`).
  - Their mutable fields, with setters and getters.
  - Their status-code decisions.
  - How the outbound URL, header and transport configuration are built.
  - Upgrade mode.
- **The discovery server** (`apiserver.go`): the `/api` passthrough to the backend registered as `v1.`, the header copy, the response-body relay loop, and the per-backend discovery-client cache.
- **Bookkeeping.**
  - The shared informer factory's memoised informers and start-at-most-once (`factory.go`).
  - The bootstrap RBAC object list (`rbac.go`).
  - The self-client configuration and storage prefixes (`start.go`).

Go's `sort.Sort` is modelled as an in-place selection sort on a Dafny
`array`, specified only as "sorted and a permutation", because `sort.Sort`
is not stable. `url.Values` and `http.Header` are maps from a key to its
list of values (`Http.Values`). Go calls that this model does not see are
parameters. Examples are the lister, `controller.KeyFunc`, `net.SplitHostPort`,
the DNS label checks, and whether `http.NewRequest`, `TransportFor` or
`client.Do` fail.

Modules, one per source file (plus shared ones):

| module | source |
|---|---|
| `GoStrings` | `strings.Compare` / `strings.HasPrefix` as used by the core |
| `KubeErrors`, `Wrappers`, `RestClient` | API errors, Option/Result, `restclient.Config` |
| `Apifederation`, `DiscoveryApi` | `APIServer` of the apifederation group; the older `api.APIServer` |
| `ApifederationHelpers`, `Grouping` | `pkg/apis/apifederation/helpers.go` |
| `HandlerApis` | `pkg/apiserver/handler_apis.go` |
| `Validation` | `pkg/api/validation/validation.go` |
| `Strategy` | `pkg/registry/apiserver/strategy.go` |
| `WorkQueue`, `Registration` | the rate-limiting queue and the `sync` decision shared by both controllers |
| `APIServerControllerModule` | `pkg/apiserver/apiserver_controller.go` |
| `ProxyControllerModule` | `pkg/apiserver/proxy_controller.go` |
| `Http` | `url.Values` / `http.Header`, `copyHeader`, the outbound URL and transport outcomes |
| `HandlerProxy` | `pkg/apiserver/handler_proxy.go` |
| `Proxy` | `pkg/apiserver/proxy.go` |
| `DiscoveryServer` | `pkg/apiserver/apiserver.go` |
| `Informers` | `pkg/client/informers/factory.go` |
| `BootstrapRoutes` | `pkg/apiserver/bootstraproutes/rbac.go` |
| `ServerStart` | `pkg/cmd/server/start.go` |

Where the code and its design description disagree, the model follows the code:

- **`/apis` lister failures.** A failing lister in the `/apis` handler is
  always answered with 500 and the error text, even for a `StatusError`
  (`pkg/apiserver/handler_apis.go:59-62`). Only the `/apis/<group>` handler
  and the `/api` route answer a `StatusError` with its own code.
- **`copyHeader`** is declared twice, in two revisions of one package. The
  bodies are identical, so it is modelled once, as `Http.CopyHeader`, and
  used by both `HandlerProxy` and `DiscoveryServer`.
- **`responder`** is also declared twice. It only forwards proxy errors, so it
  is left out with the proxy handler it is passed to.

## Model

| member | source | states |
|---|---|---|
| GoStrings.Compare | pkg/apis/apifederation/helpers.go:40 | `strings.Compare` answers only -1, 0 or +1 |
| GoStrings.CompareZeroIffEqual | pkg/apis/apifederation/helpers.go:40 | Compare is 0 exactly when the two names are equal |
| GoStrings.CompareAntisymmetric | pkg/apis/apifederation/helpers.go:40 | swapping the names negates the comparison |
| GoStrings.CompareTransitive | pkg/apis/apifederation/helpers.go:40 | "compares below" is transitive, so the name tie-break is a strict order |
| ApifederationHelpers.LessByPriority | pkg/apis/apifederation/helpers.go:42 | a strictly lower priority sorts first whatever the names, and the reverse never holds |
| ApifederationHelpers.LessOnEqualPriority | pkg/apis/apifederation/helpers.go:39-41 | on equal priorities Less holds exactly when strings.Compare of the names is -1 (ascending names) |
| ApifederationHelpers.LessIrreflexive | pkg/apis/apifederation/helpers.go:38-43 | no backend is Less than itself |
| ApifederationHelpers.LessTotalOnDistinctNames | pkg/apis/apifederation/helpers.go:38-43 | for distinct names exactly one of Less(a,b) and Less(b,a) holds |
| ApifederationHelpers.LessAsymmetric | pkg/apis/apifederation/helpers.go:38-43 | Less(a,b) excludes Less(b,a) |
| ApifederationHelpers.LessTransitive | pkg/apis/apifederation/helpers.go:38-43 | Less is transitive |
| ApifederationHelpers.NotLessTransitive | pkg/apis/apifederation/helpers.go:38-43 | "not Less" is transitive, so the order has no cycles among ties |
| ApifederationHelpers.Swap | pkg/apis/apifederation/helpers.go:37 | exchanges the two slots in place and nothing else; the contents as a multiset are unchanged |
| ApifederationHelpers.MinIndex | pkg/apis/apifederation/helpers.go:9-10 | returns an index at or after `from` that no later element is Less than |
| ApifederationHelpers.SortByPriority | pkg/apis/apifederation/helpers.go:9-10 | `sort.Sort(ByPriority(xs))` leaves the caller's array in ByPriority order and a permutation of its old contents |
| ApifederationHelpers.SortedPermutationUnique | pkg/apis/apifederation/helpers.go:9-10 | two sorted permutations of the same backends with distinct names are equal, so an unstable sort still gives one result |
| Grouping.FindGroup | pkg/apis/apifederation/helpers.go:15-21 | the inner scan returns the first list whose head has the group, or -1 when no list does |
| Grouping.FirstIndex | pkg/apis/apifederation/helpers.go:13-28 | the position of a group's first backend in the sorted input, with no earlier backend of that group |
| Grouping.Members | pkg/apis/apifederation/helpers.go:13-28 | a group's members are input backends of that group |
| Grouping.DistinctGroups | pkg/apis/apifederation/helpers.go:13-28 | the groups of the input, without repetition |
| Grouping.DistinctGroupsMembers | pkg/apis/apifederation/helpers.go:13-28 | a group is listed exactly when some backend has it |
| Grouping.GroupAllCharacterized | pkg/apis/apifederation/helpers.go:12-29 | the result has one list per distinct group, and that list is exactly the group's members in input order |
| Grouping.GroupAllPartition | pkg/apis/apifederation/helpers.go:8-32 | the lists together are a permutation of the input: every backend is in exactly one list and the lengths sum to the input length |
| Grouping.MembersSorted | pkg/apis/apifederation/helpers.go:9-10 | the members of a group, taken from a sorted input, are sorted |
| Grouping.DistinctGroupsInFirstOrder | pkg/apis/apifederation/helpers.go:15-28 | groups appear in the order of their first backend in the sorted input |
| Grouping.SortByGroupShape | pkg/apis/apifederation/helpers.go:8-32 | on a sorted input: a partition into non-empty sorted lists, each of one group, no two of the same group, in first-member order |
| Grouping.SortByGroup | pkg/apis/apifederation/helpers.go:8-32 | leaves the caller's array sorted and a permutation of its old contents, and returns the grouping of that sorted array |
| HandlerApis.DiscoveryGroupPreferred | pkg/apis/apifederation/helpers.go:9-10 | for a sorted non-empty group the preferred version is the first version, whose backend no other is Less than; one version per backend, in order, named group "/" version |
| HandlerApis.NewDiscoveryAPIGroup | pkg/apiserver/handler_apis.go:82-104 | sorts the argument in place (a permutation) and builds the group entry from the sorted order, so element 0 is the lowest (priority, name) backend |
| HandlerApis.NonLegacy | pkg/apiserver/handler_apis.go:64-70 | keeps exactly the group lists whose group is non-empty, dropping legacy empty-group backends |
| HandlerApis.DiscoveryGroupsOf | pkg/apiserver/handler_apis.go:64-70 | one entry per non-legacy group list, in order, each built from a sorted permutation of that list: one version per server of the list, named after a group of the list |
| HandlerApis.EntriesShape | pkg/apiserver/handler_apis.go:82-101 | an entry built from a sorted permutation of a list has one version per server of the list and is named after a group in it |
| HandlerApis.ServeApis | pkg/apiserver/handler_apis.go:28-80 | the own group path and every path other than /apis and /apis/ go to the delegate untouched; a lister error is a 500 with its text; otherwise the listed array is sorted in place and the answer is the own group followed by one entry per non-legacy group |
| HandlerApis.ApisListing | pkg/apiserver/handler_apis.go:64-70 | the listed groups are non-empty and distinct, every non-legacy backend's group is listed, and each entry's versions come from exactly that group's backends |
| HandlerApis.GroupAllDistinctHeads | pkg/apis/apifederation/helpers.go:15-28 | no two group lists share a group |
| HandlerApis.MembersDistinctNames | pkg/apis/apifederation/helpers.go:13-28 | backends with distinct names still have distinct names within one group |
| HandlerApis.ApisListingExact | pkg/apiserver/handler_apis.go:64-70 | when names are distinct the per-group orders are exactly the SortByGroup lists, so the listing is fully determined |
| HandlerApis.ServeApiGroup | pkg/apiserver/handler_apis.go:113-144 | a StatusError is answered with its own code and status, another error with 500; no member of the group gives 404 with an empty body; otherwise the entry of the group's backends, sorted |
| HandlerApis.ApiGroupNotFoundIff | pkg/apiserver/handler_apis.go:124-134 | the 404 case happens exactly when no listed backend has the requested group |
| HandlerApis.TwoVersionsExample | pkg/apiserver/handler_apis.go:82-101 | v2 at priority 10 and v1 at priority 1, listed in either order, give preferred version g/v1 and versions [g/v1, g/v2] |
| Validation.NameMessages | pkg/api/validation/validation.go:18-30 | the name callback reports nothing exactly when the name is a valid path segment and equals version "." group |
| Validation.UnderMetadata | pkg/api/validation/validation.go:62-67 | the metadata-update errors keep their order and are placed under `metadata` |
| Validation.InvalidEach | pkg/api/validation/validation.go:36-44 | one Invalid error per failure message of a check |
| Validation.ValidateAPIServer | pkg/api/validation/validation.go:15-60 | accumulates exactly the metadata, group, version, priority and host errors, in that order |
| Validation.AppendInvalid | pkg/api/validation/validation.go:37-39 | the loop over a check's messages appends one Invalid error per message |
| Validation.ValidateAPIServerUpdate | pkg/api/validation/validation.go:62-67 | the metadata-update errors followed by every error of validating the new object |
| Validation.SpecFieldErrors | pkg/api/validation/validation.go:15-60 | errors on a spec field come only from the spec checks, in their order |
| Validation.PriorityValidation | pkg/api/validation/validation.go:46-49 | priority <= 0 gives exactly one Invalid error on spec.priority; a positive priority gives none |
| Validation.VersionValidation | pkg/api/validation/validation.go:42-44 | the version gets one Invalid error per DNS-1035 label failure and no other error |
| Validation.GroupValidation | pkg/api/validation/validation.go:33-40 | an empty group is one Required error unless the version is v1; a non-empty group gets one Invalid error per DNS-1123 subdomain failure |
| Validation.HostValidation | pkg/api/validation/validation.go:51-57 | an empty host is one Required error; otherwise one Invalid error exactly when it does not split as host:port; never both |
| Validation.NameMismatchReported | pkg/api/validation/validation.go:16-26 | a name other than version "." group is reported on metadata.name |
| Validation.LegacySentinel | pkg/api/validation/validation.go:16-35 | a valid empty-group descriptor must have version v1 and name "v1." |
| Strategy.NamespaceScoped | pkg/registry/apiserver/strategy.go:25-27 | APIServer objects are cluster scoped |
| Strategy.AllowCreateOnUpdate | pkg/registry/apiserver/strategy.go:43-45 | an update never creates |
| Strategy.AllowUnconditionalUpdate | pkg/registry/apiserver/strategy.go:47-49 | updates need a resource version |
| Strategy.PrepareForCreate | pkg/registry/apiserver/strategy.go:29-31 | the object is left unchanged |
| Strategy.Canonicalize | pkg/registry/apiserver/strategy.go:51-52 | the object is left unchanged |
| Strategy.PrepareForUpdate | pkg/registry/apiserver/strategy.go:33-37 | the new object takes the old status and keeps its own metadata and spec; the old object is unchanged |
| Strategy.Validate | pkg/registry/apiserver/strategy.go:39-41 | exactly the validation errors of the object |
| Strategy.ValidateUpdate | pkg/registry/apiserver/strategy.go:54-56 | exactly the update-validation errors of new against old |
| Strategy.APIServerToSelectableFields | pkg/registry/apiserver/strategy.go:75-77 | the selectable fields are exactly metadata.name and metadata.namespace with the object's values |
| Strategy.GetAttrs | pkg/registry/apiserver/strategy.go:64-70 | an error exactly for objects that are not an APIServer; otherwise its labels and selectable fields |
| Strategy.MatchAPIServer | pkg/registry/apiserver/strategy.go:60-72 | the selection predicate carries the given label and field selectors, and its attribute function is `GetAttrs`: an APIServer gives its own labels and its name and namespace fields, any other object an error |
| WorkQueue.RateLimitingQueue.constructor | pkg/apiserver/apiserver_controller.go:41 | a new queue is empty, not shutting down, with no failures |
| WorkQueue.RateLimitingQueue.Add | pkg/apiserver/apiserver_controller.go:114 | a key already waiting, or added during shutdown, changes nothing; otherwise it becomes dirty and is queued unless it is in process; the new queue and waiting set are `QueueAfterAdd` and `DirtyAfterAdd` of the key |
| WorkQueue.AddTwiceIsAddOnce | pkg/apiserver/apiserver_controller.go:114 | adding a key a second time leaves the queue and the waiting set as the first add left them, so a key is never queued twice |
| WorkQueue.RateLimitingQueue.Get | pkg/apiserver/apiserver_controller.go:89 | quit exactly on an empty queue; otherwise the head key moves from waiting to in process |
| WorkQueue.RateLimitingQueue.Done | pkg/apiserver/apiserver_controller.go:93 | the key leaves processing and is queued again if it was re-added meanwhile |
| WorkQueue.RateLimitingQueue.Forget | pkg/apiserver/apiserver_controller.go:97 | clears the key's failure count and nothing else |
| WorkQueue.RateLimitingQueue.AddRateLimited | pkg/apiserver/apiserver_controller.go:102 | counts one more requeue of the key and adds it like Add |
| WorkQueue.RateLimitingQueue.ShutDown | pkg/apiserver/apiserver_controller.go:70 | marks the queue shutting down and changes nothing else |
| Registration.SyncCalls | pkg/apiserver/apiserver_controller.go:54-66 | NotFound gives one remove call for the key; another error gives no call; a found object gives one add call with exactly that object |
| Registration.SyncResult | pkg/apiserver/apiserver_controller.go:54-66 | sync returns nil exactly on success or NotFound, and otherwise the lister's own error |
| Registration.SyncAgreesWithLister | pkg/apiserver/apiserver_controller.go:54-66 | after sync the manager registers the found object under the key, or nothing under it on NotFound, or is unchanged on error; other names are untouched |
| Registration.UnwrapDeleted | pkg/apiserver/apiserver_controller.go:123-138 | a deleted APIServer or a tombstone holding one yields it; anything else yields nothing |
| Registration.EventObject | pkg/apiserver/apiserver_controller.go:44-47 | only add and delete events carry an object to enqueue; updates are not handled |
| APIServerControllerModule.APIHandlerManager.constructor | pkg/apiserver/apiserver_controller.go:21-24 | a manager starts with no recorded calls |
| APIServerControllerModule.APIHandlerManager.AddAPIServer | pkg/apiserver/apiserver_controller.go:22 | records one add call with that object |
| APIServerControllerModule.APIHandlerManager.RemoveAPIServer | pkg/apiserver/apiserver_controller.go:23 | records one remove call with that name |
| APIServerControllerModule.APIServerRegistrationController.constructor | pkg/apiserver/apiserver_controller.go:37-52 | holds the given lister and manager and a fresh empty queue |
| APIServerControllerModule.APIServerRegistrationController.Sync | pkg/apiserver/apiserver_controller.go:54-66 | the manager receives exactly the sync calls for the lister's answer and the result is the sync result |
| APIServerControllerModule.APIServerRegistrationController.ProcessNextWorkItem | pkg/apiserver/apiserver_controller.go:88-105 | false exactly when the queue reports quit; otherwise the head key is synced, then forgotten on success or requeued with rate limiting on failure, and always marked done |
| APIServerControllerModule.APIServerRegistrationController.RunWorker | pkg/apiserver/apiserver_controller.go:82-85 | processes items until the queue is empty (within the fuel bound), keeping the queue invariant; the keys taken are the queue's keys in order (those queued at the start first), the manager receives exactly their sync calls in that order, and the failure counts are updated key by key: forgotten on success, one more on failure |
| APIServerControllerModule.APIServerRegistrationController.Enqueue | pkg/apiserver/apiserver_controller.go:107-115 | a key-function failure adds nothing; otherwise the new queue and waiting set are those of `Add` of the object's key (dirty unless shutting down, queued unless already waiting or in process); shutdown, processing and failures are unchanged |
| APIServerControllerModule.APIServerRegistrationController.AddAPIServerEvent | pkg/apiserver/apiserver_controller.go:117-121 | enqueues the added object's key exactly as `Enqueue` does, nothing when the key function fails |
| APIServerControllerModule.APIServerRegistrationController.DeleteAPIServerEvent | pkg/apiserver/apiserver_controller.go:123-139 | unwraps a tombstone and enqueues the key as `Add` does; an object that is still not an APIServer, or whose key fails, enqueues nothing |
| APIServerControllerModule.APIServerRegistrationController.HandleEvent | pkg/apiserver/apiserver_controller.go:44-47 | add and delete events enqueue their object's key as `Add` does; an update, or an event without a key, leaves the queue unchanged |
| ProxyControllerModule.ProxyManager.constructor | pkg/apiserver/proxy_controller.go:21-24 | a manager starts with no recorded calls |
| ProxyControllerModule.ProxyManager.AddProxy | pkg/apiserver/proxy_controller.go:22 | records one add call with that object |
| ProxyControllerModule.ProxyManager.RemoveProxy | pkg/apiserver/proxy_controller.go:23 | records one remove call with that name |
| ProxyControllerModule.ProxyRegistrationController.constructor | pkg/apiserver/proxy_controller.go:37-52 | holds the given lister and manager and a fresh empty queue |
| ProxyControllerModule.ProxyRegistrationController.Sync | pkg/apiserver/proxy_controller.go:54-66 | the proxy manager receives exactly the sync calls for the lister's answer and the result is the sync result |
| ProxyControllerModule.ProxyRegistrationController.ProcessNextWorkItem | pkg/apiserver/proxy_controller.go:88-105 | false exactly on quit; otherwise sync, then Forget on success or AddRateLimited on failure, and always Done |
| ProxyControllerModule.ProxyRegistrationController.RunWorker | pkg/apiserver/proxy_controller.go:82-85 | processes items until the queue is empty (within the fuel bound), keeping the queue invariant; the keys taken are the queue's keys in order (those queued at the start first), the manager receives exactly their sync calls in that order, and the failure counts are updated key by key: forgotten on success, one more on failure |
| ProxyControllerModule.ProxyRegistrationController.Enqueue | pkg/apiserver/proxy_controller.go:107-115 | a key-function failure adds nothing; otherwise the new queue and waiting set are those of `Add` of the object's key (dirty unless shutting down, queued unless already waiting or in process); shutdown, processing and failures are unchanged |
| ProxyControllerModule.ProxyRegistrationController.AddAPIServerEvent | pkg/apiserver/proxy_controller.go:117-121 | enqueues the added object's key exactly as `Enqueue` does, nothing when the key function fails |
| ProxyControllerModule.ProxyRegistrationController.DeleteAPIServerEvent | pkg/apiserver/proxy_controller.go:123-139 | unwraps a tombstone and enqueues the key as `Add` does; an object that is still not an APIServer, or whose key fails, enqueues nothing |
| ProxyControllerModule.ProxyRegistrationController.HandleEvent | pkg/apiserver/proxy_controller.go:44-47 | add and delete events enqueue their object's key as `Add` does; an update, or an event without a key, leaves the queue unchanged |
| Http.AddValue | pkg/apiserver/handler_proxy.go:116 | `Add` appends one value to its key and leaves every other key as it was |
| Http.GetFirst | pkg/apiserver/handler_proxy.go:94 | `Get` is the key's first value, or "" when it has none |
| Http.MergeAppend | pkg/apiserver/handler_proxy.go:113-119 | each key's values become dst's values followed by src's, and a key is present when dst had it or src gives it a value |
| Http.AddValues | pkg/apiserver/handler_proxy.go:115-117 | the inner loop appends one key's values in order and touches no other key |
| Http.AddValuesStep | pkg/apiserver/handler_proxy.go:115-117 | one more Add of the key extends the appended list by that value |
| Http.MergeStep | pkg/apiserver/handler_proxy.go:114-118 | merging one more source key is the same as appending its values to the merge so far |
| Http.MergeAppendKeeps | pkg/apiserver/apiserver.go:186-192 | copying an empty header changes nothing, and every existing value of dst stays in place as a prefix |
| Http.Header.Add | pkg/apiserver/handler_proxy.go:116 | the header's values become AddValue of the old values |
| Http.CopyHeader | pkg/apiserver/handler_proxy.go:113-119 | dst's new values are exactly MergeAppend of its old values and src: everything appended, nothing removed, source order kept |
| Http.AddEach | pkg/apiserver/handler_proxy.go:115-117 | the header's values become AddValues of the old values for that key |
| Http.AddQueryValues | pkg/apiserver/handler_proxy.go:57-62 | the query built by the nested loop is exactly MergeAppend of the start values and the inbound query |
| Http.AddEachValue | pkg/apiserver/handler_proxy.go:59-61 | the inner loop over one key's values gives AddValues |
| Http.ProxyLocationKeepsRequest | pkg/apiserver/handler_proxy.go:53-63 | the outbound URL is https, at the destination host, with the inbound path and every inbound query value of every key in order |
| Http.NewRequestFailure | pkg/apiserver/handler_proxy.go:65-73 | a StatusError from building the request is answered with its own code and status, any other error with 500 and its text |
| Http.TransportOutcome | pkg/apiserver/handler_proxy.go:85-110 | corrected: the request is forwarded exactly when the transport builds and, in upgrade mode, the TLS config and wrappers build too, always with the caller's user; any failure is a 500 |
| Http.TransportOutcomeAsWritten | pkg/apiserver/handler_proxy.go:85-110 | as written: the same failures and forwarding, but an upgraded request is forwarded with no user, because the upgrade round tripper replaces the auth-proxy one |
| Http.UpgradeDropsIdentity | pkg/apiserver/handler_proxy.go:91-102 | an authenticated upgrade that succeeds is forwarded with no user as written, and with the caller's user when corrected |
| Http.AsWrittenDiffersOnlyInUpgradeIdentity | pkg/apiserver/handler_proxy.go:85-110 | the written and corrected outcomes fail alike and forward the same request, differing only in the user of an upgraded request |
| HandlerProxy.ProxyConfig | pkg/apiserver/handler_proxy.go:81-84 | the transport config carries the handler's insecure flag and TLS settings and nothing else |
| HandlerProxy.ProxyHandler.constructor | pkg/apiserver/handler_proxy.go:20-34 | a new handler is disabled, with no destination and empty TLS settings |
| HandlerProxy.ProxyHandler.ServeHTTP | pkg/apiserver/handler_proxy.go:36-111 | disabled is 404 with an empty body; a missing context or user is 500 "missing context" / "missing user"; then request-building failures; a transport failure, and for an upgrade a TLS-config or wrappers failure, is 500 with that message; otherwise the request is forwarded with the proxied URL, a fresh copy of the inbound header, the inbound content length and transfer encoding, the caller's user (also on an upgrade, as corrected under Findings), and upgrade exactly when Connection is non-empty; the inbound header is unchanged |
| HandlerProxy.ProxyHandler.SetDestinationHost | pkg/apiserver/handler_proxy.go:139-143 | sets the destination host and no other field |
| HandlerProxy.ProxyHandler.SetEnabled | pkg/apiserver/handler_proxy.go:151-155 | sets the enabled flag and no other field |
| HandlerProxy.ProxyHandler.SetTLSConfig | pkg/apiserver/handler_proxy.go:162-166 | sets the TLS settings and no other field |
| HandlerProxy.ProxyHandler.SetInsecureSkipTLSVerify | pkg/apiserver/handler_proxy.go:174-178 | sets the insecure flag and no other field |
| Proxy.FixedConfig | pkg/apiserver/proxy.go:80-83 | the transport is always insecure with the fixed bearer token "deads/system:masters" |
| Proxy.ProxyHandler.constructor | pkg/apiserver/proxy.go:35-44 | a new handler is disabled with no destination |
| Proxy.ProxyHandler.ServeHTTP | pkg/apiserver/proxy.go:46-108 | disabled is 404 with body "{}"; request-building failures as above; a transport failure, and for an upgrade a TLS-config or wrappers failure, is 500 with that message; forwarding exactly when the transport builds, to the proxied URL, reusing the inbound header object itself, with the fixed config, no front-proxy user, and upgrade exactly when Connection is non-empty |
| Proxy.ProxyHandler.SetDestinationHost | pkg/apiserver/proxy.go:128-132 | sets the destination host and leaves enabled alone |
| Proxy.ProxyHandler.SetEnabled | pkg/apiserver/proxy.go:140-144 | sets enabled and leaves the destination alone |
| DiscoveryServer.ReadBody | pkg/apiserver/apiserver.go:169 | one Read reports EOF exactly at the end of the body; otherwise it returns the next bytes, as many as fit in the buffer |
| DiscoveryServer.RelayBody | pkg/apiserver/apiserver.go:167-182 | what is written is always a prefix of the body; a finished relay wrote the whole body; with a non-empty buffer and enough reads it finishes; with a zero-length buffer a non-empty body never finishes and nothing is written |
| DiscoveryServer.RelayResponseAsWritten | pkg/apiserver/apiserver.go:167-182 | with the buffer as allocated (length 0), any non-empty body is never relayed |
| DiscoveryServer.RelayResponse | pkg/apiserver/apiserver.go:167-182 | with a 1024-byte buffer the relay writes exactly the body |
| DiscoveryServer.LegacyURL | pkg/apiserver/apiserver.go:149 | the URL is "https://", then the backend's internal host, then the request URI |
| DiscoveryServer.ClientConfig | pkg/apiserver/apiserver.go:214-218 | the client config is the discovery config with the backend's host and TLS verification off |
| DiscoveryServer.GetClientMemoises | pkg/apiserver/apiserver.go:194-225 | the cache only grows, only under the backend's name; a hit is returned unchanged, so a second call is idempotent; a build error leaves the cache unchanged |
| DiscoveryServer.DiscoveryHandler.constructor | pkg/apiserver/apiserver.go:89-92 | the handler holds the lister, an empty discovery config and an empty client cache |
| DiscoveryServer.DiscoveryHandler.ServeAPI | pkg/apiserver/apiserver.go:136-183 | looks up "v1."; a StatusError is answered with its own code, other errors and request or send failures with 500; otherwise the request goes to "https://" + host + URI with the method and a copy of the header, the response header gets the backend's values appended, the answer carries the backend's status code, and the body is relayed in full |
| DiscoveryServer.RelayedCodeAsWrittenLosesStatus | pkg/apiserver/apiserver.go:158-182 | as written the route never calls `WriteHeader`, so the relayed answer is 200 and matches the backend's status exactly when that status is 200; a 503 reaches the client as 200 |
| DiscoveryServer.DiscoveryHandler.GetClient | pkg/apiserver/apiserver.go:194-225 | the result and new cache are those of the memoising lookup described by GetClientMemoises |
| Informers.SharedIndexInformer.constructor | pkg/client/informers/factory.go:81-96 | the informer watches the given type through the given client with the given resync period |
| Informers.SharedInformerFactory.constructor | pkg/client/informers/factory.go:37-44 | holds the given client and resync period, with both maps empty |
| Informers.SharedInformerFactory.Start | pkg/client/informers/factory.go:47-57 | every registered informer ends started, none is reset, the informers map is unchanged, and exactly the not-yet-started ones are launched, each at most once over all calls |
| Informers.SharedInformerFactory.Informer | pkg/client/informers/factory.go:72-97 | an existing APIServer informer is returned with the map unchanged; otherwise exactly one new entry under the APIServer type is inserted and returned |
| Informers.SharedInformerFactory.Lister | pkg/client/informers/factory.go:99-101 | the lister reads the registered APIServer informer; when none was registered, exactly one fresh informer for the APIServer type with the factory's client and resync period is registered and read |
| BootstrapRoutes.ReadWithinReadWrite | pkg/apiserver/bootstraproutes/rbac.go:56-59 | the read verbs are the first three read-write verbs, so a subset of them |
| BootstrapRoutes.ClusterRoles | pkg/apiserver/bootstraproutes/rbac.go:65-82 | an editor role with read-write and a reader role with read on apiservers in the aggregator's group |
| BootstrapRoutes.ClusterRoleBindings | pkg/apiserver/bootstraproutes/rbac.go:84-88 | exactly one binding, to "system:auth-delegator", for the auth user |
| BootstrapRoutes.RbacResources | pkg/apiserver/bootstraproutes/rbac.go:38-54 | all bindings in order, each renamed with the group prefix, followed by all roles in order |
| BootstrapRoutes.RbacResourcesContents | pkg/apiserver/bootstraproutes/rbac.go:38-88 | the list is exactly the renamed auth-delegator binding, then the editor role, then the reader role |
| ServerStart.JoinHostPort | pkg/cmd/server/start.go:209 | `net.JoinHostPort` puts a host containing ':' in brackets before ":" port |
| ServerStart.DefaultServingInfo | pkg/cmd/server/start.go:109-121 | binds 0.0.0.0:8444 with the certificate pair under the default config directory |
| ServerStart.LoopbackHost | pkg/cmd/server/start.go:206-208 | "0.0.0.0" becomes "127.0.0.1", any other host is kept |
| ServerStart.NewSelfClientConfig | pkg/cmd/server/start.go:192-215 | a bind address that does not split is an error; otherwise host "https://" + the rewritten host and port, CA file = serving cert, the token, QPS 50, burst 100 |
| ServerStart.DefaultSelfClient | pkg/cmd/server/start.go:109-121 | with the default serving info, and a `SplitHostPort` that splits "0.0.0.0:8444" into "0.0.0.0" and "8444", the self-client talks to https://127.0.0.1:8444 and trusts the generated serving certificate |
| ServerStart.NewFor | pkg/cmd/server/start.go:263-271 | one delete worker, garbage collection off, and a resource prefix that is the storage prefix followed by exactly "/" group "/" resource |
| ServerStart.ResourcePrefixInjective | pkg/cmd/server/start.go:263-271 | for groups without '/', distinct (group, resource) pairs get distinct resource prefixes |
| ServerStart.Validate | pkg/cmd/server/start.go:95-97 | always succeeds |
| ServerStart.Complete | pkg/cmd/server/start.go:99-101 | always succeeds |

## Left out

- Locks and goroutines. The `sync.RWMutex` fields, the `go wait.Until` workers, `Run` and the informers' `go informer.Run` are left out, and the state is sequential. This also covers the unlocked read of `insecureSkipTLSVerify` (pkg/apiserver/handler_proxy.go:82).
- Network and streaming are foreign library calls. `http.Client.Do`, `NewUpgradeAwareProxyHandler`, the SPDY round tripper, `NewAuthProxyRoundTripper`, `TransportFor`, `TLSConfigFor` and `HTTPWrappersForConfig` are modelled only by whether they fail (`Http.ProxyEnv`, `DiscoveryServer.ApiEnv`). A forwarded request is a `Forward` value.
- `responder` (pkg/apiserver/proxy.go:111-121, pkg/apiserver/handler_proxy.go:122) only writes proxy errors to the response, and it goes with the proxy handler above.
- JSON encoding and response writing (`runtime.Encode`, `WriteRawJSON`, `http.Error`) become structured responses carrying the status code. The trailing newline that `http.Error` adds is not modelled.
- The encoding and decoding of `RawQuery` and of URL strings are not modelled, and neither is the canonicalisation of header keys. Headers and queries are maps from a key to its values.
- `fmt.Printf` debug output (pkg/apiserver/apiserver.go:137, 150, and pkg/apiserver/proxy.go:63) has no effect on behaviour.
- The body relay's `Read`/`Write` errors (pkg/apiserver/apiserver.go:170-177) are left out. The backend body is a byte sequence read without failures, and the response writer accepts everything.
- The library checks are parameters (`Validation.Checks`, `controller.KeyFunc`, `net.SplitHostPort`): `IsValidPathSegmentName`, the DNS-1123 and DNS-1035 checks, `ValidateObjectMeta`, and `ValidateObjectMetaUpdate`. Only the name callback of `ValidateObjectMeta` is spelled out. Its other checks are one uninterpreted error list.
- The work queue's backoff timing is left out. `AddRateLimited` counts requeues and adds the key at once, and `Get` on an empty, running queue (which blocks in Go) is excluded by its precondition.
- `APIServerControllerModule.APIServerRegistrationController.RunWorker`: bounded by a `fuel` count, because the Go loop runs until shutdown.
- `ProxyControllerModule.ProxyRegistrationController.RunWorker`: bounded by a `fuel` count, because the Go loop runs until shutdown.
- The controllers' add handler does an unchecked type assertion (`obj.(*APIServer)`), which panics on other objects. The model's add events always carry an APIServer.
- `DiscoveryServer.RelayBody` bounds the relay loop by `fuel` Read calls, because the loop as written does not terminate on a non-empty body.
- `DiscoveryServer.DiscoveryHandler.ServeAPI`: states the response-header copy only when the response header is a different object from the request header, as it always is in Go. It also relays through the corrected buffer, and answers with the backend's status code where the Go handler always answers 200 (both under Findings).
- `Http.ProxyLocationKeepsRequest`: a query key whose list of values is empty does not appear in the outbound query. This is also what the Go loop does, since it adds only per value.
- `Informers.SharedInformerFactory.Start`: launching an informer is recorded in `launched`, not run. `APIServers()` is folded into `Informer` and `Lister`.
- `Informers.SharedInformerFactory.Lister`: the lister is the indexer of the informer, not the generated lister type.
- `Validation.Quoted`: quotes the required name without Go's `%q` escaping, so a group or version holding a quote, a backslash or a non-printable character gives a different message text.
- `Validation.MetaErrors`: puts the name errors first and the rest of `ValidateObjectMeta` after them as one list. In the library a non-empty `generateName` is also checked through the name callback, and those errors come before the name's.
- `DiscoveryServer.DiscoveryHandler.GetClient`: models the intended unlock behaviour. The Go function defers `RLock()` at pkg/apiserver/apiserver.go:199 and `Lock()` at :212 where it means to unlock. So on a cache miss it holds two read locks and then blocks forever in `Lock()` at :211, and never returns. A hit does return, but it leaves two read locks held. The model returns the new client and caches it. Nothing in this revision calls `getClient`.
- `HandlerProxy.ProxyHandler.ServeHTTP`: forwards an upgraded request with the caller's user, as corrected under Findings; the Go handler forwards it with none (`Http.TransportOutcomeAsWritten`).
- `ServerStart.NewSelfClientConfig`: QPS is an integer, where Go has a float32. The two values used, 50 and 100, are exact.
- `BootstrapRoutes.RbacResources`: the RBAC builder calls are not modelled. A binding built for a role is named after that role, as the builder does.
- `Install` (pkg/apiserver/bootstraproutes/rbac.go:19-36) is not modelled, because it only serves the list as JSON.
- Not modelled, as generated or framework code: the generated clientsets and fakes, deepcopy functions, scheme registration, `etcd.go`, and the vendored `genericapiserver` config.
- Not modelled, as command plumbing: the cobra command, `Start`, and the authenticator construction in `start.go`.
- Lister failures in `/apis` are answered with 500 even for a `StatusError`, because that is what the code does (pkg/apiserver/handler_apis.go:59-62).

## Findings

| source | as written | input that shows it | evidently intended | confidence | as-written member | corrected member |
|---|---|---|---|---|---|---|
| pkg/apiserver/apiserver.go:167 | the relay buffer is `make([]byte, 0, 1024)`, which has length 0, so each `Read` returns 0 bytes. The loop never sees EOF on a non-empty body and writes nothing. | any backend response with a non-empty body, e.g. `{}` | a 1024-byte buffer (`make([]byte, 1024)`), so the loop relays the whole body and stops at EOF | not executed; high, because `Read` into an empty slice transfers no bytes | DiscoveryServer.RelayResponseAsWritten | DiscoveryServer.RelayResponse |
| pkg/apiserver/handler_proxy.go:91-102 | the front-proxy round tripper wraps the plain transport at line 91, but for an upgrade line 102 replaces `roundTripper` with the wrapped SPDY round tripper, so the upgraded request carries no `X-Remote-User` or group headers | any authenticated request with a non-empty `Connection` header, e.g. `Connection: Upgrade` for exec or attach | wrap whichever round tripper finally carries the request with `NewAuthProxyRoundTripper`, so the backend sees the caller's identity on upgrades too | not executed; high, because line 102 assigns over the wrapped round tripper | Http.TransportOutcomeAsWritten | Http.TransportOutcome |
| pkg/apiserver/apiserver.go:158-182 | the `/api` route copies the backend's header and body but never calls `w.WriteHeader(proxyResponse.StatusCode)`, so the first `w.Write` sends an implicit 200 | the legacy backend answers 503 (or 401, 404) | relay the backend's status code before the body, as the header and body are relayed | not executed; high, because a Go `ResponseWriter` writes 200 when `Write` comes before `WriteHeader` | DiscoveryServer.RelayedCodeAsWrittenLosesStatus | DiscoveryServer.DiscoveryHandler.ServeAPI |
