/**
 * The shared informer factory (`factory.go`): informers are created on
 * first request, one per object type, and `Start` launches each registered
 * informer at most once however often it is called.
 *
 * The informer's list/watch machinery and the goroutine it runs in are
 * not modelled; launching an informer is recorded in `launched`.
 */
module Informers {
  import RestClient

  /** Informers are keyed by the Go type of the object they watch. */
  type InformerType = string

  /** The key of the APIServer informer, `reflect.TypeOf(&APIServer{})`. */
  const APIServerType: InformerType := "*apifederation.APIServer"

  /** The generated client for the aggregator's group, standing for one built from this configuration. */
  datatype ApifederationClient = ApifederationClient(config: RestClient.Config)

  predicate NoDuplicates(s: seq<InformerType>)
  {
    forall i, j :: 0 <= i < j < |s| ==> s[i] != s[j]
  }

  /** A shared index informer: what it watches, through which client, with what resync period. */
  class SharedIndexInformer {
    const objType: InformerType
    const client: ApifederationClient
    const resyncPeriod: int

    constructor (objType: InformerType, client: ApifederationClient, resyncPeriod: int)
      ensures this.objType == objType && this.client == client && this.resyncPeriod == resyncPeriod
    {
      this.objType := objType;
      this.client := client;
      this.resyncPeriod := resyncPeriod;
    }
  }

  /** The lister `Lister()` returns, reading the informer's index. */
  datatype APIServerLister = APIServerLister(indexer: SharedIndexInformer)

  class SharedInformerFactory {
    const client: ApifederationClient
    const defaultResync: int
    var informers: map<InformerType, SharedIndexInformer>
    var startedInformers: map<InformerType, bool>
    /** The informers launched so far, in launch order. */
    var launched: seq<InformerType>

    /** Whether the informer of type `t` is marked started. */
    function Started(t: InformerType): bool
      reads this
    {
      t in startedInformers && startedInformers[t]
    }

    /** Launched informers are exactly the started ones, each launched once. */
    ghost predicate Valid()
      reads this
    {
      && NoDuplicates(launched)
      && (forall t :: t in launched <==> Started(t))
    }

    /** `NewSharedInformerFactory`: the given client and resync period, nothing registered or started. */
    constructor (client: ApifederationClient, defaultResync: int)
      ensures Valid()
      ensures this.client == client && this.defaultResync == defaultResync
      ensures informers == map[] && startedInformers == map[] && launched == []
    {
      this.client := client;
      this.defaultResync := defaultResync;
      informers := map[];
      startedInformers := map[];
      launched := [];
    }

    /**
     * `Start`: every registered informer not yet marked started is launched
     * and marked; already started ones are left alone. The registered
     * informers themselves do not change.
     */
    method Start()
      requires Valid()
      modifies this
      ensures Valid()
      ensures informers == old(informers)
      ensures forall t :: t in informers ==> Started(t)
      ensures forall t :: old(Started(t)) ==> Started(t)
      ensures old(launched) <= launched
      ensures forall t :: t in launched[|old(launched)|..] <==> t in informers && !old(Started(t))
    {
      ghost var launched0 := launched;
      var remaining := informers.Keys;
      while remaining != {}
        invariant Valid()
        invariant informers == old(informers) && remaining <= informers.Keys
        invariant forall t :: t in informers && t !in remaining ==> Started(t)
        invariant forall t :: old(Started(t)) ==> Started(t)
        invariant forall t :: t in remaining ==> (Started(t) <==> old(Started(t)))
        invariant launched0 <= launched
        invariant forall t :: t in launched[|launched0|..] <==>
                    t in informers && t !in remaining && !old(Started(t))
        decreases remaining
      {
        var informerType :| informerType in remaining;
        if !Started(informerType) {
          launched := launched + [informerType];
          startedInformers := startedInformers[informerType := true];
        }
        remaining := remaining - {informerType};
      }
    }

    /**
     * `APIServers().Informer()`: the registered APIServer informer if there
     * is one, the map unchanged; otherwise exactly one new informer, for the
     * APIServer type with the factory's client and resync period, is
     * registered and returned.
     */
    method Informer() returns (informer: SharedIndexInformer)
      requires Valid()
      modifies this
      ensures Valid()
      ensures startedInformers == old(startedInformers) && launched == old(launched)
      ensures APIServerType in old(informers) ==>
                informer == old(informers[APIServerType]) && informers == old(informers)
      ensures APIServerType !in old(informers) ==>
                && fresh(informer)
                && informer.objType == APIServerType && informer.client == client
                && informer.resyncPeriod == defaultResync
                && informers == old(informers)[APIServerType := informer]
    {
      if APIServerType in informers {
        return informers[APIServerType];
      }
      informer := new SharedIndexInformer(APIServerType, client, defaultResync);
      informers := informers[APIServerType := informer];
    }

    /**
     * `APIServers().Lister()`: a lister over `Informer()`, which it registers
     * if needed: the registered informer if there is one, otherwise a new
     * APIServer informer with the factory's client and resync period.
     */
    method Lister() returns (lister: APIServerLister)
      requires Valid()
      modifies this
      ensures Valid()
      ensures startedInformers == old(startedInformers) && launched == old(launched)
      ensures APIServerType in informers && lister.indexer == informers[APIServerType]
      ensures APIServerType in old(informers) ==> informers == old(informers)
      ensures APIServerType !in old(informers) ==>
                && fresh(lister.indexer)
                && lister.indexer.objType == APIServerType && lister.indexer.client == client
                && lister.indexer.resyncPeriod == defaultResync
                && informers == old(informers)[APIServerType := lister.indexer]
      ensures informers.Keys == old(informers.Keys) + {APIServerType}
    {
      var informer := Informer();
      lister := APIServerLister(informer);
    }
  }
}
