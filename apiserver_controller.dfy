/**
 * `APIServerRegistrationController` (`apiserver_controller.go`): informer
 * events put APIServer keys on a rate-limited queue; a worker takes keys
 * off it and syncs each against the lister, telling the API handler
 * manager to add or remove the backend.
 *
 * The lister and `controller.KeyFunc` are parameters; the manager is an
 * object that records the calls made on it. Goroutines are left out: a
 * worker is a bounded loop.
 */
module APIServerControllerModule {
  import opened Wrappers
  import opened KubeErrors
  import opened Apifederation
  import opened WorkQueue
  import opened Registration

  /** The `APIHandlerManager` interface, as a recorder of the calls made on it. */
  class APIHandlerManager {
    var calls: seq<ManagerCall>

    constructor ()
      ensures calls == []
    {
      calls := [];
    }

    method AddAPIServer(apiServer: APIServer)
      modifies this
      ensures calls == old(calls) + [AddCall(apiServer)]
    {
      calls := calls + [AddCall(apiServer)];
    }

    method RemoveAPIServer(apiServerName: string)
      modifies this
      ensures calls == old(calls) + [RemoveCall(apiServerName)]
    {
      calls := calls + [RemoveCall(apiServerName)];
    }
  }

  class APIServerRegistrationController {
    const manager: APIHandlerManager
    const lister: string -> Result<APIServer, Error>
    const keyFunc: APIServer -> Result<string, Error>
    const queue: RateLimitingQueue

    ghost predicate Valid()
      reads this, queue
    {
      queue.Valid()
    }

    /** The object's queue key, or none when the key function fails. */
    function KeyOf(obj: APIServer): Option<string>
    {
      if keyFunc(obj).Ok? then Some(keyFunc(obj).value) else None
    }

    /** The key an informer event enqueues: none for an update or an object that is not an APIServer. */
    function EventKey(e: Event): Option<string>
    {
      if EventObject(e).None? then None else KeyOf(EventObject(e).value)
    }

    /** The manager calls that syncing `keys`, in order, makes. */
    function SyncCallsOf(keys: seq<string>): seq<ManagerCall>
      decreases |keys|
    {
      if keys == [] then []
      else SyncCallsOf(keys[..|keys| - 1]) + SyncCalls(lister(keys[|keys| - 1]), keys[|keys| - 1])
    }

    /**
     * The rate limiter's failure counts after syncing `keys` in order.
     */
    function FailuresAfter(failures: map<string, nat>, keys: seq<string>): map<string, nat>
      decreases |keys|
    {
      if keys == [] then failures
      else FailureStep(FailuresAfter(failures, keys[..|keys| - 1]), keys[|keys| - 1])
    }

    /** The failure counts after syncing `key`: success forgets it, failure counts one more. */
    function FailureStep(failures: map<string, nat>, key: string): map<string, nat>
    {
      if SyncResult(lister(key)).None? then failures - {key}
      else failures[key := (if key in failures then failures[key] else 0) + 1]
    }

    /** `NewAPIServerRegistrationController`: an empty queue over the informer's lister. */
    constructor (lister: string -> Result<APIServer, Error>, manager: APIHandlerManager,
                 keyFunc: APIServer -> Result<string, Error>)
      ensures Valid() && fresh(queue)
      ensures this.lister == lister && this.manager == manager && this.keyFunc == keyFunc
      ensures queue.queue == [] && queue.dirty == {} && queue.processing == {} && queue.failures == map[]
      ensures !queue.shuttingDown
    {
      this.lister := lister;
      this.manager := manager;
      this.keyFunc := keyFunc;
      queue := new RateLimitingQueue();
    }

    /** `sync(key)`: remove on NotFound, report any other error, add what was found. */
    method Sync(key: string) returns (err: Option<Error>)
      modifies manager
      ensures manager.calls == old(manager.calls) + SyncCalls(lister(key), key)
      ensures err == SyncResult(lister(key))
    {
      var lookup := lister(key);
      if lookup.Err? && IsNotFound(lookup.error) {
        manager.RemoveAPIServer(key);
        return None;
      }
      if lookup.Err? {
        return Some(lookup.error);
      }
      manager.AddAPIServer(lookup.value);
      err := None;
    }

    /**
     * `processNextWorkItem()`: false only when the queue reports quit.
     * Otherwise it syncs the first key; success forgets the key's failures,
     * failure re-adds it rate-limited (so it is queued again unless the
     * queue is shutting down); the key is `Done` either way.
     */
    method ProcessNextWorkItem() returns (cont: bool)
      requires Valid()
      requires |queue.queue| > 0 || queue.shuttingDown
      modifies queue, manager
      ensures Valid()
      ensures queue.shuttingDown == old(queue.shuttingDown) && queue.processing == old(queue.processing)
      ensures !cont <==> |old(queue.queue)| == 0
      ensures !cont ==>
                && queue.queue == old(queue.queue) && queue.dirty == old(queue.dirty)
                && queue.failures == old(queue.failures) && manager.calls == old(manager.calls)
      ensures cont ==>
                var key := old(queue.queue[0]);
                && manager.calls == old(manager.calls) + SyncCalls(lister(key), key)
                && (SyncResult(lister(key)).None? ==>
                      && queue.queue == old(queue.queue[1..])
                      && queue.dirty == old(queue.dirty) - {key}
                      && queue.failures == old(queue.failures) - {key})
                && (SyncResult(lister(key)).Some? ==>
                      && queue.queue == old(queue.queue[1..]) + (if old(queue.shuttingDown) then [] else [key])
                      && queue.dirty == (if old(queue.shuttingDown) then old(queue.dirty) - {key} else old(queue.dirty))
                      && queue.failures == old(queue.failures)[key := old(queue.NumRequeues(key)) + 1])
      ensures cont ==> old(queue.queue[1..]) <= queue.queue
      ensures cont ==> queue.failures == FailureStep(old(queue.failures), old(queue.queue[0]))
    {
      var key, quit := queue.Get();
      if quit {
        return false;
      }
      var err := Sync(key);
      if err.None? {
        queue.Forget(key);
      } else {
        queue.AddRateLimited(key);
      }
      queue.Done(key);
      cont := true;
    }

    /** Syncing one more key appends its calls and updates its failure count. */
    lemma SyncStep(failures: map<string, nat>, keys: seq<string>, key: string)
      ensures SyncCallsOf(keys + [key]) == SyncCallsOf(keys) + SyncCalls(lister(key), key)
      ensures FailuresAfter(failures, keys + [key]) == FailureStep(FailuresAfter(failures, keys), key)
    {
      assert (keys + [key])[..|keys|] == keys;
    }

    /**
     * Taking the head of the queue and appending keys at its end keeps the
     * keys queued at the start a prefix of the keys taken, then queued.
     */
    static lemma PrefixStep(start: seq<string>, keys: seq<string>, before: seq<string>, after: seq<string>)
      requires start <= keys + before
      requires |before| > 0 && before[1..] <= after
      ensures start <= (keys + [before[0]]) + after
    {
      assert (keys + [before[0]]) + after == (keys + before) + after[|before| - 1..];
    }

    /**
     * `runWorker()`: processes keys until the queue reports quit. Here it
     * also stops when nothing is queued (the library call would block) or
     * after `fuel` keys. The keys taken, `keys`, are the queue's keys in
     * order (requeued keys come after the ones queued at the start); the
     * manager sees their syncs in that order and the rate limiter counts
     * their failures.
     */
    method RunWorker(fuel: nat) returns (processed: nat, ghost keys: seq<string>)
      requires Valid()
      modifies queue, manager
      ensures Valid()
      ensures processed == |keys| && processed <= fuel
      ensures processed < fuel ==> |queue.queue| == 0
      ensures queue.processing == old(queue.processing) && queue.shuttingDown == old(queue.shuttingDown)
      ensures |keys| <= |old(queue.queue)| ==> keys == old(queue.queue)[..|keys|]
      ensures |keys| > |old(queue.queue)| ==> keys[..|old(queue.queue)|] == old(queue.queue)
      ensures manager.calls == old(manager.calls) + SyncCallsOf(keys)
      ensures queue.failures == FailuresAfter(old(queue.failures), keys)
    {
      processed := 0;
      keys := [];
      while processed < fuel && (|queue.queue| > 0 || queue.shuttingDown)
        invariant Valid()
        invariant processed == |keys| && processed <= fuel
        invariant queue.processing == old(queue.processing) && queue.shuttingDown == old(queue.shuttingDown)
        invariant old(queue.queue) <= keys + queue.queue
        invariant manager.calls == old(manager.calls) + SyncCallsOf(keys)
        invariant queue.failures == FailuresAfter(old(queue.failures), keys)
        decreases fuel - processed
      {
        ghost var before := queue.queue;
        var cont := ProcessNextWorkItem();
        if !cont {
          break;
        }
        SyncStep(old(queue.failures), keys, before[0]);
        PrefixStep(old(queue.queue), keys, before, queue.queue);
        keys := keys + [before[0]];
        processed := processed + 1;
      }
    }

    /** `enqueue(obj)`: adds the object's key, or nothing when the key function fails. */
    method Enqueue(obj: APIServer)
      requires Valid()
      modifies queue
      ensures Valid()
      ensures keyFunc(obj).Err? ==>
                queue.queue == old(queue.queue) && queue.dirty == old(queue.dirty)
      ensures keyFunc(obj).Ok? && !old(queue.shuttingDown) ==> keyFunc(obj).value in queue.dirty
      ensures queue.processing == old(queue.processing) && queue.failures == old(queue.failures)
      ensures old(queue.dirty) <= queue.dirty && queue.dirty <= old(queue.dirty) + (if keyFunc(obj).Ok? then {keyFunc(obj).value} else {})
      ensures queue.queue == QueueAfterAdd(old(queue.queue), old(queue.dirty), old(queue.processing), old(queue.shuttingDown), KeyOf(obj))
      ensures queue.dirty == DirtyAfterAdd(old(queue.dirty), old(queue.shuttingDown), KeyOf(obj))
      ensures queue.shuttingDown == old(queue.shuttingDown)
    {
      var key := keyFunc(obj);
      if key.Err? {
        return;
      }
      queue.Add(key.value);
    }

    /** `addAPIServer(obj)`: enqueues the added object. */
    method AddAPIServerEvent(obj: APIServer)
      requires Valid()
      modifies queue
      ensures Valid()
      ensures keyFunc(obj).Err? ==>
                queue.queue == old(queue.queue) && queue.dirty == old(queue.dirty)
      ensures keyFunc(obj).Ok? && !old(queue.shuttingDown) ==> keyFunc(obj).value in queue.dirty
      ensures queue.processing == old(queue.processing) && queue.failures == old(queue.failures)
      ensures queue.queue == QueueAfterAdd(old(queue.queue), old(queue.dirty), old(queue.processing), old(queue.shuttingDown), KeyOf(obj))
      ensures queue.dirty == DirtyAfterAdd(old(queue.dirty), old(queue.shuttingDown), KeyOf(obj))
      ensures queue.shuttingDown == old(queue.shuttingDown)
    {
      Enqueue(obj);
    }

    /** `deleteAPIServer(obj)`: unwraps a tombstone; anything that is not an APIServer enqueues nothing. */
    method DeleteAPIServerEvent(obj: DeletedObject)
      requires Valid()
      modifies queue
      ensures Valid()
      ensures UnwrapDeleted(obj).None? ==> queue.queue == old(queue.queue) && queue.dirty == old(queue.dirty)
      ensures UnwrapDeleted(obj).Some? && keyFunc(UnwrapDeleted(obj).value).Ok? && !old(queue.shuttingDown) ==>
                keyFunc(UnwrapDeleted(obj).value).value in queue.dirty
      ensures queue.processing == old(queue.processing) && queue.failures == old(queue.failures)
      ensures var key := if UnwrapDeleted(obj).None? then None else KeyOf(UnwrapDeleted(obj).value);
        && queue.queue == QueueAfterAdd(old(queue.queue), old(queue.dirty), old(queue.processing), old(queue.shuttingDown), key)
        && queue.dirty == DirtyAfterAdd(old(queue.dirty), old(queue.shuttingDown), key)
      ensures queue.shuttingDown == old(queue.shuttingDown)
    {
      var castObj := UnwrapDeleted(obj);
      if castObj.None? {
        return;
      }
      Enqueue(castObj.value);
    }

    /** The handlers registered on the informer: add and delete; an update does nothing. */
    method HandleEvent(e: Event)
      requires Valid()
      modifies queue
      ensures Valid()
      ensures EventObject(e).None? ==> queue.queue == old(queue.queue) && queue.dirty == old(queue.dirty)
      ensures EventObject(e).Some? && keyFunc(EventObject(e).value).Ok? && !old(queue.shuttingDown) ==>
                keyFunc(EventObject(e).value).value in queue.dirty
      ensures queue.processing == old(queue.processing) && queue.failures == old(queue.failures)
      ensures queue.queue == QueueAfterAdd(old(queue.queue), old(queue.dirty), old(queue.processing), old(queue.shuttingDown), EventKey(e))
      ensures queue.dirty == DirtyAfterAdd(old(queue.dirty), old(queue.shuttingDown), EventKey(e))
      ensures queue.shuttingDown == old(queue.shuttingDown)
    {
      match e
      case AddEvent(s) => AddAPIServerEvent(s);
      case UpdateEvent(_, _) =>
      case DeleteEvent(obj) => DeleteAPIServerEvent(obj);
    }
  }
}
