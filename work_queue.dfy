/**
 * The rate-limited work queue the registration controllers drain: a
 * de-duplicating FIFO of keys (`queue`), the keys waiting to be processed
 * (`dirty`), the keys handed out and not yet `Done` (`processing`), and the
 * rate limiter's per-key failure count.
 *
 * Follows the client library's queue semantics: a key added while it is
 * processed is queued again only when it is `Done`; a key is never queued
 * twice. Backoff delays are not modelled: a rate-limited add counts a
 * failure and adds the key at once.
 */
module WorkQueue {
  import opened Wrappers

  predicate NoDuplicates(s: seq<string>)
  {
    forall i, j :: 0 <= i < j < |s| ==> s[i] != s[j]
  }

  /**
   * The waiting keys after `Add` of `key`, where no key (a key function
   * that failed) adds nothing: a key joins unless the queue is shutting down.
   */
  function DirtyAfterAdd(dirty: set<string>, shuttingDown: bool, key: Option<string>): set<string>
  {
    if key.None? || shuttingDown then dirty else dirty + {key.value}
  }

  /**
   * The queue after `Add` of `key`: the key is appended only when the queue
   * is not shutting down and the key is neither waiting nor in process.
   */
  function QueueAfterAdd(queue: seq<string>, dirty: set<string>, processing: set<string>, shuttingDown: bool,
                         key: Option<string>): seq<string>
  {
    if key.None? || shuttingDown || key.value in dirty || key.value in processing then queue
    else queue + [key.value]
  }

  /** Adding a key that was just added changes nothing: the queue never holds a key twice. */
  lemma AddTwiceIsAddOnce(queue: seq<string>, dirty: set<string>, processing: set<string>, shuttingDown: bool,
                          key: Option<string>)
    ensures var q1, d1 := QueueAfterAdd(queue, dirty, processing, shuttingDown, key), DirtyAfterAdd(dirty, shuttingDown, key);
      && QueueAfterAdd(q1, d1, processing, shuttingDown, key) == q1
      && DirtyAfterAdd(d1, shuttingDown, key) == d1
  {
  }

  class RateLimitingQueue {
    var queue: seq<string>
    var dirty: set<string>
    var processing: set<string>
    var shuttingDown: bool
    var failures: map<string, nat>

    /** Queued keys are distinct, dirty and not in process; every dirty key is queued or in process. */
    ghost predicate Valid()
      reads this
    {
      && NoDuplicates(queue)
      && (forall i :: 0 <= i < |queue| ==> queue[i] in dirty && queue[i] !in processing)
      && (forall k :: k in dirty ==> k in queue || k in processing)
    }

    constructor ()
      ensures Valid()
      ensures queue == [] && dirty == {} && processing == {} && !shuttingDown && failures == map[]
    {
      queue := [];
      dirty := {};
      processing := {};
      shuttingDown := false;
      failures := map[];
    }

    /** The number of failures the rate limiter has counted for `item`. */
    function NumRequeues(item: string): nat
      reads this
    {
      if item in failures then failures[item] else 0
    }

    /**
     * `Add(item)`: ignored while shutting down or when `item` is already
     * waiting; otherwise `item` becomes dirty and is queued unless it is in
     * process.
     */
    method Add(item: string)
      requires Valid()
      modifies this
      ensures Valid()
      ensures processing == old(processing) && shuttingDown == old(shuttingDown) && failures == old(failures)
      ensures old(shuttingDown) || item in old(dirty) ==> queue == old(queue) && dirty == old(dirty)
      ensures !old(shuttingDown) && item !in old(dirty) ==>
                && dirty == old(dirty) + {item}
                && queue == (if item in processing then old(queue) else old(queue) + [item])
      ensures queue == QueueAfterAdd(old(queue), old(dirty), old(processing), old(shuttingDown), Some(item))
      ensures dirty == DirtyAfterAdd(old(dirty), old(shuttingDown), Some(item))
    {
      if shuttingDown || item in dirty {
        return;
      }
      dirty := dirty + {item};
      if item in processing {
        return;
      }
      queue := queue + [item];
    }

    /**
     * `Get()`: with nothing queued it reports `quit` (the library blocks
     * until shutdown or a new key; the caller here only calls it when a key
     * is queued or the queue is shutting down). Otherwise it hands out the
     * first key and marks it in process.
     */
    method Get() returns (item: string, quit: bool)
      requires Valid()
      requires |queue| > 0 || shuttingDown
      modifies this
      ensures Valid()
      ensures shuttingDown == old(shuttingDown) && failures == old(failures)
      ensures quit <==> |old(queue)| == 0
      ensures quit ==> queue == old(queue) && dirty == old(dirty) && processing == old(processing)
      ensures !quit ==>
                && item == old(queue[0])
                && queue == old(queue[1..])
                && processing == old(processing) + {item}
                && dirty == old(dirty) - {item}
    {
      if |queue| == 0 {
        return "", true;
      }
      item := queue[0];
      queue := queue[1..];
      processing := processing + {item};
      dirty := dirty - {item};
      quit := false;
    }

    /** `Done(item)`: `item` leaves process and is queued again if it was added meanwhile. */
    method Done(item: string)
      requires Valid()
      requires item in processing
      modifies this
      ensures Valid()
      ensures shuttingDown == old(shuttingDown) && failures == old(failures) && dirty == old(dirty)
      ensures processing == old(processing) - {item}
      ensures queue == if item in old(dirty) then old(queue) + [item] else old(queue)
    {
      processing := processing - {item};
      if item in dirty {
        queue := queue + [item];
      }
    }

    /** `Forget(item)`: the rate limiter drops its failure count. */
    method Forget(item: string)
      modifies this
      ensures queue == old(queue) && dirty == old(dirty) && processing == old(processing)
      ensures shuttingDown == old(shuttingDown)
      ensures failures == old(failures) - {item}
    {
      failures := failures - {item};
    }

    /** `AddRateLimited(item)`: counts one more failure, then adds `item` (the delay is left out). */
    method AddRateLimited(item: string)
      requires Valid()
      modifies this
      ensures Valid()
      ensures failures == old(failures)[item := old(NumRequeues(item)) + 1]
      ensures processing == old(processing) && shuttingDown == old(shuttingDown)
      ensures old(shuttingDown) || item in old(dirty) ==> queue == old(queue) && dirty == old(dirty)
      ensures !old(shuttingDown) && item !in old(dirty) ==>
                && dirty == old(dirty) + {item}
                && queue == (if item in processing then old(queue) else old(queue) + [item])
    {
      failures := failures[item := NumRequeues(item) + 1];
      Add(item);
    }

    /** `ShutDown()`: later adds are ignored and `Get` reports quit once the queue is drained. */
    method ShutDown()
      modifies this
      ensures queue == old(queue) && dirty == old(dirty) && processing == old(processing) && failures == old(failures)
      ensures shuttingDown
    {
      shuttingDown := true;
    }
  }
}
