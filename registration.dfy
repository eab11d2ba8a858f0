/**
 * What the two registration controllers (`apiserver_controller.go` and
 * `proxy_controller.go`) share: the calls they make on their manager, the
 * three-way decision of `sync`, the informer events they receive, and the
 * unwrapping of deletion tombstones.
 */
module Registration {
  import opened Wrappers
  import opened KubeErrors
  import opened Apifederation

  /** A call on the manager: add (or replace) a backend, or remove one by name. */
  datatype ManagerCall = AddCall(server: APIServer) | RemoveCall(name: string)

  /** The backends a manager holds after the given calls, by name. */
  function Registered(calls: seq<ManagerCall>): map<string, APIServer>
  {
    if |calls| == 0 then map[]
    else
      var before := Registered(calls[..|calls| - 1]);
      match calls[|calls| - 1]
      case AddCall(s) => before[s.Name() := s]
      case RemoveCall(n) => before - {n}
  }

  /**
   * The manager calls `sync(key)` makes for a lister lookup: a NotFound
   * error removes `key`, any other error calls nothing, a found object is
   * added.
   */
  function SyncCalls(lookup: Result<APIServer, Error>, key: string): (calls: seq<ManagerCall>)
    ensures lookup.Err? && IsNotFound(lookup.error) ==> calls == [RemoveCall(key)]
    ensures lookup.Err? && !IsNotFound(lookup.error) ==> calls == []
    ensures lookup.Ok? ==> calls == [AddCall(lookup.value)]
  {
    match lookup
    case Err(e) => if IsNotFound(e) then [RemoveCall(key)] else []
    case Ok(s) => [AddCall(s)]
  }

  /** What `sync(key)` returns: the lookup error unless it is NotFound. */
  function SyncResult(lookup: Result<APIServer, Error>): (r: Option<Error>)
    ensures r.None? <==> lookup.Ok? || IsNotFound(lookup.error)
    ensures r.Some? ==> r.value == lookup.error
  {
    match lookup
    case Err(e) => if IsNotFound(e) then None else Some(e)
    case Ok(_) => None
  }

  /**
   * After `sync(key)` the manager agrees with the lister about `key`: it
   * holds the found object, or nothing after NotFound; a failed lookup
   * changes nothing, to be retried. No other name is touched.
   */
  lemma SyncAgreesWithLister(calls: seq<ManagerCall>, lookup: Result<APIServer, Error>, key: string)
    requires lookup.Ok? ==> lookup.value.Name() == key
    ensures var before, after := Registered(calls), Registered(calls + SyncCalls(lookup, key));
      && (lookup.Ok? ==> key in after && after[key] == lookup.value)
      && (lookup.Err? && IsNotFound(lookup.error) ==> key !in after)
      && (SyncResult(lookup).Some? ==> after == before)
      && (forall n :: n != key ==> (n in after <==> n in before) && (n in after ==> after[n] == before[n]))
  {
    var next := calls + SyncCalls(lookup, key);
    if |SyncCalls(lookup, key)| > 0 {
      assert next[..|next| - 1] == calls;
    } else {
      assert next == calls;
    }
  }

  // ---------------------------------------------------------------------
  // Informer events
  // ---------------------------------------------------------------------

  /** What a `DeletedFinalStateUnknown` tombstone may carry. */
  datatype TombstoneContent = TombstonedServer(server: APIServer) | TombstonedOther

  /** The object a delete notification hands over. */
  datatype DeletedObject =
    | DeletedServer(server: APIServer)
    | Tombstone(key: string, obj: TombstoneContent)
    | DeletedOther

  /** The informer notifications; the controllers register handlers for add and delete only. */
  datatype Event =
    | AddEvent(server: APIServer)
    | UpdateEvent(oldServer: APIServer, newServer: APIServer)
    | DeleteEvent(obj: DeletedObject)

  /** The APIServer `deleteAPIServer` recovers, unwrapping a tombstone, if any. */
  function UnwrapDeleted(obj: DeletedObject): (r: Option<APIServer>)
    ensures r.Some? <==> obj.DeletedServer? || (obj.Tombstone? && obj.obj.TombstonedServer?)
    ensures obj.DeletedServer? ==> r == Some(obj.server)
    ensures obj.Tombstone? && obj.obj.TombstonedServer? ==> r == Some(obj.obj.server)
  {
    match obj
    case DeletedServer(s) => Some(s)
    case Tombstone(_, TombstonedServer(s)) => Some(s)
    case _ => None
  }

  /** The object an event leads the controller to enqueue, if any. */
  function EventObject(e: Event): (r: Option<APIServer>)
    ensures e.UpdateEvent? ==> r.None?
    ensures e.AddEvent? ==> r == Some(e.server)
    ensures e.DeleteEvent? ==> r == UnwrapDeleted(e.obj)
  {
    match e
    case AddEvent(s) => Some(s)
    case UpdateEvent(_, _) => None
    case DeleteEvent(obj) => UnwrapDeleted(obj)
  }
}
