/**
 * The registry strategy for APIServer objects (`strategy.go`): fixed
 * flags, validation by delegation, the status-preserving update, and the
 * attribute function used to filter watches.
 */
module Strategy {
  import opened Wrappers
  import Apifederation
  import opened DiscoveryApi
  import opened Validation

  /** A stored APIServer object; the update hooks change it in place. */
  class APIServerObject {
    var meta: Apifederation.ObjectMeta
    var spec: APIServerSpec
    var status: APIServerStatus

    constructor (value: APIServer)
      ensures Value() == value
    {
      meta := value.meta;
      spec := value.spec;
      status := value.status;
    }

    function Value(): APIServer
      reads this
    {
      APIServer(meta, spec, status)
    }
  }

  /** `NamespaceScoped`: APIServers are cluster-scoped. */
  function NamespaceScoped(): (r: bool)
    ensures !r
  {
    false
  }

  /** `AllowCreateOnUpdate`: an update never creates. */
  function AllowCreateOnUpdate(): (r: bool)
    ensures !r
  {
    false
  }

  /** `AllowUnconditionalUpdate`: updates must carry a resource version. */
  function AllowUnconditionalUpdate(): (r: bool)
    ensures !r
  {
    false
  }

  /** `PrepareForCreate`: only checks the object's type. */
  method PrepareForCreate(obj: APIServerObject)
    ensures obj.Value() == old(obj.Value())
  {
  }

  /** `Canonicalize`: nothing to normalise. */
  method Canonicalize(obj: APIServerObject)
    ensures obj.Value() == old(obj.Value())
  {
  }

  /**
   * `PrepareForUpdate(obj, old)`: the new object keeps the old object's
   * status; nothing else of either object changes.
   */
  method PrepareForUpdate(obj: APIServerObject, oldObj: APIServerObject)
    modifies obj
    ensures obj.status == old(oldObj.status)
    ensures obj.meta == old(obj.meta) && obj.spec == old(obj.spec)
    ensures obj != oldObj ==> oldObj.Value() == old(oldObj.Value())
  {
    obj.status := oldObj.status;
  }

  /** `Validate`: exactly the errors of `ValidateAPIServer`. */
  method Validate(c: Checks, obj: APIServerObject) returns (errs: seq<FieldError>)
    ensures errs == ValidationErrors(c, obj.Value())
  {
    errs := ValidateAPIServer(c, obj.Value());
  }

  /** `ValidateUpdate`: exactly the errors of `ValidateAPIServerUpdate`. */
  method ValidateUpdate(c: Checks, obj: APIServerObject, oldObj: APIServerObject) returns (errs: seq<FieldError>)
    ensures errs == UnderMetadata(c.metaUpdateErrors(obj.meta, oldObj.meta)) + ValidationErrors(c, obj.Value())
  {
    errs := ValidateAPIServerUpdate(c, obj.Value(), oldObj.Value());
  }

  // ---------------------------------------------------------------------
  // Watch filtering
  // ---------------------------------------------------------------------

  /** What the storage layer hands to `GetAttrs`: an APIServer or anything else. */
  datatype RuntimeObject = APIServerObj(server: APIServer) | OtherObj(kind: string)

  datatype Attrs = Attrs(labels: map<string, string>, fields: map<string, string>)

  /** `APIServerToSelectableFields`: the object-meta field set with the namespace field. */
  function APIServerToSelectableFields(s: APIServer): (f: map<string, string>)
    ensures f.Keys == {"metadata.name", "metadata.namespace"}
    ensures f["metadata.name"] == s.meta.name && f["metadata.namespace"] == s.meta.namespace
  {
    map["metadata.name" := s.meta.name, "metadata.namespace" := s.meta.namespace]
  }

  /** The `GetAttrs` of `MatchAPIServer`: the labels and fields of an APIServer, an error for anything else. */
  function GetAttrs(obj: RuntimeObject): (r: Result<Attrs, string>)
    ensures r.Err? <==> obj.OtherObj?
    ensures r.Ok? ==> r.value.labels == obj.server.meta.labels
    ensures r.Ok? ==> r.value.fields == APIServerToSelectableFields(obj.server)
  {
    match obj
    case APIServerObj(s) => Ok(Attrs(s.meta.labels, APIServerToSelectableFields(s)))
    case OtherObj(_) => Err("given object is not a APIServer.")
  }

  /**
   * The selection predicate `MatchAPIServer(label, field)` returns: the two
   * selectors and the function that reads an object's labels and fields.
   */
  datatype SelectionPredicate<L, F> = SelectionPredicate(
    labelSelector: L,
    fieldSelector: F,
    getAttrs: RuntimeObject -> Result<Attrs, string>)

  /**
   * `MatchAPIServer`: keeps the selectors as given and reads attributes with
   * `GetAttrs`, so an APIServer is matched on its own labels and its name
   * and namespace fields, and any other object is an error.
   */
  function MatchAPIServer<L, F>(labelSelector: L, fieldSelector: F): (p: SelectionPredicate<L, F>)
    ensures p.labelSelector == labelSelector && p.fieldSelector == fieldSelector
    ensures forall obj :: p.getAttrs(obj) == GetAttrs(obj)
  {
    SelectionPredicate(labelSelector, fieldSelector, GetAttrs)
  }
}
