/**
 * Validation of the older `api.APIServer` descriptor (`validation.go`):
 * a sequence of field checks, each appending its errors to one list.
 *
 * The library checks the code calls (path-segment names, DNS-1123
 * subdomains after section 2.1 of RFC 1123, DNS-1035 labels after
 * section 2.3.1 of RFC 1035, host:port splitting, and the metadata checks
 * other than the name) are parameters: `Checks` carries them, each
 * returning its failure messages.
 */
module Validation {
  import opened Wrappers
  import Apifederation
  import opened DiscoveryApi

  datatype ErrorType = Required | Invalid

  /** The offending value an error reports; `Required` errors carry none. */
  datatype BadValue = NoValue | StringValue(s: string) | IntValue(i: int)

  /** A `field.Error`: its kind, the field path (`["spec", "group"]`), the value and the detail. */
  datatype FieldError = FieldError(errorType: ErrorType, path: seq<string>, badValue: BadValue, detail: string)

  datatype Checks = Checks(
    isValidPathSegmentName: string -> seq<string>,
    isDNS1123Subdomain: string -> seq<string>,
    isDNS1035Label: string -> seq<string>,
    // the error text of `net.SplitHostPort`, if it fails
    splitHostPortError: string -> Option<string>,
    // the metadata checks other than the name, with paths below `metadata`
    otherMetaErrors: Apifederation.ObjectMeta -> seq<FieldError>,
    // `ValidateObjectMetaUpdate(new, old)`, with paths below `metadata`
    metaUpdateErrors: (Apifederation.ObjectMeta, Apifederation.ObjectMeta) -> seq<FieldError>)

  const EmptyGroupDetail: string := "only v1 may have an empty group and it better be legacy kube"
  const PriorityDetail: string := "priority must be positive"
  const NameRequiredDetail: string := "name or generateName is required"

  /** The only name an APIServer may have: version "." group. */
  function RequiredName(spec: APIServerSpec): string
  {
    spec.version + "." + spec.group
  }

  /** Go's `%q` of s, without the escaping of special characters. */
  function Quoted(s: string): string
  {
    "\"" + s + "\""
  }

  /**
   * The name callback handed to `ValidateObjectMeta`: the path-segment
   * failures if any, else one message when the name is not the required
   * one.
   */
  function NameMessages(c: Checks, spec: APIServerSpec, name: string): (msgs: seq<string>)
    ensures |msgs| == 0 <==> |c.isValidPathSegmentName(name)| == 0 && name == RequiredName(spec)
  {
    var minimalFailures := c.isValidPathSegmentName(name);
    if |minimalFailures| > 0 then minimalFailures
    else if name != RequiredName(spec) then
      ["must be `spec.version+\".\"+spec.group`: " + Quoted(RequiredName(spec))]
    else []
  }

  /** Prefixes each error's path with `metadata`. */
  function UnderMetadata(errs: seq<FieldError>): (r: seq<FieldError>)
    ensures |r| == |errs|
    ensures forall i :: 0 <= i < |r| ==> r[i].path == ["metadata"] + errs[i].path
  {
    seq(|errs|, i requires 0 <= i < |errs| => errs[i].(path := ["metadata"] + errs[i].path))
  }

  /** One Invalid error on `path` with value `v` per message. */
  function InvalidEach(path: seq<string>, v: BadValue, msgs: seq<string>): (r: seq<FieldError>)
    ensures |r| == |msgs|
  {
    seq(|msgs|, i requires 0 <= i < |msgs| => FieldError(Invalid, path, v, msgs[i]))
  }

  /**
   * `ValidateObjectMeta(&meta, false, nameFn, field.NewPath("metadata"))`:
   * an empty name is Required, otherwise each callback message is an
   * Invalid error on `metadata.name`; the other metadata checks follow.
   */
  function MetaErrors(c: Checks, s: APIServer): seq<FieldError>
  {
    (if s.meta.name == "" then [FieldError(Required, ["metadata", "name"], NoValue, NameRequiredDetail)]
     else InvalidEach(["metadata", "name"], StringValue(s.meta.name), NameMessages(c, s.spec, s.meta.name)))
    + UnderMetadata(c.otherMetaErrors(s.meta))
  }

  function GroupErrors(c: Checks, spec: APIServerSpec): seq<FieldError>
  {
    (if |spec.group| == 0 && spec.version != "v1" then [FieldError(Required, ["spec", "group"], NoValue, EmptyGroupDetail)] else [])
    + (if |spec.group| > 0 then InvalidEach(["spec", "group"], StringValue(spec.group), c.isDNS1123Subdomain(spec.group)) else [])
  }

  function VersionErrors(c: Checks, spec: APIServerSpec): seq<FieldError>
  {
    InvalidEach(["spec", "version"], StringValue(spec.version), c.isDNS1035Label(spec.version))
  }

  function PriorityErrors(spec: APIServerSpec): seq<FieldError>
  {
    if spec.priority <= 0 then [FieldError(Invalid, ["spec", "priority"], IntValue(spec.priority), PriorityDetail)] else []
  }

  function HostErrors(c: Checks, spec: APIServerSpec): seq<FieldError>
  {
    if |spec.internalHost| == 0 then [FieldError(Required, ["spec", "internalHost"], NoValue, "")]
    else match c.splitHostPortError(spec.internalHost)
      case Some(e) => [FieldError(Invalid, ["spec", "internalHost"], StringValue(spec.internalHost), e)]
      case None => []
  }

  /** All errors `ValidateAPIServer` reports, in order. */
  function ValidationErrors(c: Checks, s: APIServer): seq<FieldError>
  {
    MetaErrors(c, s) + GroupErrors(c, s.spec) + VersionErrors(c, s.spec) + PriorityErrors(s.spec) + HostErrors(c, s.spec)
  }

  /** `ValidateAPIServer(apiServer)`, appending error by error. */
  method ValidateAPIServer(c: Checks, s: APIServer) returns (allErrs: seq<FieldError>)
    ensures allErrs == ValidationErrors(c, s)
  {
    allErrs := MetaErrors(c, s);
    if |s.spec.group| == 0 && s.spec.version != "v1" {
      allErrs := allErrs + [FieldError(Required, ["spec", "group"], NoValue, EmptyGroupDetail)];
    }
    if |s.spec.group| > 0 {
      var msgs := c.isDNS1123Subdomain(s.spec.group);
      allErrs := AppendInvalid(allErrs, ["spec", "group"], StringValue(s.spec.group), msgs);
    }
    assert allErrs == MetaErrors(c, s) + GroupErrors(c, s.spec);
    allErrs := AppendInvalid(allErrs, ["spec", "version"], StringValue(s.spec.version), c.isDNS1035Label(s.spec.version));
    if s.spec.priority <= 0 {
      allErrs := allErrs + [FieldError(Invalid, ["spec", "priority"], IntValue(s.spec.priority), PriorityDetail)];
    }
    if |s.spec.internalHost| == 0 {
      allErrs := allErrs + [FieldError(Required, ["spec", "internalHost"], NoValue, "")];
    } else {
      var err := c.splitHostPortError(s.spec.internalHost);
      if err.Some? {
        allErrs := allErrs + [FieldError(Invalid, ["spec", "internalHost"], StringValue(s.spec.internalHost), err.value)];
      }
    }
  }

  /** The `for _, errString := range msgs { allErrs = append(allErrs, field.Invalid(...)) }` loops. */
  method AppendInvalid(errs: seq<FieldError>, path: seq<string>, v: BadValue, msgs: seq<string>) returns (r: seq<FieldError>)
    ensures r == errs + InvalidEach(path, v, msgs)
  {
    r := errs;
    for i := 0 to |msgs|
      invariant r == errs + InvalidEach(path, v, msgs[..i])
    {
      assert InvalidEach(path, v, msgs[..i + 1]) == InvalidEach(path, v, msgs[..i]) + [FieldError(Invalid, path, v, msgs[i])];
      r := r + [FieldError(Invalid, path, v, msgs[i])];
    }
    assert msgs[..|msgs|] == msgs;
  }

  /** `ValidateAPIServerUpdate(new, old)`: the metadata-update errors, then those of `ValidateAPIServer(new)`. */
  method ValidateAPIServerUpdate(c: Checks, newServer: APIServer, oldServer: APIServer) returns (allErrs: seq<FieldError>)
    ensures allErrs == UnderMetadata(c.metaUpdateErrors(newServer.meta, oldServer.meta)) + ValidationErrors(c, newServer)
  {
    allErrs := UnderMetadata(c.metaUpdateErrors(newServer.meta, oldServer.meta));
    var errs := ValidateAPIServer(c, newServer);
    allErrs := allErrs + errs;
  }

  // ---------------------------------------------------------------------
  // What the error list says, field by field
  // ---------------------------------------------------------------------

  /** The errors whose path is exactly `path`, in order. */
  function OnPath(errs: seq<FieldError>, path: seq<string>): seq<FieldError>
  {
    if |errs| == 0 then []
    else (if errs[0].path == path then [errs[0]] else []) + OnPath(errs[1..], path)
  }

  lemma {:induction false} OnPathConcat(a: seq<FieldError>, b: seq<FieldError>, path: seq<string>)
    ensures OnPath(a + b, path) == OnPath(a, path) + OnPath(b, path)
  {
    if |a| == 0 {
      assert a + b == b;
    } else {
      var head := if a[0].path == path then [a[0]] else [];
      assert (a + b)[0] == a[0];
      assert (a + b)[1..] == a[1..] + b;
      assert OnPath(a + b, path) == head + OnPath(a[1..] + b, path);
      OnPathConcat(a[1..], b, path);
      assert OnPath(a, path) == head + OnPath(a[1..], path);
    }
  }

  /** A list none of whose errors sits on `path` contributes nothing there. */
  lemma {:induction false} OnPathNone(errs: seq<FieldError>, path: seq<string>)
    requires forall i :: 0 <= i < |errs| ==> errs[i].path != path
    ensures OnPath(errs, path) == []
  {
    if |errs| > 0 {
      OnPathNone(errs[1..], path);
    }
  }

  lemma {:induction false} OnPathAll(errs: seq<FieldError>, path: seq<string>)
    requires forall i :: 0 <= i < |errs| ==> errs[i].path == path
    ensures OnPath(errs, path) == errs
  {
    if |errs| > 0 {
      OnPathAll(errs[1..], path);
    }
  }

  /** The metadata errors all sit below `metadata`, so none on a `spec` field. */
  lemma MetaNotOnSpec(c: Checks, s: APIServer, field: string)
    ensures OnPath(MetaErrors(c, s), ["spec", field]) == []
  {
    var m := MetaErrors(c, s);
    forall i | 0 <= i < |m| ensures m[i].path != ["spec", field] {
      assert m[i].path[0] == "metadata";
    }
    OnPathNone(m, ["spec", field]);
  }

  /** The errors on a `spec` field come from the spec checks, in their order. */
  lemma SpecFieldErrors(c: Checks, s: APIServer, field: string)
    ensures OnPath(ValidationErrors(c, s), ["spec", field]) ==
              OnPath(GroupErrors(c, s.spec), ["spec", field])
              + OnPath(VersionErrors(c, s.spec), ["spec", field])
              + OnPath(PriorityErrors(s.spec), ["spec", field])
              + OnPath(HostErrors(c, s.spec), ["spec", field])
  {
    MetaNotOnSpec(c, s, field);
    OnPathFive(MetaErrors(c, s), GroupErrors(c, s.spec), VersionErrors(c, s.spec), PriorityErrors(s.spec), HostErrors(c, s.spec), ["spec", field]);
  }

  lemma OnPathFive(m: seq<FieldError>, g: seq<FieldError>, v: seq<FieldError>, pr: seq<FieldError>, h: seq<FieldError>, p: seq<string>)
    requires OnPath(m, p) == []
    ensures OnPath(m + g + v + pr + h, p) == OnPath(g, p) + OnPath(v, p) + OnPath(pr, p) + OnPath(h, p)
  {
    OnPathConcat(m + g + v + pr, h, p);
    OnPathConcat(m + g + v, pr, p);
    OnPathConcat(m + g, v, p);
    OnPathConcat(m, g, p);
  }

  /** Priority: exactly one Invalid error when it is not positive, none otherwise. */
  lemma PriorityValidation(c: Checks, s: APIServer)
    ensures OnPath(ValidationErrors(c, s), ["spec", "priority"]) ==
              if s.spec.priority <= 0 then [FieldError(Invalid, ["spec", "priority"], IntValue(s.spec.priority), PriorityDetail)]
              else []
  {
    var p := ["spec", "priority"];
    SpecFieldErrors(c, s, "priority");
    OnPathNone(GroupErrors(c, s.spec), p);
    OnPathNone(VersionErrors(c, s.spec), p);
    OnPathAll(PriorityErrors(s.spec), p);
    OnPathNone(HostErrors(c, s.spec), p);
  }

  /** Version: one Invalid error per DNS-1035 label failure, carrying that failure. */
  lemma VersionValidation(c: Checks, s: APIServer)
    ensures OnPath(ValidationErrors(c, s), ["spec", "version"]) ==
              InvalidEach(["spec", "version"], StringValue(s.spec.version), c.isDNS1035Label(s.spec.version))
  {
    var p := ["spec", "version"];
    SpecFieldErrors(c, s, "version");
    OnPathNone(GroupErrors(c, s.spec), p);
    OnPathAll(VersionErrors(c, s.spec), p);
    OnPathNone(PriorityErrors(s.spec), p);
    OnPathNone(HostErrors(c, s.spec), p);
  }

  /**
   * Group: an empty group is one Required error unless the version is v1;
   * a non-empty group has one Invalid error per DNS-1123 subdomain failure.
   */
  lemma GroupValidation(c: Checks, s: APIServer)
    ensures |s.spec.group| == 0 ==>
              OnPath(ValidationErrors(c, s), ["spec", "group"]) ==
                if s.spec.version != "v1" then [FieldError(Required, ["spec", "group"], NoValue, EmptyGroupDetail)] else []
    ensures |s.spec.group| > 0 ==>
              OnPath(ValidationErrors(c, s), ["spec", "group"]) ==
                InvalidEach(["spec", "group"], StringValue(s.spec.group), c.isDNS1123Subdomain(s.spec.group))
  {
    var p := ["spec", "group"];
    SpecFieldErrors(c, s, "group");
    OnPathAll(GroupErrors(c, s.spec), p);
    OnPathNone(VersionErrors(c, s.spec), p);
    OnPathNone(PriorityErrors(s.spec), p);
    OnPathNone(HostErrors(c, s.spec), p);
  }

  /**
   * Internal host: Required when empty; otherwise one Invalid error,
   * carrying the split error, exactly when it does not split as host:port.
   * The two never occur together.
   */
  lemma HostValidation(c: Checks, s: APIServer)
    ensures OnPath(ValidationErrors(c, s), ["spec", "internalHost"]) ==
              if |s.spec.internalHost| == 0 then [FieldError(Required, ["spec", "internalHost"], NoValue, "")]
              else if c.splitHostPortError(s.spec.internalHost).Some? then
                [FieldError(Invalid, ["spec", "internalHost"], StringValue(s.spec.internalHost),
                            c.splitHostPortError(s.spec.internalHost).value)]
              else []
  {
    var p := ["spec", "internalHost"];
    SpecFieldErrors(c, s, "internalHost");
    OnPathNone(GroupErrors(c, s.spec), p);
    OnPathNone(VersionErrors(c, s.spec), p);
    OnPathNone(PriorityErrors(s.spec), p);
    OnPathAll(HostErrors(c, s.spec), p);
  }

  /** A name other than version "." group is reported on `metadata.name`. */
  lemma NameMismatchReported(c: Checks, s: APIServer)
    requires s.meta.name != RequiredName(s.spec)
    ensures exists e :: e in ValidationErrors(c, s) && e.path == ["metadata", "name"]
  {
    var msgs := NameMessages(c, s.spec, s.meta.name);
    if s.meta.name == "" {
      assert ValidationErrors(c, s)[0].path == ["metadata", "name"];
    } else {
      var e := FieldError(Invalid, ["metadata", "name"], StringValue(s.meta.name), msgs[0]);
      assert ValidationErrors(c, s)[0] == e;
    }
  }

  /**
   * The legacy sentinel: a descriptor with an empty group passes
   * validation only as version v1 named "v1.".
   */
  lemma LegacySentinel(c: Checks, s: APIServer)
    requires ValidationErrors(c, s) == []
    requires s.spec.group == ""
    ensures s.spec.version == "v1" && s.meta.name == "v1."
  {
    GroupValidation(c, s);
    if s.meta.name != RequiredName(s.spec) {
      NameMismatchReported(c, s);
    }
  }
}
