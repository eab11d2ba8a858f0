/**
 * The discovery handlers of `handler_apis.go`: the `/apis` filter, which
 * lists the aggregator's own group first and then one entry per backend
 * group, and the `/apis/<group>` handler.
 *
 * Responses are structured values (status code and what would be encoded);
 * JSON encoding and writing are not modelled.
 */
module HandlerApis {
  import opened Wrappers
  import opened KubeErrors
  import opened GoStrings
  import opened Apifederation
  import opened ApifederationHelpers
  import opened Grouping

  /** The version the aggregator serves its own group at. */
  const V1Beta1: string := "v1beta1"

  datatype GroupVersionForDiscovery = GroupVersionForDiscovery(groupVersion: string, version: string)

  datatype APIGroup = APIGroup(
    name: string,
    versions: seq<GroupVersionForDiscovery>,
    preferredVersion: GroupVersionForDiscovery)

  datatype APIGroupList = APIGroupList(groups: seq<APIGroup>)

  datatype Response =
    | Delegated                               // handed to the delegate handler unchanged
    | TextError(code: int, text: string)      // `http.Error`
    | StatusJSON(code: int, status: Status)   // `WriteRawJSON` of an API status
    | GroupListJSON(list: APIGroupList)       // 200 with an APIGroupList
    | GroupJSON(group: APIGroup)              // 200 with one APIGroup

  /** The entry for the aggregator's own group: only and preferred version v1beta1. */
  function OwnGroup(): APIGroup
  {
    var gv := GroupVersionForDiscovery(GroupName + "/" + V1Beta1, V1Beta1);
    APIGroup(GroupName, [gv], gv)
  }

  /** The discovery version entry a backend contributes: group/version and version. */
  function VersionOf(s: APIServer): GroupVersionForDiscovery
  {
    GroupVersionForDiscovery(s.spec.group + "/" + s.spec.version, s.spec.version)
  }

  /** The entry `newDiscoveryAPIGroup` builds once its argument is sorted. */
  function DiscoveryGroup(sorted: seq<APIServer>): APIGroup
    requires |sorted| > 0
  {
    APIGroup(
      sorted[0].spec.group,
      seq(|sorted|, i requires 0 <= i < |sorted| => VersionOf(sorted[i])),
      VersionOf(sorted[0]))
  }

  /**
   * The preferred version is the first listed version and belongs to the
   * lowest (priority, name) server; every server contributes one version,
   * in ByPriority order.
   */
  lemma DiscoveryGroupPreferred(sorted: seq<APIServer>)
    requires |sorted| > 0 && Sorted(sorted)
    ensures DiscoveryGroup(sorted).preferredVersion == DiscoveryGroup(sorted).versions[0]
    ensures forall y :: y in sorted ==> !Less(y, sorted[0])
    ensures |DiscoveryGroup(sorted).versions| == |sorted|
    ensures forall i :: 0 <= i < |sorted| ==>
              DiscoveryGroup(sorted).versions[i].groupVersion == sorted[i].spec.group + "/" + sorted[i].spec.version
  {
    forall y | y in sorted ensures !Less(y, sorted[0]) {
      var i :| 0 <= i < |sorted| && sorted[i] == y;
      if i == 0 { LessIrreflexive(y); }
    }
  }

  /**
   * `newDiscoveryAPIGroup(apiServers)`: sorts the caller's array in place,
   * then reads `apiServers[0]` for the name and preferred version (so the
   * preferred version is that of the lowest server) and appends one version
   * per server.
   */
  method NewDiscoveryAPIGroup(apiServers: array<APIServer>) returns (g: APIGroup)
    requires apiServers.Length > 0
    modifies apiServers
    ensures Sorted(apiServers[..])
    ensures multiset(apiServers[..]) == old(multiset(apiServers[..]))
    ensures g == DiscoveryGroup(apiServers[..])
  {
    SortByPriority(apiServers);
    var first := apiServers[0];
    var versions: seq<GroupVersionForDiscovery> := [];
    for i := 0 to apiServers.Length
      invariant |versions| == i
      invariant forall k :: 0 <= k < i ==> versions[k] == VersionOf(apiServers[k])
    {
      versions := versions + [VersionOf(apiServers[i])];
    }
    g := APIGroup(first.spec.group, versions, VersionOf(first));
  }

  // ---------------------------------------------------------------------
  // apisHandler
  // ---------------------------------------------------------------------

  /** `path + "/"` lies under `/apis/apifederation.openshift.io/`. */
  predicate IsOwnGroupPath(path: string)
  {
    HasPrefix(path + "/", "/apis/" + GroupName + "/")
  }

  /** The paths the `/apis` filter hands to its delegate. */
  predicate DelegatesPath(path: string)
  {
    IsOwnGroupPath(path) || (path != "/apis" && path != "/apis/")
  }

  /** The group lists of the walk whose group is not the legacy empty group. */
  function NonLegacy(r: seq<seq<APIServer>>): (n: seq<seq<APIServer>>)
    requires AllNonEmpty(r)
    ensures AllNonEmpty(n)
    ensures forall k :: 0 <= k < |n| ==> n[k] in r && n[k][0].spec.group != ""
    ensures forall l: seq<APIServer> :: l in r && l[0].spec.group != "" ==> l in n
  {
    if |r| == 0 then []
    else (if r[0][0].spec.group == "" then [] else [r[0]]) + NonLegacy(r[1..])
  }

  /** members[k] is a sorted permutation of lists[k], for every k. */
  ghost predicate SortedPermutations(members: seq<seq<APIServer>>, lists: seq<seq<APIServer>>)
  {
    && |members| == |lists|
    && forall k :: 0 <= k < |lists| ==>
         |members[k]| > 0 && Sorted(members[k]) && multiset(members[k]) == multiset(lists[k])
  }

  function DiscoveryGroups(members: seq<seq<APIServer>>): (gs: seq<APIGroup>)
    requires AllNonEmpty(members)
  {
    seq(|members|, k requires 0 <= k < |members| => DiscoveryGroup(members[k]))
  }

  /**
   * `apisHandler.ServeHTTP`: delegates the aggregator's own group and every
   * path other than `/apis` and `/apis/`; answers a lister failure with 500;
   * otherwise lists its own group, then one entry per non-legacy group of
   * `SortByGroup` (each built by `newDiscoveryAPIGroup` from a fresh array
   * of the group's servers). `servers` is the slice the lister returned,
   * which `SortByGroup` sorts in place; `members` records the order each
   * group's array was sorted into.
   */
  method ServeApis(path: string, listErr: Option<Error>, servers: array<APIServer>)
    returns (resp: Response, ghost members: seq<seq<APIServer>>)
    modifies servers
    ensures DelegatesPath(path) ==> resp == Delegated && servers[..] == old(servers[..])
    ensures !DelegatesPath(path) && listErr.Some? ==>
              resp == TextError(500, listErr.value.Text()) && servers[..] == old(servers[..])
    ensures !DelegatesPath(path) && listErr.None? ==>
              && Sorted(servers[..])
              && multiset(servers[..]) == old(multiset(servers[..]))
              && SortedPermutations(members, NonLegacy(GroupAll(servers[..])))
              && AllNonEmpty(members)
              && resp == GroupListJSON(APIGroupList([OwnGroup()] + DiscoveryGroups(members)))
  {
    members := [];
    if IsOwnGroupPath(path) {
      return Delegated, members;
    }
    if path != "/apis" && path != "/apis/" {
      return Delegated, members;
    }
    var groups := [OwnGroup()];
    if listErr.Some? {
      return TextError(500, listErr.value.Text()), members;
    }
    var byGroup := SortByGroup(servers);
    var entries;
    entries, members := DiscoveryGroupsOf(byGroup);
    resp := GroupListJSON(APIGroupList(groups + entries));
  }

  /**
   * The loop of `apisHandler.ServeHTTP` over the groups of `SortByGroup`:
   * skips the legacy group, copies each other group into a fresh array and
   * builds its entry with `newDiscoveryAPIGroup`.
   */
  method DiscoveryGroupsOf(byGroup: seq<seq<APIServer>>) returns (entries: seq<APIGroup>, ghost members: seq<seq<APIServer>>)
    requires AllNonEmpty(byGroup)
    ensures SortedPermutations(members, NonLegacy(byGroup)) && AllNonEmpty(members)
    ensures entries == DiscoveryGroups(members)
    ensures |entries| == |NonLegacy(byGroup)|
    ensures forall k :: 0 <= k < |entries| ==>
              && |entries[k].versions| == |NonLegacy(byGroup)[k]|
              && entries[k].name in GroupsOf(NonLegacy(byGroup)[k])
  {
    members := [];
    entries := [];
    for i := 0 to |byGroup|
      invariant SortedPermutations(members, NonLegacy(byGroup[..i]))
      invariant AllNonEmpty(members)
      invariant entries == DiscoveryGroups(members)
    {
      assert byGroup[..i + 1] == byGroup[..i] + [byGroup[i]];
      entries, members := GroupStep(byGroup[..i], byGroup[i], members, entries);
    }
    assert byGroup[..|byGroup|] == byGroup;
    EntriesShape(NonLegacy(byGroup), members);
  }

  /** The groups of a list of servers. */
  function GroupsOf(l: seq<APIServer>): (gs: set<string>)
    ensures forall y :: y in l ==> y.spec.group in gs
  {
    set y | y in l :: y.spec.group
  }

  /** Each entry is named after a group of its list and has one version per server of it. */
  lemma EntriesShape(lists: seq<seq<APIServer>>, members: seq<seq<APIServer>>)
    requires AllNonEmpty(members) && SortedPermutations(members, lists)
    ensures forall k :: 0 <= k < |lists| ==>
              && |DiscoveryGroups(members)[k].versions| == |lists[k]|
              && DiscoveryGroups(members)[k].name in GroupsOf(lists[k])
  {
    forall k | 0 <= k < |lists|
      ensures |DiscoveryGroups(members)[k].versions| == |lists[k]|
      ensures DiscoveryGroups(members)[k].name in GroupsOf(lists[k])
    {
      var m := members[k];
      assert m[0] in multiset(lists[k]);
      assert |multiset(m)| == |multiset(lists[k])|;
    }
  }

  /** One iteration of the loop: a legacy group is skipped, any other gets its entry. */
  method GroupStep(ghost done: seq<seq<APIServer>>, l: seq<APIServer>, ghost members: seq<seq<APIServer>>, entries: seq<APIGroup>)
    returns (entries': seq<APIGroup>, ghost members': seq<seq<APIServer>>)
    requires |l| > 0 && AllNonEmpty(done) && AllNonEmpty(members) && SortedPermutations(members, NonLegacy(done))
    requires entries == DiscoveryGroups(members)
    ensures AllNonEmpty(members') && SortedPermutations(members', NonLegacy(done + [l]))
    ensures entries' == DiscoveryGroups(members')
  {
    NonLegacyAppend(done, l);
    if |l[0].spec.group| == 0 {
      return entries, members;
    }
    entries', members' := AppendEntry(l, NonLegacy(done), members, entries);
  }

  /** One iteration for a non-legacy group: a fresh array, sorted into its entry. */
  method AppendEntry(l: seq<APIServer>, ghost lists: seq<seq<APIServer>>, ghost members: seq<seq<APIServer>>, entries: seq<APIGroup>)
    returns (entries': seq<APIGroup>, ghost members': seq<seq<APIServer>>)
    requires |l| > 0 && AllNonEmpty(members) && SortedPermutations(members, lists)
    requires entries == DiscoveryGroups(members)
    ensures AllNonEmpty(members') && SortedPermutations(members', lists + [l])
    ensures entries' == DiscoveryGroups(members')
  {
    var groupServers := NewArray(l);
    var g := NewDiscoveryAPIGroup(groupServers);
    ExtendGroups(members, lists, groupServers[..], l);
    members' := members + [groupServers[..]];
    entries' := entries + [g];
  }

  lemma {:induction false} NonLegacyAppend(r: seq<seq<APIServer>>, l: seq<APIServer>)
    requires AllNonEmpty(r) && |l| > 0
    ensures NonLegacy(r + [l]) == NonLegacy(r) + (if l[0].spec.group == "" then [] else [l])
  {
    if |r| > 0 {
      assert (r + [l])[1..] == r[1..] + [l];
      NonLegacyAppend(r[1..], l);
    }
  }

  lemma ExtendGroups(members: seq<seq<APIServer>>, lists: seq<seq<APIServer>>, m: seq<APIServer>, l: seq<APIServer>)
    requires SortedPermutations(members, lists) && AllNonEmpty(members)
    requires |m| > 0 && Sorted(m) && multiset(m) == multiset(l)
    ensures SortedPermutations(members + [m], lists + [l]) && AllNonEmpty(members + [m])
    ensures DiscoveryGroups(members + [m]) == DiscoveryGroups(members) + [DiscoveryGroup(m)]
  {
  }

  /** A fresh array holding `l`, as the `[]*APIServer{}` built for each group. */
  method NewArray(l: seq<APIServer>) returns (a: array<APIServer>)
    ensures fresh(a) && a[..] == l
  {
    a := new APIServer[|l|](k requires 0 <= k < |l| => l[k]);
  }

  /** The lists NonLegacy keeps still have pairwise different groups. */
  lemma {:induction false} NonLegacyDistinctHeads(r: seq<seq<APIServer>>)
    requires AllNonEmpty(r)
    requires forall j, k :: 0 <= j < k < |r| ==> r[j][0].spec.group != r[k][0].spec.group
    ensures forall j, k :: 0 <= j < k < |NonLegacy(r)| ==>
              NonLegacy(r)[j][0].spec.group != NonLegacy(r)[k][0].spec.group
  {
    if |r| > 0 {
      NonLegacyDistinctHeads(r[1..]);
      var n: seq<seq<APIServer>> := NonLegacy(r[1..]);
      forall k | 0 <= k < |n| ensures n[k][0].spec.group != r[0][0].spec.group {
        var j :| 0 <= j < |r[1..]| && r[1..][j] == n[k];
        assert r[j + 1] == n[k];
      }
    }
  }

  /** Each kept list holds exactly the servers of its head's group. */
  lemma NonLegacyAreMembers(s: seq<APIServer>)
    ensures forall k :: 0 <= k < |NonLegacy(GroupAll(s))| ==>
              NonLegacy(GroupAll(s))[k] == Members(s, NonLegacy(GroupAll(s))[k][0].spec.group)
  {
    var r: seq<seq<APIServer>>, D: seq<string> := GroupAll(s), DistinctGroups(s);
    GroupAllCharacterized(s);
    HeadsAreGroups(s);
    var L: seq<seq<APIServer>> := NonLegacy(r);
    forall k | 0 <= k < |L| ensures L[k] == Members(s, L[k][0].spec.group) {
      var j :| 0 <= j < |r| && r[j] == L[k];
    }
  }

  /** Every non-legacy group of s heads one of the kept lists. */
  lemma NonLegacyCovers(s: seq<APIServer>, x: APIServer)
    requires x in s && x.spec.group != ""
    ensures exists k :: 0 <= k < |NonLegacy(GroupAll(s))| && NonLegacy(GroupAll(s))[k][0].spec.group == x.spec.group
  {
    var r: seq<seq<APIServer>>, D: seq<string> := GroupAll(s), DistinctGroups(s);
    GroupAllCharacterized(s);
    HeadsAreGroups(s);
    var g := x.spec.group;
    DistinctGroupsMembers(s, g);
    assert g in D;
    var j :| 0 <= j < |D| && D[j] == g;
    assert r[j] in NonLegacy(r);
  }

  /** The entry for a sorted permutation of a one-group list is named after that group. */
  lemma EntryName(m: seq<APIServer>, l: seq<APIServer>, g: string)
    requires |m| > 0 && multiset(m) == multiset(l)
    requires forall y :: y in l ==> y.spec.group == g
    ensures DiscoveryGroup(m).name == g
  {
    assert m[0] in multiset(l);
  }

  /**
   * What the `/apis` listing holds after the aggregator's own group: one
   * entry per group of the servers other than the legacy empty group, no
   * group twice, and each entry built from exactly that group's servers,
   * each version once.
   */
  lemma ApisListing(s: seq<APIServer>, members: seq<seq<APIServer>>)
    requires AllNonEmpty(members)
    requires SortedPermutations(members, NonLegacy(GroupAll(s)))
    ensures var gs := DiscoveryGroups(members);
      && (forall k :: 0 <= k < |gs| ==> gs[k].name != "")
      && (forall k :: 0 <= k < |gs| ==> multiset(members[k]) == multiset(Members(s, gs[k].name)))
      && (forall x :: x in s && x.spec.group != "" ==> exists k :: 0 <= k < |gs| && gs[k].name == x.spec.group)
      && (forall j, k :: 0 <= j < k < |gs| ==> gs[j].name != gs[k].name)
  {
    var L: seq<seq<APIServer>> := NonLegacy(GroupAll(s));
    var gs: seq<APIGroup> := DiscoveryGroups(members);
    NonLegacyAreMembers(s);
    forall k | 0 <= k < |gs| ensures gs[k].name == L[k][0].spec.group {
      EntryName(members[k], L[k], L[k][0].spec.group);
    }
    forall x | x in s && x.spec.group != ""
      ensures exists k :: 0 <= k < |gs| && gs[k].name == x.spec.group
    {
      NonLegacyCovers(s, x);
    }
    GroupAllDistinctHeads(s);
    NonLegacyDistinctHeads(GroupAll(s));
  }

  lemma GroupAllDistinctHeads(s: seq<APIServer>)
    ensures forall j, k :: 0 <= j < k < |GroupAll(s)| ==> GroupAll(s)[j][0].spec.group != GroupAll(s)[k][0].spec.group
  {
    GroupAllCharacterized(s);
    HeadsAreGroups(s);
  }

  /** The servers of a group keep distinct names when all servers have them. */
  lemma {:induction false} MembersDistinctNames(s: seq<APIServer>, g: string)
    requires DistinctNames(s)
    ensures DistinctNames(Members(s, g))
  {
    if |s| > 0 {
      var p := s[..|s| - 1];
      assert DistinctNames(p);
      MembersDistinctNames(p, g);
      var m := Members(p, g);
      forall y | y in m ensures y.Name() != s[|s| - 1].Name() {
        var i :| 0 <= i < |p| && p[i] == y;
      }
    }
  }

  /**
   * When no two servers share a name, the `/apis` listing is determined:
   * each entry is built from its group's servers in ByPriority order.
   */
  lemma ApisListingExact(s: seq<APIServer>, members: seq<seq<APIServer>>)
    requires Sorted(s) && DistinctNames(s)
    requires AllNonEmpty(members)
    requires SortedPermutations(members, NonLegacy(GroupAll(s)))
    ensures members == NonLegacy(GroupAll(s))
  {
    var L: seq<seq<APIServer>> := NonLegacy(GroupAll(s));
    NonLegacyAreMembers(s);
    forall k | 0 <= k < |L| ensures members[k] == L[k] {
      MembersSorted(s, L[k][0].spec.group);
      MembersDistinctNames(s, L[k][0].spec.group);
      SortedPermutationUnique(L[k], members[k]);
    }
  }

  // ---------------------------------------------------------------------
  // apiGroupHandler
  // ---------------------------------------------------------------------

  /**
   * `apiGroupHandler.ServeHTTP` for group `groupName`: a lister
   * `StatusError` is written back with its own code, any other lister error
   * is a 500; otherwise the servers of the group are collected in lister
   * order, none of them is a 404 with an empty body, and some are answered
   * with `newDiscoveryAPIGroup` of them (`sorted` is the order it sorted the
   * collected servers into).
   */
  method ServeApiGroup(groupName: string, listed: Result<seq<APIServer>, Error>)
    returns (resp: Response, ghost sorted: seq<APIServer>)
    ensures listed.Err? && listed.error.StatusError? ==>
              resp == StatusJSON(listed.error.status.code, listed.error.status)
    ensures listed.Err? && listed.error.PlainError? ==>
              resp == TextError(500, listed.error.Text())
    ensures listed.Ok? && |Members(listed.value, groupName)| == 0 ==> resp == TextError(404, "")
    ensures listed.Ok? && |Members(listed.value, groupName)| > 0 ==>
              && |sorted| > 0 && Sorted(sorted)
              && multiset(sorted) == multiset(Members(listed.value, groupName))
              && resp == GroupJSON(DiscoveryGroup(sorted))
  {
    sorted := [];
    if listed.Err? {
      if listed.error.StatusError? {
        return StatusJSON(listed.error.status.code, listed.error.status), sorted;
      }
      return TextError(500, listed.error.Text()), sorted;
    }
    var apiServers := listed.value;
    var forGroup: seq<APIServer> := [];
    for i := 0 to |apiServers|
      invariant forGroup == Members(apiServers[..i], groupName)
    {
      assert apiServers[..i + 1][..i] == apiServers[..i];
      if apiServers[i].spec.group == groupName {
        forGroup := forGroup + [apiServers[i]];
      }
    }
    assert apiServers[..|apiServers|] == apiServers;
    if |forGroup| == 0 {
      return TextError(404, ""), sorted;
    }
    var a := NewArray(forGroup);
    var g := NewDiscoveryAPIGroup(a);
    sorted := a[..];
    resp := GroupJSON(g);
  }

  /** `/apis/<group>` answers 404 exactly when no listed server has that group. */
  lemma ApiGroupNotFoundIff(servers: seq<APIServer>, groupName: string)
    ensures |Members(servers, groupName)| == 0 <==> (forall x :: x in servers ==> x.spec.group != groupName)
  {
    DistinctGroupsMembers(servers, groupName);
    if x :| x in servers && x.spec.group == groupName {
      var i :| 0 <= i < |servers| && servers[i] == x;
      assert FirstIndex(servers, groupName) <= i;
    }
  }

  /**
   * Two backends of group "g", "v2.g" at priority 10 and "v1.g" at
   * priority 1: whatever order they are listed in, the group's entry
   * prefers v1 and lists g/v1 before g/v2.
   */
  lemma TwoVersionsExample(t: seq<APIServer>)
    requires
      var a := APIServer(ObjectMeta("v2.g", "", map[]), APIServerSpec("", "", "g", "v2", false, [], 10), APIServerStatus);
      var b := APIServer(ObjectMeta("v1.g", "", map[]), APIServerSpec("", "", "g", "v1", false, [], 1), APIServerStatus);
      Sorted(t) && multiset(t) == multiset{a, b}
    ensures |t| > 0
    ensures DiscoveryGroup(t).preferredVersion == GroupVersionForDiscovery("g/v1", "v1")
    ensures DiscoveryGroup(t).versions == [GroupVersionForDiscovery("g/v1", "v1"), GroupVersionForDiscovery("g/v2", "v2")]
  {
    var a := APIServer(ObjectMeta("v2.g", "", map[]), APIServerSpec("", "", "g", "v2", false, [], 10), APIServerStatus);
    var b := APIServer(ObjectMeta("v1.g", "", map[]), APIServerSpec("", "", "g", "v1", false, [], 1), APIServerStatus);
    LessByPriority(b, a);
    assert Sorted([b, a]);
    assert multiset([b, a]) == multiset{a, b};
    assert DistinctNames([b, a]);
    SortedPermutationUnique([b, a], t);
    var vs := DiscoveryGroup(t).versions;
    assert |vs| == 2 && vs[0] == VersionOf(b) && vs[1] == VersionOf(a);
    assert ("g" + "/" + "v1") == "g/v1" && ("g" + "/" + "v2") == "g/v2";
  }
}
