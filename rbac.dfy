/**
 * The bootstrap RBAC objects served at `/bootstrap/rbac`
 * (`bootstraproutes/rbac.go`): an editor and a reader cluster role over
 * the aggregator's `apiservers` resource, and a binding of the auth
 * delegator role to the aggregator's own user, named within the
 * aggregator's group.
 *
 * The RBAC rule and binding builders are not part of this model: a rule
 * is the verbs, groups and resources it is built from, and a binding built
 * for a role is named after that role and refers to it.
 */
module BootstrapRoutes {
  import Apifederation

  /** The prefix binding names get, `apifederationGroup`. */
  const ApifederationGroup := Apifederation.GroupName

  const ReadWrite: seq<string> := ["get", "list", "watch", "create", "update", "patch", "delete", "deletecollection"]
  const Read: seq<string> := ["get", "list", "watch"]

  datatype PolicyRule = PolicyRule(verbs: seq<string>, apiGroups: seq<string>, resources: seq<string>)

  datatype ClusterRole = ClusterRole(name: string, rules: seq<PolicyRule>)

  datatype Subject = User(name: string)

  datatype ClusterRoleBinding = ClusterRoleBinding(name: string, roleRef: string, subjects: seq<Subject>)

  /** An element of the served `api.List`. */
  datatype Item = RoleItem(role: ClusterRole) | BindingItem(binding: ClusterRoleBinding)

  /** The `RoleBindings` route: the user the delegator role is bound to. */
  datatype RoleBindings = RoleBindings(authUser: string)

  /** Every verb the reader may use, the editor may use too. */
  lemma ReadWithinReadWrite()
    ensures forall v :: v in Read ==> v in ReadWrite
    ensures ReadWrite[..|Read|] == Read
  {
  }

  /** A rule over the aggregator's `apiservers` resource only. */
  function APIServersRule(verbs: seq<string>): PolicyRule
  {
    PolicyRule(verbs, [ApifederationGroup], ["apiservers"])
  }

  /** `clusterRoles`: the editor role (all verbs) and the reader role (read verbs). */
  function ClusterRoles(): (roles: seq<ClusterRole>)
    ensures |roles| == 2
    ensures roles[0].name == ApifederationGroup + ":editor" && roles[1].name == ApifederationGroup + ":reader"
    ensures forall r :: r in roles ==>
              (|r.rules| == 1 && r.rules[0].apiGroups == [ApifederationGroup] && r.rules[0].resources == ["apiservers"])
    ensures roles[0].rules[0].verbs == ReadWrite && roles[1].rules[0].verbs == Read
  {
    [ ClusterRole(ApifederationGroup + ":editor", [APIServersRule(ReadWrite)]),
      ClusterRole(ApifederationGroup + ":reader", [APIServersRule(Read)]) ]
  }

  /** `clusterRoleBindings`: one binding of "system:auth-delegator" to the auth user. */
  function ClusterRoleBindings(rb: RoleBindings): (bindings: seq<ClusterRoleBinding>)
    ensures |bindings| == 1
    ensures bindings[0].roleRef == "system:auth-delegator" && bindings[0].subjects == [User(rb.authUser)]
  {
    [ClusterRoleBinding("system:auth-delegator", "system:auth-delegator", [User(rb.authUser)])]
  }

  /** The name a binding gets in the served list. */
  function QualifiedName(name: string): string
  {
    ApifederationGroup + ":" + name
  }

  /**
   * `rbacResources`: each binding, renamed into the aggregator's group, in
   * order, then each role, in order.
   */
  method RbacResources(rb: RoleBindings) returns (items: seq<Item>)
    ensures |items| == |ClusterRoleBindings(rb)| + |ClusterRoles()|
    ensures forall i :: 0 <= i < |ClusterRoleBindings(rb)| ==>
              var b := ClusterRoleBindings(rb)[i];
              items[i] == BindingItem(b.(name := QualifiedName(b.name)))
    ensures items[|ClusterRoleBindings(rb)|..] == seq(|ClusterRoles()|, i requires 0 <= i < |ClusterRoles()| => RoleItem(ClusterRoles()[i]))
  {
    items := [];
    var rolebindings := ClusterRoleBindings(rb);
    for i := 0 to |rolebindings|
      invariant |rolebindings| == |ClusterRoleBindings(rb)| && |items| == i
      invariant forall j :: 0 <= j < |rolebindings| ==>
                  rolebindings[j] == (var b := ClusterRoleBindings(rb)[j]; if j < i then b.(name := QualifiedName(b.name)) else b)
      invariant forall j :: 0 <= j < i ==> items[j] == BindingItem(rolebindings[j])
    {
      rolebindings := rolebindings[i := rolebindings[i].(name := QualifiedName(rolebindings[i].name))];
      items := items + [BindingItem(rolebindings[i])];
    }
    var roles := ClusterRoles();
    ghost var n := |items|;
    for i := 0 to |roles|
      invariant |items| == n + i
      invariant forall j :: 0 <= j < n ==> items[j] == BindingItem(rolebindings[j])
      invariant forall j :: 0 <= j < i ==> items[n + j] == RoleItem(roles[j])
    {
      items := items + [RoleItem(roles[i])];
    }
  }

  /**
   * The served list is exactly the delegator binding, renamed into the
   * aggregator's group, then the editor and reader roles.
   */
  lemma RbacResourcesContents(rb: RoleBindings, items: seq<Item>)
    requires |items| == |ClusterRoleBindings(rb)| + |ClusterRoles()|
    requires forall i :: 0 <= i < |ClusterRoleBindings(rb)| ==>
               var b := ClusterRoleBindings(rb)[i];
               items[i] == BindingItem(b.(name := QualifiedName(b.name)))
    requires items[|ClusterRoleBindings(rb)|..] == seq(|ClusterRoles()|, i requires 0 <= i < |ClusterRoles()| => RoleItem(ClusterRoles()[i]))
    ensures items == [
      BindingItem(ClusterRoleBinding("apifederation.openshift.io:system:auth-delegator", "system:auth-delegator", [User(rb.authUser)])),
      RoleItem(ClusterRole("apifederation.openshift.io:editor", [PolicyRule(ReadWrite, ["apifederation.openshift.io"], ["apiservers"])])),
      RoleItem(ClusterRole("apifederation.openshift.io:reader", [PolicyRule(Read, ["apifederation.openshift.io"], ["apiservers"])]))]
  {
    assert QualifiedName("system:auth-delegator") == "apifederation.openshift.io:system:auth-delegator";
    assert ApifederationGroup + ":editor" == "apifederation.openshift.io:editor";
    assert ApifederationGroup + ":reader" == "apifederation.openshift.io:reader";
    assert items[1] == items[1..][0];
    assert items[2] == items[1..][1];
  }
}
