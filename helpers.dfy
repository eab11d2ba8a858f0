/**
 * `ByPriority` and `SortByGroup` of package `apifederation`: the order in
 * which backends are advertised (lower priority first, ties broken by name)
 * and the split of a backend list into per-group lists.
 *
 * Go's `sort.Sort(ByPriority(servers))` sorts the caller's slice in place,
 * because the conversion shares the backing array; the model therefore sorts
 * an `array` in place. `sort.Sort` is not stable, so the sort is specified as
 * producing a sorted permutation; `SortedPermutationUnique` shows that with
 * distinct names there is only one.
 */
module ApifederationHelpers {
  import opened Apifederation
  import opened GoStrings

  // ---------------------------------------------------------------------
  // ByPriority: Len, Less, Swap
  // ---------------------------------------------------------------------

  /** `ByPriority.Less`: by priority, then by name with `strings.Compare`. */
  predicate Less(a: APIServer, b: APIServer)
  {
    if a.spec.priority == b.spec.priority then Compare(a.Name(), b.Name()) < 0
    else a.spec.priority < b.spec.priority
  }

  /** A sequence in `ByPriority` order: no element is Less than one before it. */
  predicate Sorted(s: seq<APIServer>)
  {
    forall i, j :: 0 <= i < j < |s| ==> !Less(s[j], s[i])
  }

  /** A strictly lower priority comes first whatever the names. */
  lemma LessByPriority(a: APIServer, b: APIServer)
    requires a.spec.priority < b.spec.priority
    ensures Less(a, b) && !Less(b, a)
  {
  }

  /** With equal priorities, Less is ascending `strings.Compare` of the names. */
  lemma LessOnEqualPriority(a: APIServer, b: APIServer)
    requires a.spec.priority == b.spec.priority
    ensures Less(a, b) <==> Compare(a.Name(), b.Name()) == -1
  {
  }

  /** Less is irreflexive. */
  lemma LessIrreflexive(a: APIServer)
    ensures !Less(a, a)
  {
    CompareZeroIffEqual(a.Name(), a.Name());
  }

  /** For distinct names exactly one of Less(a, b) and Less(b, a) holds. */
  lemma LessTotalOnDistinctNames(a: APIServer, b: APIServer)
    requires a.Name() != b.Name()
    ensures Less(a, b) != Less(b, a)
  {
    CompareZeroIffEqual(a.Name(), b.Name());
    CompareAntisymmetric(a.Name(), b.Name());
  }

  /** Less is asymmetric. */
  lemma LessAsymmetric(a: APIServer, b: APIServer)
    ensures Less(a, b) ==> !Less(b, a)
  {
    CompareAntisymmetric(a.Name(), b.Name());
  }

  /** Less is transitive. */
  lemma LessTransitive(a: APIServer, b: APIServer, c: APIServer)
    requires Less(a, b) && Less(b, c)
    ensures Less(a, c)
  {
    if a.spec.priority == b.spec.priority == c.spec.priority {
      CompareTransitive(a.Name(), b.Name(), c.Name());
    }
  }

  /** "Not after" is transitive: Less is a strict weak order. */
  lemma NotLessTransitive(a: APIServer, b: APIServer, c: APIServer)
    requires !Less(b, a) && !Less(c, b)
    ensures !Less(c, a)
  {
    if a.spec.priority == b.spec.priority == c.spec.priority {
      CompareAntisymmetric(c.Name(), b.Name());
      CompareAntisymmetric(b.Name(), a.Name());
      CompareAntisymmetric(a.Name(), c.Name());
      CompareZeroIffEqual(c.Name(), b.Name());
      CompareZeroIffEqual(b.Name(), a.Name());
      if Compare(c.Name(), b.Name()) != 0 && Compare(b.Name(), a.Name()) != 0 {
        CompareTransitive(a.Name(), b.Name(), c.Name());
      }
    }
  }

  /** `ByPriority.Swap`: exchanges two entries of the shared backing array. */
  method Swap(a: array<APIServer>, i: int, j: int)
    requires 0 <= i < a.Length && 0 <= j < a.Length
    modifies a
    ensures a[..] == old(a[..])[i := old(a[j])][j := old(a[i])]
    ensures multiset(a[..]) == old(multiset(a[..]))
  {
    a[i], a[j] := a[j], a[i];
  }

  /** The index of a Less-minimal entry among a[from..]. */
  method MinIndex(a: array<APIServer>, from: nat) returns (m: nat)
    requires from < a.Length
    ensures from <= m < a.Length
    ensures forall k :: from <= k < a.Length ==> !Less(a[k], a[m])
  {
    m := from;
    LessIrreflexive(a[from]);
    var k := from + 1;
    while k < a.Length
      invariant from <= m < k <= a.Length
      invariant forall l :: from <= l < k ==> !Less(a[l], a[m])
    {
      if Less(a[k], a[m]) {
        forall l | from <= l < k
          ensures !Less(a[l], a[k])
        {
          if Less(a[l], a[k]) { LessTransitive(a[l], a[k], a[m]); }
        }
        LessIrreflexive(a[k]);
        m := k;
      }
      k := k + 1;
    }
  }

  /** The first i entries of s are in order. */
  ghost predicate SortedPrefix(s: seq<APIServer>, i: nat)
  {
    forall k, l :: 0 <= k < l < i && l < |s| ==> !Less(s[l], s[k])
  }

  /** Nothing from position i on goes before an entry of the first i. */
  ghost predicate Partitioned(s: seq<APIServer>, i: nat)
  {
    forall k, l :: 0 <= k < i <= l < |s| ==> !Less(s[l], s[k])
  }

  /** One selection step: moving a minimal entry of s[i..] to position i extends the sorted prefix. */
  lemma SelectStep(s: seq<APIServer>, i: nat, m: nat)
    requires i <= m < |s|
    requires SortedPrefix(s, i) && Partitioned(s, i)
    requires forall k :: i <= k < |s| ==> !Less(s[k], s[m])
    ensures SortedPrefix(s[i := s[m]][m := s[i]], i + 1)
    ensures Partitioned(s[i := s[m]][m := s[i]], i + 1)
  {
    var t := s[i := s[m]][m := s[i]];
    forall k, l | 0 <= k < l < i + 1 && l < |t|
      ensures !Less(t[l], t[k])
    {
      if l == i {
        assert t[l] == s[m] && t[k] == s[k];
      } else {
        assert t[l] == s[l] && t[k] == s[k];
      }
    }
    forall k, l | 0 <= k < i + 1 <= l < |t|
      ensures !Less(t[l], t[k])
    {
      var l' := if l == m then i else l;
      assert t[l] == s[l'] && i <= l';
      if k == i {
        assert t[k] == s[m];
      } else {
        assert t[k] == s[k];
      }
    }
  }

  /** `sort.Sort(ByPriority(a))`: sorts the caller's array in place. */
  method SortByPriority(a: array<APIServer>)
    modifies a
    ensures Sorted(a[..])
    ensures multiset(a[..]) == old(multiset(a[..]))
  {
    var i := 0;
    while i < a.Length
      invariant 0 <= i <= a.Length
      invariant SortedPrefix(a[..], i) && Partitioned(a[..], i)
      invariant multiset(a[..]) == old(multiset(a[..]))
    {
      var m := MinIndex(a, i);
      ghost var before := a[..];
      Swap(a, i, m);
      SelectStep(before, i, m);
      i := i + 1;
    }
    assert SortedPrefix(a[..], a.Length);
  }

  // ---------------------------------------------------------------------
  // Uniqueness of the sorted order for distinct names
  // ---------------------------------------------------------------------

  /** No two entries share a name (object names are unique in the registry). */
  predicate DistinctNames(s: seq<APIServer>)
  {
    forall i, j :: 0 <= i < j < |s| ==> s[i].Name() != s[j].Name()
  }

  lemma DistinctNamesTail(s: seq<APIServer>)
    requires |s| > 0 && DistinctNames(s)
    ensures DistinctNames(s[1..])
  {
    forall i, j | 0 <= i < j < |s[1..]|
      ensures s[1..][i].Name() != s[1..][j].Name()
    {
      assert s[1..][i] == s[i + 1] && s[1..][j] == s[j + 1];
    }
  }

  lemma SortedTail(s: seq<APIServer>)
    requires |s| > 0 && Sorted(s)
    ensures Sorted(s[1..])
  {
    forall i, j | 0 <= i < j < |s[1..]|
      ensures !Less(s[1..][j], s[1..][i])
    {
      assert s[1..][i] == s[i + 1] && s[1..][j] == s[j + 1];
    }
  }

  /**
   * With distinct names the sorted order is fully determined: two sorted
   * permutations of the same servers are equal.
   */
  lemma {:induction false} SortedPermutationUnique(s: seq<APIServer>, t: seq<APIServer>)
    requires Sorted(s) && Sorted(t)
    requires multiset(s) == multiset(t)
    requires DistinctNames(s)
    ensures s == t
    decreases |s|
  {
    assert |s| == |multiset(s)| == |multiset(t)| == |t|;
    if |s| > 0 {
      if s[0] != t[0] {
        assert t[0] in multiset(s);
        var k :| 0 <= k < |s| && s[k] == t[0];
        assert s[0] in multiset(t);
        var l :| 0 <= l < |t| && t[l] == s[0];
        assert k != 0 && l != 0;
        assert !Less(s[k], s[0]) && !Less(t[l], t[0]);
        LessTotalOnDistinctNames(s[0], s[k]);
        assert false;
      }
      assert s == [s[0]] + s[1..] && t == [t[0]] + t[1..];
      assert multiset(s) == multiset{s[0]} + multiset(s[1..]);
      assert multiset(t) == multiset{t[0]} + multiset(t[1..]);
      assert multiset(s[1..]) == multiset(s) - multiset{s[0]};
      assert multiset(t[1..]) == multiset(t) - multiset{t[0]};
      SortedTail(s);
      SortedTail(t);
      DistinctNamesTail(s);
      SortedPermutationUnique(s[1..], t[1..]);
    }
  }
}

/**
 * `SortByGroup`: sorts the caller's slice by priority, then walks it and
 * appends each server to the first inner list whose first member has the
 * same group, or starts a new inner list.
 *
 * The walk is specified by `GroupAll`, a left fold with the same step
 * (`AddToGroups`); `GroupAllCharacterized` then relates it to an independent
 * description: one inner list per distinct group, in order of first
 * appearance (`DistinctGroups`), holding exactly that group's servers in
 * input order (`Members`).
 */
module Grouping {
  import opened Apifederation
  import opened ApifederationHelpers

  /** Every inner list has a first member (the source reads `ret[j][0]`). */
  predicate AllNonEmpty(ret: seq<seq<APIServer>>)
  {
    forall j :: 0 <= j < |ret| ==> |ret[j]| > 0
  }

  /** The index of the first inner list whose first member has `group`, or -1. */
  function FindGroup(ret: seq<seq<APIServer>>, group: string): (j: int)
    requires AllNonEmpty(ret)
    ensures -1 <= j < |ret|
    ensures j >= 0 ==> ret[j][0].spec.group == group
    ensures forall k :: 0 <= k < |ret| && (j < 0 || k < j) ==> ret[k][0].spec.group != group
  {
    if |ret| == 0 then -1
    else if ret[0][0].spec.group == group then 0
    else
      var j := FindGroup(ret[1..], group);
      if j < 0 then -1 else j + 1
  }

  /** One step of the walk: append x to its group's list, or open a new list. */
  function AddToGroups(ret: seq<seq<APIServer>>, x: APIServer): (r: seq<seq<APIServer>>)
    requires AllNonEmpty(ret)
    ensures AllNonEmpty(r)
  {
    var j := FindGroup(ret, x.spec.group);
    if j >= 0 then ret[j := ret[j] + [x]] else ret + [[x]]
  }

  /** The lists the walk builds from s. */
  function GroupAll(s: seq<APIServer>): (r: seq<seq<APIServer>>)
    ensures AllNonEmpty(r)
  {
    if |s| == 0 then [] else AddToGroups(GroupAll(s[..|s| - 1]), s[|s| - 1])
  }

  /** The servers of s with group g, in the order of s. */
  function Members(s: seq<APIServer>, g: string): (r: seq<APIServer>)
    ensures forall x :: x in r ==> x in s && x.spec.group == g
  {
    if |s| == 0 then []
    else Members(s[..|s| - 1], g) + (if s[|s| - 1].spec.group == g then [s[|s| - 1]] else [])
  }

  /** The groups of s without repetition, in order of first appearance. */
  function DistinctGroups(s: seq<APIServer>): (r: seq<string>)
    ensures forall j, k :: 0 <= j < k < |r| ==> r[j] != r[k]
  {
    if |s| == 0 then []
    else
      var d := DistinctGroups(s[..|s| - 1]);
      if s[|s| - 1].spec.group in d then d else d + [s[|s| - 1].spec.group]
  }

  /** The position of the first server of s with group g, or |s| if none. */
  function FirstIndex(s: seq<APIServer>, g: string): (i: nat)
    ensures i <= |s|
    ensures i < |s| ==> s[i].spec.group == g
    ensures forall k :: 0 <= k < i ==> s[k].spec.group != g
  {
    if |s| == 0 then 0
    else
      var f := FirstIndex(s[..|s| - 1], g);
      if f < |s| - 1 then f
      else if s[|s| - 1].spec.group == g then |s| - 1
      else |s|
  }

  /** A group is listed exactly when some server has it, and then it has members. */
  lemma {:induction false} DistinctGroupsMembers(s: seq<APIServer>, g: string)
    ensures g in DistinctGroups(s) <==> FirstIndex(s, g) < |s|
    ensures g in DistinctGroups(s) <==> |Members(s, g)| > 0
  {
    if |s| > 0 {
      DistinctGroupsMembers(s[..|s| - 1], g);
    }
  }

  /**
   * The walk yields one list per distinct group, in order of first
   * appearance, holding exactly that group's servers in input order.
   */
  lemma {:induction false} GroupAllCharacterized(s: seq<APIServer>)
    ensures |GroupAll(s)| == |DistinctGroups(s)|
    ensures forall j :: 0 <= j < |GroupAll(s)| ==>
              GroupAll(s)[j] == Members(s, DistinctGroups(s)[j])
  {
    if |s| > 0 {
      var p, x := s[..|s| - 1], s[|s| - 1];
      GroupAllCharacterized(p);
      var R: seq<seq<APIServer>>, D: seq<string> := GroupAll(p), DistinctGroups(p);
      HeadsAreGroups(p);
      MembersStep(s);
      var j := FindGroup(R, x.spec.group);
      if j < 0 {
        DistinctGroupsMembers(p, x.spec.group);
        assert x.spec.group !in D;
        assert GroupAll(s) == R + [[x]];
        assert DistinctGroups(s) == D + [x.spec.group];
      } else {
        assert D[j] == x.spec.group;
        assert GroupAll(s) == R[j := R[j] + [x]];
        assert DistinctGroups(s) == D;
        forall k | 0 <= k < |R| && k != j
          ensures D[k] != x.spec.group
        {
        }
      }
    }
  }

  /** Under the characterization, the first member of list j has group j. */
  lemma HeadsAreGroups(s: seq<APIServer>)
    requires |GroupAll(s)| == |DistinctGroups(s)|
    requires forall j :: 0 <= j < |GroupAll(s)| ==> GroupAll(s)[j] == Members(s, DistinctGroups(s)[j])
    ensures forall j :: 0 <= j < |GroupAll(s)| ==> GroupAll(s)[j][0].spec.group == DistinctGroups(s)[j]
  {
    forall j | 0 <= j < |GroupAll(s)|
      ensures GroupAll(s)[j][0].spec.group == DistinctGroups(s)[j]
    {
      assert GroupAll(s)[j][0] in Members(s, DistinctGroups(s)[j]);
    }
  }

  /** Adding the last server extends only its own group's members. */
  lemma MembersStep(s: seq<APIServer>)
    requires |s| > 0
    ensures forall g ::
              Members(s, g) == Members(s[..|s| - 1], g) + (if s[|s| - 1].spec.group == g then [s[|s| - 1]] else [])
  {
  }

  /** Flattening of the inner lists. */
  function Concat(r: seq<seq<APIServer>>): (c: seq<APIServer>)
    ensures forall j, x :: 0 <= j < |r| && x in r[j] ==> x in c
  {
    if |r| == 0 then [] else r[0] + Concat(r[1..])
  }

  lemma {:induction false} ConcatAppendToOne(r: seq<seq<APIServer>>, j: nat, x: APIServer)
    requires j < |r|
    ensures multiset(Concat(r[j := r[j] + [x]])) == multiset(Concat(r)) + multiset{x}
  {
    if j > 0 {
      ConcatAppendToOne(r[1..], j - 1, x);
      assert r[j := r[j] + [x]][1..] == r[1..][j - 1 := r[1..][j - 1] + [x]];
    }
  }

  lemma {:induction false} ConcatAppendList(r: seq<seq<APIServer>>, y: seq<APIServer>)
    ensures Concat(r + [y]) == Concat(r) + y
  {
    if |r| > 0 {
      assert (r + [y])[1..] == r[1..] + [y];
      ConcatAppendList(r[1..], y);
    }
  }

  /** The walk loses and duplicates nothing: the inner lists partition s. */
  lemma {:induction false} GroupAllPartition(s: seq<APIServer>)
    ensures multiset(Concat(GroupAll(s))) == multiset(s)
    ensures |Concat(GroupAll(s))| == |s|
  {
    if |s| > 0 {
      var p, x := s[..|s| - 1], s[|s| - 1];
      GroupAllPartition(p);
      var R := GroupAll(p);
      var j := FindGroup(R, x.spec.group);
      if j >= 0 {
        ConcatAppendToOne(R, j, x);
      } else {
        ConcatAppendList(R, [x]);
      }
      assert s == p + [x];
      assert |multiset(Concat(GroupAll(s)))| == |Concat(GroupAll(s))|;
    }
  }

  /** Members keeps the relative order of s, so a sorted s gives sorted members. */
  lemma {:induction false} MembersSorted(s: seq<APIServer>, g: string)
    requires Sorted(s)
    ensures Sorted(Members(s, g))
  {
    if |s| > 0 {
      var p, x := s[..|s| - 1], s[|s| - 1];
      assert Sorted(p);
      MembersSorted(p, g);
      var m := Members(p, g);
      forall y | y in m ensures !Less(x, y) {
        var i :| 0 <= i < |p| && p[i] == y;
        assert s[i] == y;
      }
    }
  }

  /** Groups come in the order of their first server in s. */
  lemma {:induction false} DistinctGroupsInFirstOrder(s: seq<APIServer>)
    ensures forall j, k :: 0 <= j < k < |DistinctGroups(s)| ==>
              FirstIndex(s, DistinctGroups(s)[j]) < FirstIndex(s, DistinctGroups(s)[k])
    ensures forall j :: 0 <= j < |DistinctGroups(s)| ==> FirstIndex(s, DistinctGroups(s)[j]) < |s|
  {
    if |s| > 0 {
      var p, x := s[..|s| - 1], s[|s| - 1];
      DistinctGroupsInFirstOrder(p);
      var D := DistinctGroups(p);
      assert forall j :: 0 <= j < |D| ==> FirstIndex(s, D[j]) == FirstIndex(p, D[j]);
      if x.spec.group !in D {
        DistinctGroupsMembers(p, x.spec.group);
        assert FirstIndex(s, x.spec.group) == |p|;
      }
    }
  }

  /**
   * What `SortByGroup` promises about the lists it returns for a sorted s:
   * they partition s, each is non-empty, sorted and of one group, no two
   * share a group, and they come in the order of their groups' first server.
   */
  lemma SortByGroupShape(s: seq<APIServer>)
    requires Sorted(s)
    ensures var r := GroupAll(s);
      && multiset(Concat(r)) == multiset(s)
      && (forall j :: 0 <= j < |r| ==> |r[j]| > 0 && Sorted(r[j]))
      && (forall j, y :: 0 <= j < |r| && y in r[j] ==> y.spec.group == r[j][0].spec.group)
      && (forall j, k :: 0 <= j < k < |r| ==> r[j][0].spec.group != r[k][0].spec.group)
      && (forall j, k :: 0 <= j < k < |r| ==>
            FirstIndex(s, r[j][0].spec.group) < FirstIndex(s, r[k][0].spec.group))
  {
    var r: seq<seq<APIServer>>, D: seq<string> := GroupAll(s), DistinctGroups(s);
    GroupAllPartition(s);
    GroupAllCharacterized(s);
    DistinctGroupsInFirstOrder(s);
    forall j | 0 <= j < |r| ensures r[j][0].spec.group == D[j] && Sorted(r[j]) {
      assert r[j][0] in Members(s, D[j]);
      MembersSorted(s, D[j]);
    }
  }

  /**
   * `SortByGroup(servers)`: sorts the caller's array in place, then builds
   * the per-group lists with the nested search loop of the source.
   */
  method SortByGroup(servers: array<APIServer>) returns (ret: seq<seq<APIServer>>)
    modifies servers
    ensures Sorted(servers[..])
    ensures multiset(servers[..]) == old(multiset(servers[..]))
    ensures ret == GroupAll(servers[..])
  {
    SortByPriority(servers);
    ret := [];
    var i := 0;
    while i < servers.Length
      invariant 0 <= i <= servers.Length
      invariant ret == GroupAll(servers[..i])
    {
      var curr := servers[i];
      var existingIndex := -1;
      var j := 0;
      while j < |ret|
        invariant 0 <= j <= |ret|
        invariant existingIndex == -1
        invariant forall k :: 0 <= k < j ==> ret[k][0].spec.group != curr.spec.group
      {
        if ret[j][0].spec.group == curr.spec.group {
          existingIndex := j;
          break;
        }
        j := j + 1;
      }
      assert existingIndex == FindGroup(ret, curr.spec.group);
      if existingIndex >= 0 {
        ret := ret[existingIndex := ret[existingIndex] + [curr]];
      } else {
        ret := ret + [[curr]];
      }
      assert servers[..i + 1][..i] == servers[..i];
      i := i + 1;
    }
    assert servers[..i] == servers[..];
  }
}
