/** The list of nodes to delete in the spec, and what completing the drain of a node does to it. */
module NodesToDelete {
  import opened Model

  /** The index of the first entry for node n, or the length of the list. */
  function FirstIndex(list: seq<NodeToDelete>, n: Name): (i: nat)
    ensures i <= |list|
    ensures i < |list| ==> list[i].name == n
    ensures forall k :: 0 <= k < i ==> list[k].name != n
  {
    if list == [] then 0 else if list[0].name == n then 0 else 1 + FirstIndex(list[1..], n)
  }

  /** Entry i is overwritten by the last one and the list shortened by one. */
  function RemoveNode<T>(list: seq<T>, i: nat): (rest: seq<T>)
    requires i < |list|
    ensures |rest| == |list| - 1
    ensures multiset(rest) == multiset(list) - multiset{list[i]}
  {
    var last := list[|list| - 1];
    assert list == list[..|list| - 1] + [last];
    assert i < |list| - 1 ==> list[i := last][..|list| - 1] == list[..|list| - 1][i := last];
    assert i == |list| - 1 ==> list[i := last] == list;
    list[i := last][..|list| - 1]
  }

  lemma RemovedAt<T>(list: seq<T>, i: nat, k: nat)
    requires i < |list| && k < |list| - 1
    ensures RemoveNode(list, i)[k] == if k == i then list[|list| - 1] else list[k]
  {
  }

  /** The list after the drain of node n was completed. */
  function Without(list: seq<NodeToDelete>, n: Name): seq<NodeToDelete> {
    var i := FirstIndex(list, n);
    if i < |list| then RemoveNode(list, i) else list
  }

  /** The list after the drains of the given nodes were completed, one after the other. */
  function WithoutAll(list: seq<NodeToDelete>, names: seq<Name>): seq<NodeToDelete> {
    if names == [] then list else Without(WithoutAll(list, names[..|names| - 1]), names[|names| - 1])
  }

  lemma WithoutOneMore(list: seq<NodeToDelete>, names: seq<Name>, n: Name)
    ensures WithoutAll(list, names + [n]) == Without(WithoutAll(list, names), n)
  {
    assert (names + [n])[..|names + [n]| - 1] == names;
  }

  function NamesOf(list: seq<NodeToDelete>): (names: seq<Name>)
    ensures |names| == |list| && forall i :: 0 <= i < |list| ==> names[i] == list[i].name
  {
    seq(|list|, i requires 0 <= i < |list| => list[i].name)
  }

  /** One completed drain takes one occurrence of the node's name off the list, if it has any, and touches no
      entry of another node. */
  lemma OneEntryGone(list: seq<NodeToDelete>, n: Name)
    ensures multiset(NamesOf(Without(list, n))) == multiset(NamesOf(list)) - multiset{n}
    ensures multiset(Without(list, n)) <= multiset(list)
    ensures forall e: NodeToDelete :: e.name != n ==> multiset(Without(list, n))[e] == multiset(list)[e]
  {
    NamesWithout(list, n);
    var i := FirstIndex(list, n);
    if i < |list| { assert NamesOf(list)[i] == n; } else { assert n !in NamesOf(list); }
  }

  lemma NamesWithout(list: seq<NodeToDelete>, n: Name)
    ensures var i := FirstIndex(list, n);
      NamesOf(Without(list, n)) == if i < |list| then RemoveNode(NamesOf(list), i) else NamesOf(list)
  {
    var i := FirstIndex(list, n);
    if i < |list| {
      var rest, names := RemoveNode(list, i), NamesOf(list);
      forall k | 0 <= k < |rest| ensures rest[k].name == RemoveNode(names, i)[k] {
        RemovedAt(list, i, k);
        RemovedAt(names, i, k);
      }
      assert NamesOf(rest) == RemoveNode(names, i);
    }
  }

  /** CONSERVATION.  Whatever nodes a run completes and however the list is shuffled on the way: of the names,
      exactly one occurrence per completed node is gone; every entry that is left was on the list; and the
      entries of nodes that were not completed are all still there. */
  lemma {:induction false} OnlyCompletedEntriesGone(list: seq<NodeToDelete>, names: seq<Name>)
    ensures multiset(NamesOf(WithoutAll(list, names))) == multiset(NamesOf(list)) - multiset(names)
    ensures multiset(WithoutAll(list, names)) <= multiset(list)
    ensures forall e: NodeToDelete :: e.name !in names ==> multiset(WithoutAll(list, names))[e] == multiset(list)[e]
  {
    if names != [] {
      var front, n := names[..|names| - 1], names[|names| - 1];
      assert names == front + [n];
      OnlyCompletedEntriesGone(list, front);
      OneEntryGone(WithoutAll(list, front), n);
    }
  }

  /** For a list that names each node once, the result is as a multiset the list without the completed nodes. */
  lemma {:induction false} DistinctListLosesExactly(list: seq<NodeToDelete>, names: seq<Name>, e: NodeToDelete)
    requires forall i, j :: 0 <= i < j < |list| ==> list[i].name != list[j].name
    ensures e in WithoutAll(list, names) <==> e in list && e.name !in names
  {
    OnlyCompletedEntriesGone(list, names);
    var rest := WithoutAll(list, names);
    assert e in rest ==> e in multiset(list);
    if e in list {
      var i :| 0 <= i < |list| && list[i] == e;
      NamedOnce(NamesOf(list), i);
      NameListed(rest, e);
    }
  }

  lemma NameListed(list: seq<NodeToDelete>, e: NodeToDelete)
    ensures e in list ==> e.name in multiset(NamesOf(list))
  {
    if e in list {
      var k :| 0 <= k < |list| && list[k] == e;
      assert NamesOf(list)[k] == e.name;
    }
  }

  lemma NamedOnce(names: seq<Name>, i: nat)
    requires i < |names| && forall j, k :: 0 <= j < k < |names| ==> names[j] != names[k]
    ensures multiset(names)[names[i]] == 1
  {
    assert names == names[..i] + [names[i]] + names[i + 1..];
  }

  /** The last entry of the list overtakes the first one of node b when a drain of node a is completed: it is another
      entry of b, and the swap moves it to a place in front. */
  predicate Overtakes(list: seq<NodeToDelete>, a: Name, b: Name) {
    && FirstIndex(list, a) < FirstIndex(list, b) < |list|
    && list[|list| - 1].name == b && list[|list| - 1] != list[FirstIndex(list, b)]
  }

  /** Which entry of a node is the first depends on the completions of other nodes, and exactly so: node b stays on the
      list, and its first entry changes if and only if the last one overtakes it. */
  lemma FirstEntryChangesExactlyWhen(list: seq<NodeToDelete>, a: Name, b: Name)
    requires a != b && FirstIndex(list, b) < |list|
    ensures var rest := Without(list, a);
      && FirstIndex(rest, b) < |rest|
      && (rest[FirstIndex(rest, b)] != list[FirstIndex(list, b)] <==> Overtakes(list, a, b))
  {
    var i, j, last := FirstIndex(list, a), FirstIndex(list, b), list[|list| - 1];
    if i < |list| {
      var rest := Without(list, a);
      forall k | 0 <= k < |rest| ensures rest[k] == if k == i then last else list[k] { RemovedAt(list, i, k); }
      var first := if i < j && last.name == b then i else j;
      assert rest[first].name == b;
      assert FirstIndex(rest, b) == first;
    }
  }

  /** A list and a completion with such a change. */
  lemma CompletionsCanReorderEntries()
    ensures exists list, a, b :: a != b && Overtakes(list, a, b)
  {
    var list := [NodeToDelete("a", false), NodeToDelete("b", true), NodeToDelete("b", false)];
    assert list[1..][0].name == "b";
    assert "a" != "b" && Overtakes(list, "a", "b");
  }
}
