/**
 * The content tree that the rollups of contentcuration/api.py walk, and the
 * reference definitions their results are proved against.
 *
 * A node is a topic (a folder with children) or a resource (a video, an
 * exercise, ...) that carries files. The rollups only descend through topics:
 * the children of a resource are never visited, with the one exception of
 * count_all_children, which descends through every node.
 */
module ContentTree {

  /** The kind_id of a topic; every other kind_id is a resource kind. */
  const TOPIC: string := "topic"

  /** A content node: its kind_id, its sort_order, its changed flag, the
      file_size of each of its files and its children. */
  datatype Node = Node(kindId: string, sortOrder: int, changed: bool, files: seq<nat>, children: seq<Node>)

  predicate IsTopic(n: Node) {
    n.kindId == TOPIC
  }

  /** The nodes the rollups visit, in pre-order: the node itself and, when it
      is a topic, what is reached in the same way from each of its children. */
  function Reached(n: Node): (r: seq<Node>)
    decreases n, |n.children| + 1
  {
    [n] + if IsTopic(n) then ReachedUpTo(n, |n.children|) else []
  }

  /** What is reached from the first i children of n. */
  function ReachedUpTo(n: Node, i: nat): (r: seq<Node>)
    requires i <= |n.children|
    decreases n, i
  {
    if i == 0 then [] else ReachedUpTo(n, i - 1) + Reached(n.children[i - 1])
  }

  /** Every proper descendant of n, whatever its kind. */
  function Descendants(n: Node): (r: seq<Node>)
    decreases n, |n.children| + 1
  {
    DescendantsUpTo(n, |n.children|)
  }

  /** The first i children of n, each followed by its own descendants. */
  function DescendantsUpTo(n: Node, i: nat): (r: seq<Node>)
    requires i <= |n.children|
    decreases n, i
  {
    if i == 0 then [] else DescendantsUpTo(n, i - 1) + [n.children[i - 1]] + Descendants(n.children[i - 1])
  }

  /** A well-formed content tree: only topics have children. */
  predicate OnlyTopicsHaveChildren(n: Node) {
    (!IsTopic(n) ==> n.children == []) &&
    forall i :: 0 <= i < |n.children| ==> OnlyTopicsHaveChildren(n.children[i])
  }

  function Sum(s: seq<nat>): (r: nat) {
    if s == [] then 0 else Sum(s[..|s| - 1]) + s[|s| - 1]
  }

  /** The sum of f over the nodes of s. */
  function SumOver(s: seq<Node>, f: Node -> nat): (r: nat) {
    if s == [] then 0 else SumOver(s[..|s| - 1], f) + f(s[|s| - 1])
  }

  /** A resource counts once; a topic counts nothing. */
  function ResourceWeight(m: Node): (r: nat) {
    if IsTopic(m) then 0 else 1
  }

  /** A resource weighs the sizes of its files; a topic's own files weigh nothing. */
  function SizeWeight(m: Node): (r: nat) {
    if IsTopic(m) then 0 else Sum(m.files)
  }

  /** Every node weighs its number of direct children. */
  function ChildWeight(m: Node): (r: nat) {
    |m.children|
  }

  /** The largest sort_order among the nodes of cs, and at least 1. */
  function MaxSortOrder(cs: seq<Node>): (r: int) {
    if cs == [] then 1
    else
      var m := MaxSortOrder(cs[..|cs| - 1]);
      if cs[|cs| - 1].sortOrder > m then cs[|cs| - 1].sortOrder else m
  }

  /** MaxSortOrder is at least 1, bounds every sort_order in cs, and is 1 or one of them. */
  lemma {:induction false} MaxSortOrderIsMaximum(cs: seq<Node>)
    ensures 1 <= MaxSortOrder(cs)
    ensures forall k :: 0 <= k < |cs| ==> cs[k].sortOrder <= MaxSortOrder(cs)
    ensures MaxSortOrder(cs) == 1 || exists k :: 0 <= k < |cs| && cs[k].sortOrder == MaxSortOrder(cs)
  {
    if cs != [] {
      var init := cs[..|cs| - 1];
      MaxSortOrderIsMaximum(init);
      assert forall k :: 0 <= k < |init| ==> init[k] == cs[k];
      if MaxSortOrder(cs) != 1 && MaxSortOrder(cs) != cs[|cs| - 1].sortOrder {
        var k :| 0 <= k < |init| && init[k].sortOrder == MaxSortOrder(init);
        assert cs[k].sortOrder == MaxSortOrder(cs);
      }
    }
  }

  predicate AnyChanged(s: seq<Node>) {
    exists j :: 0 <= j < |s| && s[j].changed
  }

  lemma {:induction false} SumOverAppend(a: seq<Node>, b: seq<Node>, f: Node -> nat)
    ensures SumOver(a + b, f) == SumOver(a, f) + SumOver(b, f)
    decreases |b|
  {
    if b == [] {
      assert a + b == a;
    } else {
      assert (a + b)[..|a + b| - 1] == a + b[..|b| - 1];
      SumOverAppend(a, b[..|b| - 1], f);
    }
  }

  lemma SumOverSingle(m: Node, f: Node -> nat)
    ensures SumOver([m], f) == f(m)
  {
  }

  lemma AnyChangedAppend(a: seq<Node>, b: seq<Node>)
    ensures AnyChanged(a + b) <==> AnyChanged(a) || AnyChanged(b)
  {
    if AnyChanged(a) {
      var j :| 0 <= j < |a| && a[j].changed;
      assert (a + b)[j] == a[j];
    }
    if AnyChanged(b) {
      var j :| 0 <= j < |b| && b[j].changed;
      assert (a + b)[|a| + j] == b[j];
    }
    if AnyChanged(a + b) {
      var j :| 0 <= j < |a + b| && (a + b)[j].changed;
      if j < |a| { assert a[j] == (a + b)[j]; } else { assert b[j - |a|] == (a + b)[j]; }
    }
  }

  /** Summing the direct child counts over the nodes the rollups visit gives
      the number of proper descendants, as long as only topics have children. */
  lemma {:induction false} ChildCountsGiveDescendants(n: Node)
    requires OnlyTopicsHaveChildren(n)
    ensures SumOver(Reached(n), ChildWeight) == |Descendants(n)|
    decreases n, |n.children| + 1
  {
    SumOverSingle(n, ChildWeight);
    if IsTopic(n) {
      SumOverAppend([n], ReachedUpTo(n, |n.children|), ChildWeight);
      ChildCountsGiveDescendantsUpTo(n, |n.children|);
    } else {
      assert Reached(n) == [n];
    }
  }

  lemma {:induction false} ChildCountsGiveDescendantsUpTo(n: Node, i: nat)
    requires i <= |n.children|
    requires forall k :: 0 <= k < |n.children| ==> OnlyTopicsHaveChildren(n.children[k])
    ensures SumOver(ReachedUpTo(n, i), ChildWeight) + i == |DescendantsUpTo(n, i)|
    decreases n, i
  {
    if i > 0 {
      ChildCountsGiveDescendantsUpTo(n, i - 1);
      ChildCountsGiveDescendants(n.children[i - 1]);
      SumOverAppend(ReachedUpTo(n, i - 1), Reached(n.children[i - 1]), ChildWeight);
    }
  }
}
