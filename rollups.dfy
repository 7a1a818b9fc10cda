/**
 * The recursive rollups of contentcuration/api.py: count_files,
 * count_all_children, get_total_size and calculate_node_metadata. Each one
 * walks the children with an accumulating loop and calls itself on every
 * child; each is proved against the reference definitions of ContentTree.
 */
module Rollups {
  import opened ContentTree

  /** The dictionary calculate_node_metadata returns. */
  datatype Metadata = Metadata(
    totalCount: nat,
    resourceCount: nat,
    maxSortOrder: int,
    resourceSize: nat,
    hasChangedDescendant: bool)

  /** count_files: the number of resources reached through topics. */
  method CountFiles(node: Node) returns (count: nat)
    ensures count == SumOver(Reached(node), ResourceWeight)
    ensures !IsTopic(node) ==> count == 1
    ensures IsTopic(node) && node.children == [] ==> count == 0
    decreases node
  {
    if node.kindId == TOPIC {
      count := 0;
      for i := 0 to |node.children|
        invariant count == SumOver(ReachedUpTo(node, i), ResourceWeight)
      {
        var c := CountFiles(node.children[i]);
        SumOverAppend(ReachedUpTo(node, i), Reached(node.children[i]), ResourceWeight);
        count := count + c;
      }
      SumOverSingle(node, ResourceWeight);
      SumOverAppend([node], ReachedUpTo(node, |node.children|), ResourceWeight);
      return;
    }
    SumOverSingle(node, ResourceWeight);
    return 1;
  }

  /** count_all_children: the number of proper descendants, through every kind. */
  method CountAllChildren(node: Node) returns (count: nat)
    ensures count == |Descendants(node)|
    ensures node.children == [] ==> count == 0
    decreases node
  {
    count := |node.children|;
    for i := 0 to |node.children|
      invariant count + i == |node.children| + |DescendantsUpTo(node, i)|
    {
      var c := CountAllChildren(node.children[i]);
      count := count + c;
    }
  }

  /** The sum of a resource's file sizes, as the inner loop of get_total_size
      and of calculate_node_metadata adds them up. */
  method SumFileSizes(files: seq<nat>) returns (total: nat)
    ensures total == Sum(files)
  {
    total := 0;
    for i := 0 to |files|
      invariant total == Sum(files[..i])
    {
      assert files[..i + 1][..i] == files[..i];
      total := total + files[i];
    }
    assert files[..|files|] == files;
  }

  /** get_total_size: the file sizes of the resources reached through topics;
      a topic's own files and the children of a resource are not counted. */
  method GetTotalSize(node: Node) returns (totalSize: nat)
    ensures totalSize == SumOver(Reached(node), SizeWeight)
    ensures !IsTopic(node) ==> totalSize == Sum(node.files)
    decreases node
  {
    totalSize := 0;
    SumOverSingle(node, SizeWeight);
    if node.kindId == TOPIC {
      for i := 0 to |node.children|
        invariant totalSize == SumOver(ReachedUpTo(node, i), SizeWeight)
      {
        var s := GetTotalSize(node.children[i]);
        SumOverAppend(ReachedUpTo(node, i), Reached(node.children[i]), SizeWeight);
        totalSize := totalSize + s;
      }
      SumOverAppend([node], ReachedUpTo(node, |node.children|), SizeWeight);
    } else {
      totalSize := SumFileSizes(node.files);
    }
  }

  /** calculate_node_metadata: all the rollups in one walk. */
  method CalculateNodeMetadata(node: Node) returns (m: Metadata)
    ensures m.resourceCount == SumOver(Reached(node), ResourceWeight)
    ensures m.resourceSize == SumOver(Reached(node), SizeWeight)
    ensures m.totalCount == SumOver(Reached(node), ChildWeight)
    ensures m.hasChangedDescendant == AnyChanged(Reached(node))
    ensures IsTopic(node) ==> m.maxSortOrder == MaxSortOrder(node.children)
    ensures !IsTopic(node) ==> m.maxSortOrder == node.sortOrder
    decreases node
  {
    var totalCount, resourceCount, maxSortOrder, resourceSize, hasChanged := |node.children|, 0, 1, 0, node.changed;
    if node.kindId == TOPIC {
      for i := 0 to |node.children|
        invariant totalCount == |node.children| + SumOver(ReachedUpTo(node, i), ChildWeight)
        invariant resourceSize == SumOver(ReachedUpTo(node, i), SizeWeight)
        invariant resourceCount == SumOver(ReachedUpTo(node, i), ResourceWeight)
        invariant hasChanged == (node.changed || AnyChanged(ReachedUpTo(node, i)))
        invariant maxSortOrder == MaxSortOrder(node.children[..i])
      {
        var child := node.children[i];
        assert node.children[..i + 1][..i] == node.children[..i];
        maxSortOrder := if child.sortOrder > maxSortOrder then child.sortOrder else maxSortOrder;
        var cm := CalculateNodeMetadata(child);
        RollUpStep(node, i);
        totalCount := totalCount + cm.totalCount;
        resourceSize := resourceSize + cm.resourceSize;
        resourceCount := resourceCount + cm.resourceCount;
        hasChanged := hasChanged || cm.hasChangedDescendant;
      }
      RollUpTopic(node);
      assert node.children[..|node.children|] == node.children;
    } else {
      resourceCount := 1;
      resourceSize := SumFileSizes(node.files);
      maxSortOrder := node.sortOrder;
      RollUpResource(node);
    }
    m := Metadata(totalCount, resourceCount, maxSortOrder, resourceSize, hasChanged);
  }

  /** How each rollup of the first i + 1 children splits into the first i and child i. */
  lemma RollUpStep(node: Node, i: nat)
    requires i < |node.children|
    ensures var before, child := ReachedUpTo(node, i), Reached(node.children[i]);
      && SumOver(ReachedUpTo(node, i + 1), ChildWeight) == SumOver(before, ChildWeight) + SumOver(child, ChildWeight)
      && SumOver(ReachedUpTo(node, i + 1), SizeWeight) == SumOver(before, SizeWeight) + SumOver(child, SizeWeight)
      && SumOver(ReachedUpTo(node, i + 1), ResourceWeight) == SumOver(before, ResourceWeight) + SumOver(child, ResourceWeight)
      && AnyChanged(ReachedUpTo(node, i + 1)) == (AnyChanged(before) || AnyChanged(child))
  {
    var before, child := ReachedUpTo(node, i), Reached(node.children[i]);
    SumOverAppend(before, child, ChildWeight);
    SumOverAppend(before, child, SizeWeight);
    SumOverAppend(before, child, ResourceWeight);
    AnyChangedAppend(before, child);
  }

  /** A resource's rollups are its own weights. */
  lemma RollUpResource(node: Node)
    requires !IsTopic(node)
    ensures SumOver(Reached(node), ChildWeight) == |node.children|
    ensures SumOver(Reached(node), SizeWeight) == Sum(node.files)
    ensures SumOver(Reached(node), ResourceWeight) == 1
    ensures AnyChanged(Reached(node)) == node.changed
  {
    SumOverSingle(node, ResourceWeight);
    SumOverSingle(node, SizeWeight);
    SumOverSingle(node, ChildWeight);
  }

  /** How each rollup of a topic splits into the topic itself and what its children reach. */
  lemma RollUpTopic(node: Node)
    requires IsTopic(node)
    ensures var below := ReachedUpTo(node, |node.children|);
      && SumOver(Reached(node), ChildWeight) == |node.children| + SumOver(below, ChildWeight)
      && SumOver(Reached(node), SizeWeight) == SumOver(below, SizeWeight)
      && SumOver(Reached(node), ResourceWeight) == SumOver(below, ResourceWeight)
      && AnyChanged(Reached(node)) == (node.changed || AnyChanged(below))
  {
    var below := ReachedUpTo(node, |node.children|);
    SumOverSingle(node, ResourceWeight);
    SumOverSingle(node, SizeWeight);
    SumOverSingle(node, ChildWeight);
    SumOverAppend([node], below, ChildWeight);
    SumOverAppend([node], below, SizeWeight);
    SumOverAppend([node], below, ResourceWeight);
    AnyChangedAppend([node], below);
    assert [node][0] == node;
  }

  /** The single walk of calculate_node_metadata agrees field by field with the
      standalone helpers; its total_count agrees with count_all_children on a
      tree where only topics have children. */
  method MetadataAgreesWithHelpers(node: Node) returns (m: Metadata, files: nat, size: nat, all: nat)
    ensures files == SumOver(Reached(node), ResourceWeight)
    ensures size == SumOver(Reached(node), SizeWeight)
    ensures all == |Descendants(node)|
    ensures m.resourceCount == files
    ensures m.resourceSize == size
    ensures OnlyTopicsHaveChildren(node) ==> m.totalCount == all
  {
    m := CalculateNodeMetadata(node);
    files := CountFiles(node);
    size := GetTotalSize(node);
    all := CountAllChildren(node);
    if OnlyTopicsHaveChildren(node) {
      ChildCountsGiveDescendants(node);
    }
  }
}
