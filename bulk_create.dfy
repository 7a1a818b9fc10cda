/**
 * The bulk-creation helpers of contentcuration/api.py: convert_data_to_nodes
 * with create_node and create_exercises, batch_add_tags and get_file_diff.
 *
 * Database reads are inputs (the known kinds, the license lookup, the tags and
 * file names already stored, the files present on disk) and database writes
 * are outputs: the rows each helper hands to create, save or bulk_create.
 * Primary keys handed out by the database are an input function.
 */
module BulkCreate {
  import opened Wrappers

  type NodePk = nat
  type TagPk = nat

  /** One question of an exercise; each field is what `question.get(key)`
      yields, None when the key is absent. */
  datatype QuestionData = QuestionData(
    questionType: Option<string>,
    question: Option<string>,
    hints: Option<string>,
    answers: Option<string>,
    assessmentId: Option<string>,
    rawData: Option<string>)

  /** An AssessmentItem row as create_exercises saves it. */
  datatype AssessmentItem = AssessmentItem(node: NodePk, order: nat, data: QuestionData)

  /** One entry of the content_data that convert_data_to_nodes receives. */
  datatype NodeData = NodeData(
    nodeId: string,
    title: string,
    description: string,
    author: string,
    kind: string,
    extraFields: string,
    license: Option<string>,
    questions: seq<QuestionData>)

  /** A ContentNode row as create_node creates it. */
  datatype NodeRow = NodeRow(
    pk: NodePk,
    nodeId: string,
    title: string,
    description: string,
    author: string,
    kind: string,
    license: Option<nat>,
    parent: NodePk,
    extraFields: string,
    sortOrder: nat)

  datatype CreateError =
    | KindDoesNotExist(kind: string)  // ContentKind.objects.get found no such kind
    | InvalidLicense                  // "Invalid license found"

  /** What convert_data_to_nodes leaves in the database and returns. */
  datatype Converted = Converted(mapping: map<string, NodePk>, nodes: seq<NodeRow>, items: seq<AssessmentItem>)

  /** create_node: the kind is looked up first, then the license (when one is
      named); `findLicense` is the license lookup, None when no license matches. */
  function CreateNode(data: NodeData, parent: NodePk, sortOrder: nat, pk: NodePk,
                      kinds: set<string>, findLicense: string -> Option<nat>): (r: Result<NodeRow, CreateError>)
    ensures r.Success? <==> data.kind in kinds && (data.license.Some? ==> findLicense(data.license.value).Some?)
    ensures data.kind !in kinds ==> r == Failure(KindDoesNotExist(data.kind))
    ensures data.kind in kinds && data.license.Some? && findLicense(data.license.value).None? ==> r == Failure(InvalidLicense)
    ensures r.Success? ==> r.value.pk == pk && r.value.parent == parent && r.value.sortOrder == sortOrder
    ensures r.Success? ==> r.value.nodeId == data.nodeId && r.value.kind == data.kind
    ensures r.Success? ==> r.value.title == data.title && r.value.description == data.description
    ensures r.Success? ==> r.value.author == data.author && r.value.extraFields == data.extraFields
    ensures r.Success? ==> r.value.license == if data.license.None? then None else findLicense(data.license.value)
  {
    if data.kind !in kinds then Failure(KindDoesNotExist(data.kind))
    else
      var license: Option<nat> :=
        if data.license.None? then None else findLicense(data.license.value);
      if data.license.Some? && license.None? then Failure(InvalidLicense)
      else Success(NodeRow(pk, data.nodeId, data.title, data.description, data.author,
                           data.kind, license, parent, data.extraFields, sortOrder))
  }

  /** create_exercises: the i-th question becomes an item of the node with order i. */
  method CreateExercises(node: NodePk, data: seq<QuestionData>) returns (items: seq<AssessmentItem>)
    ensures |items| == |data|
    ensures forall i :: 0 <= i < |data| ==> items[i] == AssessmentItem(node, i, data[i])
  {
    items := [];
    var order := 0;
    for i := 0 to |data|
      invariant order == i == |items|
      invariant forall j :: 0 <= j < i ==> items[j] == AssessmentItem(node, j, data[j])
    {
      var item := AssessmentItem(node, order, data[i]);
      order := order + 1;
      items := items + [item];
    }
  }

  /** The node_id -> pk mapping after the first n nodes: each node_id maps to the
      key of the node created for it, a later entry overwriting an earlier one. */
  function MappingUpTo(content: seq<NodeData>, keyFor: nat -> NodePk, n: nat): (r: map<string, NodePk>)
    requires n <= |content|
  {
    if n == 0 then map[] else MappingUpTo(content, keyFor, n - 1)[content[n - 1].nodeId := keyFor(n - 1)]
  }

  /** The keys of the mapping are exactly the node_ids of the first n nodes. */
  lemma {:induction false} MappingUpToKeys(content: seq<NodeData>, keyFor: nat -> NodePk, n: nat)
    requires n <= |content|
    ensures forall id :: id in MappingUpTo(content, keyFor, n) <==> exists i :: 0 <= i < n && content[i].nodeId == id
  {
    if n > 0 {
      MappingUpToKeys(content, keyFor, n - 1);
    }
  }

  /** A node_id maps to the key of the LAST of the first n nodes that carries it. */
  lemma {:induction false} MappingUpToLastWins(content: seq<NodeData>, keyFor: nat -> NodePk, n: nat, i: nat)
    requires i < n <= |content|
    requires forall j :: i < j < n ==> content[j].nodeId != content[i].nodeId
    ensures content[i].nodeId in MappingUpTo(content, keyFor, n)
    ensures MappingUpTo(content, keyFor, n)[content[i].nodeId] == keyFor(i)
  {
    if i < n - 1 {
      MappingUpToLastWins(content, keyFor, n - 1, i);
    }
  }

  /** The assessment items of the first n nodes, node by node. */
  function ItemsUpTo(content: seq<NodeData>, keyFor: nat -> NodePk, n: nat): (r: seq<AssessmentItem>)
    requires n <= |content|
  {
    if n == 0 then []
    else
      var qs := content[n - 1].questions;
      ItemsUpTo(content, keyFor, n - 1) + seq(|qs|, q requires 0 <= q < |qs| => AssessmentItem(keyFor(n - 1), q, qs[q]))
  }

  /** Some node of content cannot be created. */
  predicate SomeNodeFails(content: seq<NodeData>, parent: NodePk, keyFor: nat -> NodePk,
                          kinds: set<string>, findLicense: string -> Option<nat>)
  {
    exists i :: 0 <= i < |content| && CreateNode(content[i], parent, i + 1, keyFor(i), kinds, findLicense).Failure?
  }

  /** convert_data_to_nodes: the i-th node gets sort_order i + 1 under the parent,
      its questions become its items, and node_id maps to the new key. The whole
      call is one transaction: when a node cannot be created, nothing is kept and
      the error of the first such node is raised. */
  method ConvertDataToNodes(content: seq<NodeData>, parent: NodePk, keyFor: nat -> NodePk,
                            kinds: set<string>, findLicense: string -> Option<nat>)
    returns (r: Result<Converted, CreateError>)
    ensures r.Failure? <==> SomeNodeFails(content, parent, keyFor, kinds, findLicense)
    ensures r.Failure? ==> exists i :: (0 <= i < |content| &&
              CreateNode(content[i], parent, i + 1, keyFor(i), kinds, findLicense) == Failure(r.error) &&
              forall j :: 0 <= j < i ==> CreateNode(content[j], parent, j + 1, keyFor(j), kinds, findLicense).Success?)
    ensures r.Success? ==> |r.value.nodes| == |content|
    ensures r.Success? ==> forall i :: 0 <= i < |content| ==>
              CreateNode(content[i], parent, i + 1, keyFor(i), kinds, findLicense) == Success(r.value.nodes[i])
    ensures r.Success? ==> forall i :: 0 <= i < |content| ==> r.value.nodes[i].sortOrder == i + 1
    ensures r.Success? ==> r.value.mapping == MappingUpTo(content, keyFor, |content|)
    ensures r.Success? ==> r.value.items == ItemsUpTo(content, keyFor, |content|)
  {
    var rootMapping: map<string, NodePk> := map[];
    var sortOrder := 1;
    var nodes: seq<NodeRow> := [];
    var items: seq<AssessmentItem> := [];
    for i := 0 to |content|
      invariant sortOrder == i + 1 && |nodes| == i
      invariant forall j :: 0 <= j < i ==> CreateNode(content[j], parent, j + 1, keyFor(j), kinds, findLicense) == Success(nodes[j])
      invariant rootMapping == MappingUpTo(content, keyFor, i)
      invariant items == ItemsUpTo(content, keyFor, i)
    {
      var created := CreateNode(content[i], parent, sortOrder, keyFor(i), kinds, findLicense);
      if created.Failure? {
        return Failure(created.error);
      }
      var newNode := created.value;
      var questions := CreateExercises(newNode.pk, content[i].questions);
      sortOrder := sortOrder + 1;
      rootMapping := rootMapping[content[i].nodeId := newNode.pk];
      nodes := nodes + [newNode];
      items := items + questions;
    }
    return Success(Converted(rootMapping, nodes, items));
  }

  /** A ContentTag row. */
  datatype Tag = Tag(pk: TagPk, name: string)

  /** A row of the node-to-tag through table. */
  datatype TagLink = TagLink(node: NodePk, tag: TagPk)

  predicate Distinct<T(==)>(s: seq<T>) {
    forall i, j :: 0 <= i < j < |s| ==> s[i] != s[j]
  }

  /** A sequence without repetitions has as many elements as its set. */
  lemma {:induction false} DistinctCardinality<T>(s: seq<T>)
    requires Distinct(s)
    ensures |(set x | x in s)| == |s|
  {
    if s != [] {
      var init := s[..|s| - 1];
      DistinctCardinality(init);
      assert (set x | x in s) == (set x | x in init) + {s[|s| - 1]};
    }
  }

  /** The tags already stored whose name is requested. */
  function ExistingTags(tagNames: seq<string>, stored: set<Tag>): (r: set<Tag>) {
    set t | t in stored && t.name in tagNames
  }

  /** The requested names no stored tag carries. */
  function NewTagNames(tagNames: seq<string>, stored: set<Tag>): (r: set<string>) {
    (set n | n in tagNames) - (set t | t in ExistingTags(tagNames, stored) :: t.name)
  }

  /** The links bulk_create receives when the tags are visited in the order
      tagOrder: for each tag, one link per requested node, in the nodes' order. */
  function LinksFor(tagOrder: seq<TagPk>, nodePks: seq<NodePk>): (r: seq<TagLink>) {
    if tagOrder == [] then []
    else
      var tag := tagOrder[|tagOrder| - 1];
      LinksFor(tagOrder[..|tagOrder| - 1], nodePks) + seq(|nodePks|, j requires 0 <= j < |nodePks| => TagLink(nodePks[j], tag))
  }

  /** Every tag is linked to every node: |tags| x |nodes| links, and exactly the pairs of the two. */
  lemma {:induction false} LinksForIsProduct(tagOrder: seq<TagPk>, nodePks: seq<NodePk>)
    ensures |LinksFor(tagOrder, nodePks)| == |tagOrder| * |nodePks|
    ensures forall l: TagLink :: l in LinksFor(tagOrder, nodePks) <==> l.tag in tagOrder && l.node in nodePks
  {
    if tagOrder != [] {
      var init, tag := tagOrder[..|tagOrder| - 1], tagOrder[|tagOrder| - 1];
      LinksForIsProduct(init, nodePks);
      var block := seq(|nodePks|, j requires 0 <= j < |nodePks| => TagLink(nodePks[j], tag));
      assert tagOrder == init + [tag];
      forall l: TagLink | l.tag in tagOrder && l.node in nodePks
        ensures l in LinksFor(tagOrder, nodePks)
      {
        if l.tag != tag {
          assert l.tag in init;
        } else {
          var j :| 0 <= j < |nodePks| && nodePks[j] == l.node;
          assert block[j] == l;
        }
      }
    }
  }

  /** The first loop of batch_add_tags: one new tag per name, visiting the set
      of names in some order. */
  method NewTags(newTagNames: set<string>, newTagPk: string -> TagPk) returns (insertList: seq<Tag>)
    ensures (set t | t in insertList :: t.name) == newTagNames
    ensures |insertList| == |newTagNames|
    ensures forall t :: t in insertList ==> t.pk == newTagPk(t.name)
  {
    insertList := [];
    var pending := newTagNames;
    while pending != {}
      invariant pending <= newTagNames
      invariant (set t | t in insertList :: t.name) == newTagNames - pending
      invariant |insertList| + |pending| == |newTagNames|
      invariant forall t :: t in insertList ==> t.pk == newTagPk(t.name)
      decreases pending
    {
      var name :| name in pending;
      var tag := Tag(newTagPk(name), name);
      assert (set t | t in insertList + [tag] :: t.name) == (set t | t in insertList :: t.name) + {name};
      insertList := insertList + [tag];
      pending := pending - {name};
    }
  }

  /** The nested loops of batch_add_tags: for each tag of the set, in the order
      tagOrder in which the set is visited, one link per node. */
  method LinkTags(allTags: set<TagPk>, nodePks: seq<NodePk>) returns (tagOrder: seq<TagPk>, links: seq<TagLink>)
    ensures (set p: TagPk | p in tagOrder) == allTags
    ensures Distinct(tagOrder)
    ensures links == LinksFor(tagOrder, nodePks)
    ensures |links| == |allTags| * |nodePks|
  {
    var remaining := allTags;
    tagOrder, links := [], [];
    while remaining != {}
      invariant remaining <= allTags
      invariant (set p: TagPk | p in tagOrder) == allTags - remaining
      invariant Distinct(tagOrder)
      invariant links == LinksFor(tagOrder, nodePks)
      decreases remaining
    {
      var tag :| tag in remaining;
      ghost var before := links;
      for j := 0 to |nodePks|
        invariant links == before + seq(j, k requires 0 <= k < j => TagLink(nodePks[k], tag))
      {
        links := links + [TagLink(nodePks[j], tag)];
      }
      assert (tagOrder + [tag])[..|tagOrder|] == tagOrder;
      assert (set p: TagPk | p in tagOrder + [tag]) == (set p: TagPk | p in tagOrder) + {tag};
      tagOrder := tagOrder + [tag];
      remaining := remaining - {tag};
    }
    DistinctCardinality(tagOrder);
    LinksForIsProduct(tagOrder, nodePks);
  }

  /** batch_add_tags: creates one tag for each requested name not yet stored,
      then links every requested or created tag to every requested node. The
      tags are a Python set of model instances, which Django compares by primary
      key; tagOrder is the order in which that set is visited. */
  method BatchAddTags(tagNames: seq<string>, stored: set<Tag>, nodePks: seq<NodePk>, newTagPk: string -> TagPk)
    returns (created: seq<Tag>, tagOrder: seq<TagPk>, links: seq<TagLink>)
    ensures (set t | t in created :: t.name) == NewTagNames(tagNames, stored)
    ensures |created| == |NewTagNames(tagNames, stored)|
    ensures forall t :: t in created ==> t.pk == newTagPk(t.name)
    ensures (set p: TagPk | p in tagOrder) == (set t | t in ExistingTags(tagNames, stored) :: t.pk) + (set t | t in created :: t.pk)
    ensures Distinct(tagOrder)
    ensures links == LinksFor(tagOrder, nodePks)
    ensures |links| == |tagOrder| * |nodePks|
  {
    var existingTags := ExistingTags(tagNames, stored);
    created := NewTags(NewTagNames(tagNames, stored), newTagPk);
    var allTags := (set t | t in existingTags :: t.pk) + (set t | t in created :: t.pk);
    tagOrder, links := LinkTags(allTags, nodePks);
    DistinctCardinality(tagOrder);
  }

  /** Raised by `f.split(".")[-2]` when the name f has no '.'. */
  datatype FileDiffError = IndexError(name: string)

  /** get_file_diff: the requested file names (checksum.extension) that are
      neither stored in the database nor present on disk, each once, in the
      order in which the set of missing names is visited. */
  method GetFileDiff(fileList: seq<string>, inDb: set<string>, onDisk: set<string>)
    returns (r: Result<seq<string>, FileDiffError>)
    ensures r.Failure? <==> exists f :: f in fileList && f !in inDb && '.' !in f
    ensures r.Failure? ==> r.error.name in fileList && r.error.name !in inDb && '.' !in r.error.name
    ensures r.Success? ==> Distinct(r.value)
    ensures r.Success? ==> forall f :: f in r.value <==> f in fileList && f !in inDb && f !in onDisk
  {
    var notInDb := (set f | f in fileList) - inDb;
    var pending := notInDb;
    var toReturn: seq<string> := [];
    while pending != {}
      invariant pending <= notInDb
      invariant forall f :: f in toReturn <==> f in notInDb && f !in pending && f !in onDisk
      invariant forall f :: f in notInDb && f !in pending ==> '.' in f
      invariant Distinct(toReturn)
      decreases pending
    {
      var f :| f in pending;
      if '.' !in f {
        return Failure(IndexError(f));
      }
      if f !in onDisk {
        toReturn := toReturn + [f];
      }
      pending := pending - {f};
    }
    return Success(toReturn);
  }
}
