# Content curation: tree rollups, bulk creation and the staged diff

This project models the two pieces of real logic in the content curation
server. A content channel is a tree of content nodes. Topics are folders
with children. Every other kind of node (video, exercise, document, ...) is a
resource that carries files.

- `contentcuration/contentcuration/api.py`
  - The recursive rollups `count_files`, `count_all_children`, `get_total_size`
    and `calculate_node_metadata`. They compute resource counts, descendant
    counts, total byte sizes, the maximum child `sort_order` and a
    "has changed descendant" flag.
  - The bulk helpers `convert_data_to_nodes` (with `create_node` and
    `create_exercises`), `batch_add_tags` and `get_file_diff`.
- `contentcuration/contentcuration/views.py`
  - The read-through constants cache `get_or_set_cached_constants`.
  - The statistics table that `get_staged_diff` builds to compare a channel's
    staged tree with its live tree.

Modules:

- `ContentTree` (content_tree.dfy) holds the tree datatype and the reference
  definitions the rollups are proved against. `Reached(n)` is the node plus
  everything reached from it through topics. `Descendants(n)` is every proper
  descendant, of any kind. `SumOver` sums a weight over nodes.
- `Rollups` (rollups.dfy) holds the four rollups. Each is a recursive method
  with the source's accumulating loop over the children. `count_files`,
  `count_all_children` and `get_total_size` are proved equal to a sum over
  `Reached` or to `|Descendants|`. In `calculate_node_metadata`,
  `resource_count`, `resource_size` and `total_count` are proved equal to sums
  over `Reached`. Its `max_sort_order` and `has_changed_descendant` are proved
  against `MaxSortOrder` and `AnyChanged(Reached(n))`. It agrees with
  `count_files` and `get_total_size` on every tree, and with
  `count_all_children` when only topics have children.
- `BulkCreate` (bulk_create.dfy) models the bulk helpers.
  - Database reads are inputs: the known kinds, the license lookup, the stored
    tags, the stored file names and the files present on disk.
  - Database writes are outputs: the rows handed to `create`, `save` or
    `bulk_create`.
  - Primary keys that the database hands out are an input function.
  - Where the source iterates over a Python set, the method picks elements in
    an arbitrary order, and the order it picked is part of its result.
- `ConstantsCache` (constants_cache.dfy) is a class whose map field is the
  cache backend.
- `StagedDiff` (staged_diff.dfy) takes the ORM aggregates of each tree as
  inputs and assembles the rows of the stats list.
- `Wrappers` (wrappers.dfy) holds Option and Result.

## Model

| member | source | states |
|---|---|---|
| `Rollups.CountFiles` | contentcuration/contentcuration/api.py:62-68 | The count is the number of non-topic nodes reached through topics. A resource counts 1 and an empty topic counts 0. |
| `Rollups.CountAllChildren` | contentcuration/contentcuration/api.py:70-74 | The count is the number of proper descendants of every kind. A leaf counts 0. |
| `Rollups.SumFileSizes` | contentcuration/contentcuration/api.py:82-83 | The loop over a resource's files adds up exactly their sizes. |
| `Rollups.GetTotalSize` | contentcuration/contentcuration/api.py:76-84 | The total is the sum of file sizes of the resources reached through topics. A topic's own files and the children of a resource are ignored. A resource's total is its own file sizes. |
| `Rollups.CalculateNodeMetadata` | contentcuration/contentcuration/api.py:36-60 | `resource_count` is the number of resources reached and `resource_size` is their file sizes. `total_count` is the sum of direct child counts over the nodes reached, so a resource adds only its direct children. `has_changed_descendant` holds iff some node reached, the node included, is changed. `max_sort_order` is the maximum of 1 and the children's `sort_order` for a topic, and the node's own `sort_order` for a resource. |
| `Rollups.MetadataAgreesWithHelpers` | contentcuration/contentcuration/api.py:36-84 | `count_files` gives the number of resources reached, `get_total_size` their file sizes and `count_all_children` the number of proper descendants. `calculate_node_metadata` gives the same `resource_count` as `count_files` and the same `resource_size` as `get_total_size`. Its `total_count` equals `count_all_children` on every tree where only topics have children. |
| `ContentTree.ChildCountsGiveDescendants` | contentcuration/contentcuration/api.py:45-49 | When only topics have children, the sum of direct child counts over the nodes reached is the number of proper descendants. |
| `ContentTree.MaxSortOrderIsMaximum` | contentcuration/contentcuration/api.py:40-47 | The maximum child sort order is at least 1 and bounds every child's `sort_order`. It is 1 or one of those values. |
| `BulkCreate.CreateNode` | contentcuration/contentcuration/api.py:176-201 | A node is created iff its kind exists and its license, when one is named, is found. An unknown kind is reported before the license is looked up. A known kind with a named license that is not found gives InvalidLicense. The row carries the given key, parent, sort order, node_id, kind, title, description, author, extra_fields and the license found. |
| `BulkCreate.CreateExercises` | contentcuration/contentcuration/api.py:241-258 | The i-th question becomes the item of the node with `order` i. There is one item per question. |
| `BulkCreate.MappingUpToKeys` | contentcuration/contentcuration/api.py:163-171 | The keys of `root_mapping` are exactly the node_ids of the content processed. |
| `BulkCreate.MappingUpToLastWins` | contentcuration/contentcuration/api.py:171 | A node_id maps to the new key of the last node that carries it. |
| `BulkCreate.ConvertDataToNodes` | contentcuration/contentcuration/api.py:161-174 | On success, the i-th node is created under the parent with `sort_order` i + 1. Its questions become its items, and `root_mapping` maps node_ids to the new keys. Among the failures the model covers (an unknown kind or a license that is not found), the call fails iff some node cannot be created, and it then reports the error of the first such node. |
| `BulkCreate.NewTags` | contentcuration/contentcuration/api.py:110-113 | Exactly one new tag is built per new name, with the key `newTagPk` gives its name. |
| `BulkCreate.LinksForIsProduct` | contentcuration/contentcuration/api.py:120-122 | The links are the full product of tags and nodes. There are \|tags\| x \|nodes\| of them, and a pair is linked iff its tag and its node are both requested. |
| `BulkCreate.LinkTags` | contentcuration/contentcuration/api.py:116-123 | Every tag of the set is visited once, and each gets one link per requested node, in the nodes' order. The number of links is \|tags\| x \|nodes\|. |
| `BulkCreate.BatchAddTags` | contentcuration/contentcuration/api.py:104-125 | It creates exactly the requested names that no stored tag carries, each once. It links every matching stored tag and every new tag, identified by key, to every requested node. |
| `BulkCreate.GetFileDiff` | contentcuration/contentcuration/api.py:127-136 | It returns, each once, exactly the requested names that are neither in the database nor on disk. It raises IndexError iff a requested name that is not in the database has no '.'. |
| `ConstantsCache.Cache.GetOrSet` | contentcuration/contentcuration/views.py:59-67 | A truthy hit returns the cached value and leaves the cache unchanged. A miss or a falsy value stores the fresh rendering under the name and returns it. Afterwards the entry for the name equals the result, and every other entry is unchanged. |
| `ConstantsCache.GetTwice` | contentcuration/contentcuration/views.py:60-66 | Two calls in a row for the same constant return the same data when the rendering is non-empty. |
| `StagedDiff.StagedDiff` | contentcuration/contentcuration/views.py:250-291 | The list has 4 + \|kinds\| rows in this order: Date/Time, File Size, one row per kind in the order of the choices, # of Questions, # of Subtitles. File size is `resource_size + assessment_size`, with None counted as 0. A kind absent from a tree's counts gives 0. Every numeric row has `difference == staged - live`. |
| `StagedDiff.MissingMainTreeCountsZero` | contentcuration/contentcuration/views.py:232-259 | Without a live tree, the live date is None and every live count and size is 0. |
| `StagedDiff.MissingStagingTreeCountsZero` | contentcuration/contentcuration/views.py:233-259 | Without a staged tree, the staged date is None and every staged count and size is 0. |
| `StagedDiff.GetStagedDiff` | contentcuration/contentcuration/views.py:228-293 | This is the code as written. It raises AttributeError iff there is at least one kind and a tree is missing or has no descendants. Otherwise it returns exactly the intended list. |

## Left out

- Django ORM query semantics (`filter`, `aggregate`, `annotate`, `get_descendants`, `bulk_create`). Their results are inputs to the model: the per-tree aggregates of `get_staged_diff`, the kind set, the license lookup, the stored tags, the stored file names and the primary keys.
- The aggregates are taken as given, including how the ORM joins files and assessment items within one `aggregate` call.
- HTTP handlers, redirects, permission and browser checks, JSON rendering and templates in views.py (`base`, `channel`, `channel_list`, `channel_page`, `publish_channel`, `accessible_channels`, `accept_channel_invite`, `activate_channel_endpoint`, ...). These are routing and serialisation. The request parsing and `HttpResponse` of `batch_add_tags` and `get_staged_diff` are left out for the same reason.
- `map_files_to_node` and `map_files_to_assessment_item`. They open files on disk and look up format presets, so the files attached by `convert_data_to_nodes` and `create_exercises` are not modelled.
- `os.path.isfile` in `get_file_diff` is the input set `onDisk`, indexed by file name. `generate_file_on_disk_name` is not part of this model. The model assumes it returns a path and raises nothing for a name that contains '.'.
- `recurse`, `clean_db`, `get_node_siblings`, `get_node_ancestors`, `get_child_names`, `api_create_channel`, `create_channel` and `init_staging_tree`. `clean_db` deletes unreferenced files, nodes and tags. `create_channel` and `init_staging_tree` create and save rows. `api_create_channel` calls those two. `recurse` prints. The others are ORM reads. None of them computes anything the modelled operations use.
- `transaction.atomic` is modelled only by its outcome: a failing `convert_data_to_nodes` returns no rows.
- BulkCreate.ConvertDataToNodes: a `node_data` dict without one of the keys it reads raises KeyError (re-raised as ObjectDoesNotExist). The model's records always have every key, so that path is not modelled.
- BulkCreate.CreateNode: the `iexact` license match is inside the `findLicense` input. A lookup that finds several licenses raises MultipleObjectsReturned, which `except ObjectDoesNotExist` does not catch; `findLicense` returns an Option, so this error is not modelled.
- BulkCreate.ConvertDataToNodes: the failures of `map_files_to_node` and `map_files_to_assessment_item` inside the same transaction are not modelled. These are `open()` on a missing file, a `FormatPreset.objects.get` that finds nothing, and a missing `files` key. Each aborts the whole call in the source, but the model can fail only on an unknown kind or a license that is not found.
- `sort_order` is modelled as an integer. The rollups only compare and copy it.
- Child iteration order in the rollups is taken as the order of the `children` sequence. Sums, maxima and disjunctions do not depend on it.
- `strftime` formatting of the creation dates is locale-dependent. Dates are abstract timestamps.
- ConstantsCache.Cache.GetOrSet: the backend never evicts or expires an entry (the source sets no timeout). Concurrent access from other processes is not modelled.
- `utils/recommendations.py` is an empty adapter and `migrations/0141_add_task_signature.py` is schema data. Neither is part of this model.

## Findings

| source | as written | input that shows it | evidently intended | confidence | as-written member | corrected member |
|---|---|---|---|---|---|---|
| contentcuration/contentcuration/views.py:235-272 | A tree that is missing, or whose descendants queryset is empty, gets the dict `{}` as its per-kind stats. The kind loop then calls `original_stats.filter(kind_id=kind)` (or `updated_stats.filter`) on that dict, which raises AttributeError. | A channel whose `staging_tree` is None, or whose main tree has no descendants yet, with a non-empty list of content kinds. | Each kind counts 0 for that tree, as the file size, question and subtitle rows already do. | not executed; high | `StagedDiff.GetStagedDiff` | `StagedDiff.StagedDiff` |
