/**
 * The statistics table of get_staged_diff in contentcuration/views.py: how a
 * channel's staged tree differs from its live (main) tree. The ORM queries
 * over each tree's descendants are inputs (TreeStats); what is modelled is
 * how the rows are assembled and the arithmetic on them.
 */
module StagedDiff {
  import opened Wrappers

  /** When a tree's root was created; its strftime rendering is not modelled. */
  type Timestamp = nat

  /** One entry of the content kind choices: the kind_id and its display name. */
  datatype KindChoice = KindChoice(kind: string, name: string)

  /** What the ORM reports about the descendants of one tree. */
  datatype TreeStats = TreeStats(
    created: Timestamp,            // created of the tree's root
    descendantCount: nat,          // how many descendants get_descendants() yields
    kindCounts: map<string, nat>,  // values('kind_id').annotate(count=Count('kind_id'))
    resourceSize: Option<nat>,     // Sum('files__file_size'), None over no rows
    assessmentSize: Option<nat>,   // Sum('assessment_items__files__file_size')
    assessmentCount: nat,          // Count('assessment_items')
    subtitleCount: nat)            // descendants filtered on the video subtitle preset, counted

  /** One entry of the stats list; only "File Size" carries format_size. */
  datatype StatRow =
    | DateRow(field: string, liveCreated: Option<Timestamp>, stagedCreated: Option<Timestamp>)
    | CountRow(field: string, live: int, staged: int, difference: int, formatSize: bool)

  /** The exception the per-kind loop raises when it calls `.filter` on `{}`. */
  datatype DiffError = AttributeError

  /** Truthiness of a tree's descendants queryset: the tree exists and has descendants. */
  predicate HasDescendants(t: Option<TreeStats>) {
    t.Some? && t.value.descendantCount > 0
  }

  /** `x or 0` for an aggregate that is None over no rows. */
  function OrZero(x: Option<nat>): (r: nat) {
    if x.Some? then x.value else 0
  }

  function CreatedAt(t: Option<TreeStats>): (r: Option<Timestamp>) {
    if t.Some? then Some(t.value.created) else None
  }

  /** resource_size + assessment_size, each missing or None one counted as 0. */
  function FileSize(t: Option<TreeStats>): (r: nat) {
    if HasDescendants(t) then OrZero(t.value.resourceSize) + OrZero(t.value.assessmentSize) else 0
  }

  function QuestionCount(t: Option<TreeStats>): (r: nat) {
    if HasDescendants(t) then t.value.assessmentCount else 0
  }

  function SubtitleCount(t: Option<TreeStats>): (r: nat) {
    if HasDescendants(t) then t.value.subtitleCount else 0
  }

  /** How many descendants of the tree have the given kind; 0 when the kind is
      absent, the tree is missing or it has no descendants. */
  function KindCount(t: Option<TreeStats>, kind: string): (r: nat) {
    if HasDescendants(t) && kind in t.value.kindCounts then t.value.kindCounts[kind] else 0
  }

  /** "# of {}s".format(name) */
  function KindField(name: string): (r: string) {
    "# of " + name + "s"
  }

  function KindRow(c: KindChoice, main: Option<TreeStats>, staging: Option<TreeStats>): (r: StatRow) {
    var original, updated := KindCount(main, c.kind), KindCount(staging, c.kind);
    CountRow(KindField(c.name), original, updated, updated - original, false)
  }

  /** The stats list as evidently intended: a missing tree, or one without
      descendants, contributes 0 to every count and size. */
  function StagedDiff(choices: seq<KindChoice>, main: Option<TreeStats>, staging: Option<TreeStats>): (rows: seq<StatRow>)
    ensures |rows| == 4 + |choices|
    ensures rows[0] == DateRow("Date/Time Created", CreatedAt(main), CreatedAt(staging))
    ensures rows[1].CountRow? && rows[1].field == "File Size" && rows[1].formatSize
    ensures rows[1].live == FileSize(main) && rows[1].staged == FileSize(staging)
    ensures forall i :: 0 <= i < |choices| ==>
      rows[2 + i].CountRow? && rows[2 + i].field == KindField(choices[i].name) && !rows[2 + i].formatSize &&
      rows[2 + i].live == KindCount(main, choices[i].kind) && rows[2 + i].staged == KindCount(staging, choices[i].kind)
    ensures forall i :: 0 <= i < |choices| && (main.None? || choices[i].kind !in main.value.kindCounts) ==> rows[2 + i].CountRow? && rows[2 + i].live == 0
    ensures forall i :: 0 <= i < |choices| && (staging.None? || choices[i].kind !in staging.value.kindCounts) ==> rows[2 + i].CountRow? && rows[2 + i].staged == 0
    ensures rows[|rows| - 2].CountRow? && rows[|rows| - 2].field == "# of Questions"
    ensures rows[|rows| - 2].live == QuestionCount(main) && rows[|rows| - 2].staged == QuestionCount(staging)
    ensures rows[|rows| - 1].CountRow? && rows[|rows| - 1].field == "# of Subtitles"
    ensures rows[|rows| - 1].live == SubtitleCount(main) && rows[|rows| - 1].staged == SubtitleCount(staging)
    ensures forall i :: 1 <= i < |rows| ==> rows[i].CountRow? && rows[i].difference == rows[i].staged - rows[i].live
  {
    var originalFileSize, updatedFileSize := FileSize(main), FileSize(staging);
    var originalQuestions, updatedQuestions := QuestionCount(main), QuestionCount(staging);
    var originalSubtitles, updatedSubtitles := SubtitleCount(main), SubtitleCount(staging);
    [ DateRow("Date/Time Created", CreatedAt(main), CreatedAt(staging)),
      CountRow("File Size", originalFileSize, updatedFileSize, updatedFileSize - originalFileSize, true) ]
    + seq(|choices|, i requires 0 <= i < |choices| => KindRow(choices[i], main, staging))
    + [ CountRow("# of Questions", originalQuestions, updatedQuestions, updatedQuestions - originalQuestions, false),
        CountRow("# of Subtitles", originalSubtitles, updatedSubtitles, updatedSubtitles - originalSubtitles, false) ]
  }

  /** A missing live tree: no live date, and every live count and size is 0. */
  lemma MissingMainTreeCountsZero(choices: seq<KindChoice>, staging: Option<TreeStats>)
    ensures var rows := StagedDiff(choices, None, staging);
      rows[0].liveCreated == None && forall i :: 1 <= i < |rows| ==> rows[i].live == 0 && rows[i].difference == rows[i].staged
  {
  }

  /** A missing staged tree: no staged date, and every staged count and size is 0. */
  lemma MissingStagingTreeCountsZero(choices: seq<KindChoice>, main: Option<TreeStats>)
    ensures var rows := StagedDiff(choices, main, None);
      rows[0].stagedCreated == None && forall i :: 1 <= i < |rows| ==> rows[i].staged == 0 && rows[i].difference == -rows[i].live
  {
  }

  /** get_staged_diff as written. When either tree is missing or has no
      descendants, its per-kind stats are the dict `{}`, and the first pass of
      the kind loop calls `.filter` on it; otherwise the list is the intended one. */
  method GetStagedDiff(choices: seq<KindChoice>, main: Option<TreeStats>, staging: Option<TreeStats>)
    returns (r: Result<seq<StatRow>, DiffError>)
    ensures r.Failure? <==> |choices| > 0 && !(HasDescendants(main) && HasDescendants(staging))
    ensures r.Success? ==> r.value == StagedDiff(choices, main, staging)
  {
    var originalFileSize: int, updatedFileSize: int := FileSize(main), FileSize(staging);
    var originalQuestions: int, updatedQuestions: int := QuestionCount(main), QuestionCount(staging);
    var stats := [
      DateRow("Date/Time Created", CreatedAt(main), CreatedAt(staging)),
      CountRow("File Size", originalFileSize, updatedFileSize, updatedFileSize - originalFileSize, true)
    ];
    for i := 0 to |choices|
      invariant |stats| == 2 + i
      invariant i > 0 ==> HasDescendants(main) && HasDescendants(staging)
      invariant stats[..2] == StagedDiff(choices, main, staging)[..2]
      invariant forall j :: 0 <= j < i ==> stats[2 + j] == KindRow(choices[j], main, staging)
    {
      if !HasDescendants(main) || !HasDescendants(staging) {
        return Failure(AttributeError);
      }
      var kind := choices[i].kind;
      var original: int := if kind in main.value.kindCounts then main.value.kindCounts[kind] else 0;
      var updated: int := if kind in staging.value.kindCounts then staging.value.kindCounts[kind] else 0;
      stats := stats + [CountRow(KindField(choices[i].name), original, updated, updated - original, false)];
    }
    stats := stats + [CountRow("# of Questions", originalQuestions, updatedQuestions, updatedQuestions - originalQuestions, false)];
    var originalSubtitles: int, updatedSubtitles: int := SubtitleCount(main), SubtitleCount(staging);
    stats := stats + [CountRow("# of Subtitles", originalSubtitles, updatedSubtitles, updatedSubtitles - originalSubtitles, false)];
    var expected := StagedDiff(choices, main, staging);
    assert |stats| == |expected|;
    assert forall k :: 0 <= k < |stats| ==> stats[k] == expected[k] by {
      forall k | 0 <= k < |stats| ensures stats[k] == expected[k] {
        if k < 2 {
          assert stats[k] == stats[..2][k];
        }
      }
    }
    return Success(stats);
  }
}
