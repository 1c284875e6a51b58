/** The submission report: one block per item type, in item-type order, each
    listing every stage's success and fail counts in stage order. The text
    template is abstracted to records. */
module Report {
  import opened Counter
  import opened Config
  import opened Form

  datatype ReportLine = ReportLine(stage: string, success: int, fail: int)
  datatype ReportBlock = ReportBlock(item: string, lines: seq<ReportLine>)
  type Report = seq<ReportBlock>

  /** Submitting reads `formCounts[t]` with no fallback; a missing entry makes
      the call on it throw, which ends the submission. */
  datatype SubmitError = MissingEntry(item: string)

  datatype Result<T> = Ok(value: T) | Err(error: SubmitError)

  /** `upgradeStages[i]` as a template literal renders it; past the end of the
      stage list the lookup is `undefined`, which renders as that word. */
  function StageLabel(cfg: Config, i: nat): string
  {
    if i < |cfg.stages| then cfg.stages[i] else "undefined"
  }

  /** The lines of one item's block: the i-th count under the i-th stage label. */
  function Lines(cfg: Config, counts: seq<StageCount>): seq<ReportLine>
  {
    seq(|counts|, i requires 0 <= i < |counts| =>
      ReportLine(StageLabel(cfg, i), counts[i].success, counts[i].fail))
  }

  predicate AllPresent(items: seq<string>, form: FormCounts)
  {
    forall k :: 0 <= k < |items| ==> items[k] in form
  }

  /** handleSubmit as written: the blocks are built item by item, and the
      first item type without an edited entry aborts the submission. */
  function TryBlocks(cfg: Config, form: FormCounts, items: seq<string>): (r: Result<Report>)
    ensures r.Ok? <==> AllPresent(items, form)
    ensures r.Ok? ==>
              && |r.value| == |items|
              && forall k :: 0 <= k < |items| ==>
                   r.value[k] == ReportBlock(items[k], Lines(cfg, form[items[k]]))
    ensures r.Err? ==>
              && r.error.item !in form
              && exists k :: 0 <= k < |items| && items[k] == r.error.item && AllPresent(items[..k], form)
    decreases |items|
  {
    if items == [] then Ok([])
    else if items[0] !in form then
      assert AllPresent(items[..0], form);
      Err(MissingEntry(items[0]))
    else
      match TryBlocks(cfg, form, items[1..])
      case Ok(rest) =>
        Ok([ReportBlock(items[0], Lines(cfg, form[items[0]]))] + rest)
      case Err(e) =>
        ghost var k :| 0 <= k < |items[1..]| && items[1..][k] == e.item && AllPresent(items[1..][..k], form);
        assert items[k + 1] == e.item;
        ghost var prefix := items[..k + 1];
        assert AllPresent(prefix, form) by {
          forall j | 0 <= j < |prefix|
            ensures prefix[j] in form
          {
            if j > 0 {
              assert prefix[j] == items[1..][..k][j - 1];
            }
          }
        }
        Err(e)
  }

  function TryBuildReport(cfg: Config, form: FormCounts): (r: Result<Report>)
  {
    TryBlocks(cfg, form, cfg.itemTypes)
  }

  /** The report handleSubmit is able to build: only defined when every item
      type already has an edited entry. Each block carries its item's counts
      unchanged; on a reachable table it lists every stage once, in stage
      order, with non-negative counts. */
  function BuildReport(cfg: Config, form: FormCounts): (r: Report)
    requires AllPresent(cfg.itemTypes, form)
    ensures |r| == |cfg.itemTypes|
    ensures forall k :: 0 <= k < |r| ==>
              r[k].item == cfg.itemTypes[k] && |r[k].lines| == |form[cfg.itemTypes[k]]|
    ensures forall k, i :: 0 <= k < |r| && 0 <= i < |r[k].lines| ==>
              && r[k].lines[i].success == form[cfg.itemTypes[k]][i].success
              && r[k].lines[i].fail == form[cfg.itemTypes[k]][i].fail
    ensures Invariant(cfg, form) ==>
              forall k :: 0 <= k < |r| ==> |r[k].lines| == |cfg.stages|
    ensures Invariant(cfg, form) ==>
              forall k, i :: 0 <= k < |r| && 0 <= i < |cfg.stages| ==>
                && r[k].lines[i].stage == cfg.stages[i]
                && r[k].lines[i].success >= 0
                && r[k].lines[i].fail >= 0
  {
    var r := seq(|cfg.itemTypes|, k requires 0 <= k < |cfg.itemTypes| =>
      ReportBlock(cfg.itemTypes[k], Lines(cfg, form[cfg.itemTypes[k]])));
    assert Invariant(cfg, form) ==>
      forall k :: 0 <= k < |r| ==> |form[cfg.itemTypes[k]]| == |cfg.stages| && NonNegative(form[cfg.itemTypes[k]]);
    r
  }

  /** Submission succeeds exactly when every item type has an entry, and then
      yields the report above. */
  lemma TryBuildReportSucceedsIff(cfg: Config, form: FormCounts)
    ensures TryBuildReport(cfg, form).Ok? <==> AllPresent(cfg.itemTypes, form)
    ensures AllPresent(cfg.itemTypes, form) ==> TryBuildReport(cfg, form).value == BuildReport(cfg, form)
  {
  }

  /** A session of clicks starting from the empty table (the page's initial
      state) can be submitted exactly when it has clicked on every item type. */
  lemma SessionSubmitSucceedsIff(cfg: Config, clicks: seq<Click>)
    requires Valid(cfg) && ClicksOnItems(cfg, clicks)
    ensures TryBuildReport(cfg, Run(cfg, map[], clicks)).Ok? <==>
              forall k :: 0 <= k < |cfg.itemTypes| ==> cfg.itemTypes[k] in Touched(clicks)
  {
    RunKeys(cfg, map[], clicks);
  }

  /** The page's state right after loading: nothing edited. Submitting then
      fails at the first item type. */
  lemma FreshFormSubmitFails(cfg: Config)
    requires |cfg.itemTypes| > 0
    ensures TryBuildReport(cfg, map[]) == Err(MissingEntry(cfg.itemTypes[0]))
  {
  }

  /** With the page's own tables: submitting before editing anything, or
      after editing only the first item's box, fails. */
  lemma DefaultSubmitFailsUntilAllEdited()
    ensures TryBuildReport(Default, map[]) == Err(MissingEntry("무기"))
    ensures TryBuildReport(Default, Run(Default, map[], [Click("무기", 0, Success, 1)]))
              == Err(MissingEntry("방어구"))
  {
  }

  /** Submission with the same fallback the boxes use for display: every item
      type's block lists the counts its box shows, and whenever the original
      submission succeeds the two reports are the same. */
  function SubmitReport(cfg: Config, form: FormCounts): (r: Report)
    requires Valid(cfg)
    ensures |r| == |cfg.itemTypes|
    ensures forall k :: 0 <= k < |r| ==>
              r[k].item == cfg.itemTypes[k] && |r[k].lines| == |Displayed(cfg, form, cfg.itemTypes[k])|
    ensures forall k, i :: 0 <= k < |r| && 0 <= i < |r[k].lines| ==>
              && r[k].lines[i].success == Displayed(cfg, form, cfg.itemTypes[k])[i].success
              && r[k].lines[i].fail == Displayed(cfg, form, cfg.itemTypes[k])[i].fail
    ensures TryBuildReport(cfg, form).Ok? ==> r == TryBuildReport(cfg, form).value
  {
    TryBuildReportSucceedsIff(cfg, form);
    seq(|cfg.itemTypes|, k requires 0 <= k < |cfg.itemTypes| =>
      ReportBlock(cfg.itemTypes[k], Lines(cfg, Displayed(cfg, form, cfg.itemTypes[k]))))
  }

  /** On any reachable table the corrected submission lists, for every item
      type, every stage once and in order, with the non-negative counts shown
      on screen. */
  lemma SubmitReportCorrect(cfg: Config, form: FormCounts)
    requires Valid(cfg) && Invariant(cfg, form)
    ensures forall k :: 0 <= k < |cfg.itemTypes| ==>
              |SubmitReport(cfg, form)[k].lines| == |cfg.stages|
    ensures forall k, i :: 0 <= k < |cfg.itemTypes| && 0 <= i < |cfg.stages| ==>
              && SubmitReport(cfg, form)[k].lines[i].stage == cfg.stages[i]
              && SubmitReport(cfg, form)[k].lines[i].success >= 0
              && SubmitReport(cfg, form)[k].lines[i].fail >= 0
  {
  }

  /** Submitting right after loading reports the placeholder counts the
      boxes show. */
  lemma FreshFormSubmitReportsPlaceholders(cfg: Config)
    requires Valid(cfg)
    ensures forall k :: 0 <= k < |cfg.itemTypes| ==>
              SubmitReport(cfg, map[])[k].lines == Lines(cfg, cfg.dummy[cfg.itemTypes[k]])
  {
  }
}
