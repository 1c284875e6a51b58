# Upgrade tracker counters: a Dafny model

This project models the client-side counter and statistics logic of the item
upgrade tracker page (`src/app/page.tsx`). The page records success/fail
counts per item type and upgrade stage. It also shows each stage's observed
rate next to a fixed displayed rate, and it turns the edited counts into a
report when the form is submitted.

Modules, one per concern of the page:

- `Counter` (`counter.dfy`): `StageCount`, and `Adjust`, the clamped ±1 change
  one button click makes (`adjustCount`).
- `Config` (`config.dfy`): the fixed tables `itemTypes`, `upgradeStages`,
  `displayedRates` and `dummyCounts`. They are passed in as a `Config` value
  whose `Valid` predicate says the tables agree in length and range. `Default`
  holds the page's literal tables.
- `Form` (`form.dfy`): the edited table `formCounts`, `setItemCounts`, the
  display fallback to the placeholder table, and a session of clicks applied
  in order (`Run`). It also holds the invariant every reachable table keeps.
- `Rates` (`rates.dfy`): the observed rate and the reference series of
  `SuccessFailDoughnut`, with exact `real` arithmetic.
- `Report` (`report.dfy`): the report `handleSubmit` builds, including the
  way it fails when an item type has no edited entry.

Behaviour of the code that the model keeps on purpose:

- `Adjust` has no precondition. With an out-of-range `stageIdx`, `counts.map`
  (page.tsx:105) matches no entry and returns an equal copy.
- `handleSubmit` reads `formCounts[itemType]` with no fallback (page.tsx:261),
  so submitting fails for any item never edited (see Findings).
- Report lines render `upgradeStages[i]` (page.tsx:264). Past the end of the
  stage list that renders as `undefined`, and `StageLabel` gives that word.

## Model

| member | source | states |
|---|---|---|
| Counter.ClampZero | src/app/page.tsx:109 | `Math.max(0, v)` is non-negative, at least `v`, and is either `v` or 0 |
| Counter.Bump | src/app/page.tsx:107-110 | the targeted field becomes the clamped `old + delta`; the other field is unchanged |
| Counter.Adjust | src/app/page.tsx:100-114 | same length as the input; every entry other than `stageIdx` unchanged; at `stageIdx` the chosen field is `max(0, old + delta)` and the other field is kept; an out-of-range index gives an equal copy; non-negative counts stay non-negative |
| Counter.IncThenDecRestoresIff | src/app/page.tsx:109 | +1 then -1 on one field restores the table if and only if the targeted counter was not negative (or the index hits no entry) |
| Counter.DecThenIncRestoresIff | src/app/page.tsx:109 | for every table, -1 then +1 restores it if and only if the targeted counter was above zero (or the index hits no entry); from zero it ends at 1 |
| Config.DefaultValid | src/app/page.tsx:10-41 | the page's tables agree: six stages, six rates in [0,1], a six-entry non-negative placeholder list for each of the three item types |
| Form.SetItemCounts | src/app/page.tsx:248-253 | the entry for `t` becomes `c`; the key set gains `t`; every other entry is unchanged |
| Form.Displayed | src/app/page.tsx:310 | on a valid configuration and a reachable edited table, the counts a box shows (edited entry, else placeholder) have one non-negative count per stage, so the per-stage lookups at lines 147 and 155 are defined |
| Form.DisplayedAfterSet | src/app/page.tsx:248-253 | after setting item `t`, item `t` shows the new counts and every other item shows what it showed before |
| Form.Step | src/app/page.tsx:306-312 | one click stores, under its own item, the adjusted displayed counts; adds that key; leaves other items' entries alone |
| Form.StepKeepsInvariant | src/app/page.tsx:105-112 | one click keeps the edited table to known item types, one count per stage, none negative |
| Form.RunKeepsInvariant | src/app/page.tsx:100-114 | clamp invariant: any click session keeps every success and fail count at zero or above, with one count per stage |
| Form.RunKeys | src/app/page.tsx:248-253 | after a session, an item has an edited entry exactly when it had one before or was clicked |
| Form.RunLeavesUntouched | src/app/page.tsx:248-253 | an item a session never clicks keeps its entry, or its absence |
| Rates.ObservedRate | src/app/page.tsx:180-181 | the rate is 0 with no attempts; otherwise rate × total = success; with non-negative counts it lies in [0,1] |
| Rates.ObservedRateExtremes | src/app/page.tsx:180-181 | with non-negative counts the rate is 0 exactly when nothing succeeded, and 1 exactly when something succeeded and nothing failed |
| Rates.ReferenceSeries | src/app/page.tsx:194 | the two reference values add up to 100; both are non-negative for a rate in [0,1]; the first divided by 100 gives the rate back |
| Rates.StageDoughnut | src/app/page.tsx:180-229 | the observed ring is `[success, fail]`; the observed rate is 0 with no attempts and otherwise rate × total = success, within [0,1] for non-negative counts; the reference ring is the stage's displayed rate and its complement in percent, non-negative and summing to 100; the observed rate is shown only when there were attempts |
| Rates.DefaultFirstStage | src/app/page.tsx:15-19 | with the page's tables, stage 0 of the first item shows rate 0.9 against a 90/10 reference split |
| Report.TryBlocks | src/app/page.tsx:257-269 | building succeeds if and only if every item type has an entry; it then yields one block per item type in order; otherwise it fails at the first item type without an entry |
| Report.BuildReport | src/app/page.tsx:255-269 | given an entry for every item type: one block per item type, in item-type order, each carrying that item's counts unchanged; on a reachable table every block lists every stage once, in stage order, with non-negative counts |
| Report.TryBuildReportSucceedsIff | src/app/page.tsx:258-262 | submission succeeds if and only if every item type has an entry, and then yields `BuildReport` |
| Report.SessionSubmitSucceedsIff | src/app/page.tsx:238-269 | starting from the empty edited table, a click session can be submitted if and only if it clicked every item type |
| Report.FreshFormSubmitFails | src/app/page.tsx:238-262 | submitting with nothing edited fails at the first item type |
| Report.DefaultSubmitFailsUntilAllEdited | src/app/page.tsx:238-262 | with the page's tables, submitting fails at `무기` before any edit, and at `방어구` after one click on `무기` |
| Report.SubmitReport | src/app/page.tsx:310 | corrected submission: one block per item type, in order, each carrying the counts its box shows (edited entry, else placeholder); whenever the original submission succeeds, the two reports are equal |
| Report.SubmitReportCorrect | src/app/page.tsx:258-266 | on a reachable table the corrected submission lists, for every item type, every stage once and in stage order, with non-negative counts |
| Report.FreshFormSubmitReportsPlaceholders | src/app/page.tsx:310 | the corrected submission with nothing edited reports the placeholder counts |

## Left out

- `src/app/api/summary/route.ts`: a single SQL query through a foreign database library, returned as JSON. There is no logic in it to verify.
- The `useEffect` fetch of `/api/summary` and `setServerCounts` (page lines 242-246): asynchronous network I/O. The server-sourced table enters the model only as the count handed to `Rates.StageDoughnut`.
- The click-position split in `SolidCountButton` (page lines 57-65): DOM geometry on floating-point coordinates. It is abstracted as the choice of `Delta`, -1 or +1.
- Chart.js registration and options, the `Doughnut` widget, JSX and styling, and `alert`: presentation only.
- Report text: the Korean template, the `\n` joins and the `toFixed(1)` percentages are not modelled. The report is a sequence of `ReportBlock`/`ReportLine` records carrying the same item labels, stage labels and counts.
- Rates.ReferenceSeries: computed in exact reals, not IEEE doubles, whose products and differences round in JavaScript. So the sum of exactly 100 holds for the model, not bit-for-bit for the page.
- Rates.ObservedRate: computed in exact reals. In JavaScript doubles, rate × total can differ from success in the last bit (for 1 success in 49 attempts, `1/49*49` is `0.9999999999999999`), so "rate × total = success" holds for the model, not bit-for-bit for the page.
- Counter.Adjust: counts are unbounded integers. JavaScript numbers lose integer precision above 2^53, and that is not modelled.
- Fetch-failure handling: the page has none (the rejection goes unobserved), so nothing is modelled.

## Findings

| source | as written | input that shows it | evidently intended | confidence | as-written member | corrected member |
|---|---|---|---|---|---|---|
| src/app/page.tsx:261 | the report reads `formCounts[itemType].map(...)` with no fallback. An item whose box was never clicked has no entry, so the call throws and nothing is reported. Meanwhile the boxes show `formCounts[itemType] \|\| dummyCounts[itemType]` (line 310). | press submit right after the page loads (`formCounts = {}`), or after clicking only the `무기` box | report, for every item type, the counts its box shows, with the same fallback as line 310 | medium; not executed | Report.FreshFormSubmitFails | Report.SubmitReport |
