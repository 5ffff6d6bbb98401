# Research timeline: scroll controller, data preparation and case-study data

This project models, in Dafny, the logic core of a small research-explorer
application.

- **The virtual timeline scroll controller** (`useVirtualTimelineScroll`).
  - It keeps a discrete selected year index in step with a continuous vertical
    translation `y` of the timeline content.
  - It holds one measurement snapshot: offsets, heights, content height,
    viewport height and `maxScroll`.
  - `y` is clamped to `[-maxScroll, 0]`.
  - A year index maps to a target position.
  - Wheel deltas go into a step accumulator.
  - An index that arrives while the measurements are stale is held as pending.
  - After layout the controller re-anchors `y`, and a case switch resets it.
  - The hook's refs are the fields of the class `TimelineScroll.TimelineScroller`.
  - The DOM readings arrive as a `Layout` value.
  - Frame waits, timers and listeners become event methods called by the host:
    `UpdateMeasurements`, `SnapToYearIndex`, `ScrollToIndex`, `OnWheel`,
    `WheelIdle`, `OnSpringChange`, `SwitchCase` and `LayoutSettled`.
  - The scroll constants (360px wheel threshold, 2px deadzone, at most 3 steps
    per event, 24px bottom padding) live in `ScrollConfig`.
- **File renaming in the cleanup script** (`CleanupData`).
  - A file under a `Field,Year-Year/<split>/` directory gets a flat unique name.
  - Decompressed `.gz` outputs lose the `.gz` suffix.
- **Category grouping in the combine script** (`CombineCategories`).
  - A file's category is its name before the first `_`.
  - Files are bucketed by category in input order.
  - Every paper dict is tagged in place with its source file and category.
  - A category's papers are the concatenation of its files' papers.
  - It is proved that the two scripts compose: a renamed file's category is its
    field.
- **The paper sample and its filters** (`LoadPapers`).
- **The case-study data** (`CaseStudies`, `MockCaseStudies`,
  `RealCaseStudies`).
  - `CaseStudies` holds the shared record types and the `find`/`filter` lookups.
  - `MockCaseStudies` and `RealCaseStudies` hold the mock data and the generated
    data.
  - For both data sets it is proved that every event's `caseId` names a study
    whose year range holds the event's year, and that the scores lie in their
    documented ranges.
- **Shared modules.**
  - `Seqs` provides order-preserving `Filter`, first-match `Find`/`FindIndex`,
    the `Selects` characterisation of an exact filter, and the `IsGrouping`
    characterisation of a bucketing.
  - `Wrappers` provides `Option`.

Pixels are `real`. Wheel step counts use `Math.floor` for both signs, as the
code does (useVirtualTimelineScroll.ts:324-335), although the comment at
line 322 calls the rounding truncation. With floor, an accumulator of -400
gives -2 steps and leaves +320, not -1 step and -40
(`TimelineScroll.WheelStepExamples`).

## Model

| member | source | states |
|---|---|---|
| TimelineScroll.ClampY | web/src/hooks/useVirtualTimelineScroll.ts:77-80 | The clamped value lies in `[-maxScroll, 0]` when `maxScroll >= 0`. A value already in range is returned unchanged. A value above 0 goes to 0, and one below `-maxScroll` goes to `-maxScroll`. |
| TimelineScroll.ClampYIdempotent | web/src/hooks/useVirtualTimelineScroll.ts:77-80 | Clamping twice gives the same result as clamping once. |
| TimelineScroll.ComputeTargetY | web/src/hooks/useVirtualTimelineScroll.ts:176-188 | Null exactly when the index is outside the years or the offsets do not cover it. Otherwise the value is the clamped negated offset, lies in the clamp range, and equals `-offset` when that offset is itself reachable. |
| TimelineScroll.IndexOf | web/src/hooks/useVirtualTimelineScroll.ts:61-64 | -1 exactly when the year is absent. Otherwise the index holds the year and no earlier index does. |
| TimelineScroll.NearestPrefixIsNearest | web/src/hooks/useVirtualTimelineScroll.ts:67-72 | The nearest-year loop's `best` has minimal distance among the years scanned so far. Every earlier index is strictly farther, so ties go to the lowest index. |
| TimelineScroll.IndexForYear | web/src/hooks/useVirtualTimelineScroll.ts:58-74 | 0 for no years, and always in range for a non-empty list. For a present year it is the first index holding it. For an absent year it is the first index at minimal distance. |
| TimelineScroll.GetIndexForYear | web/src/hooks/useVirtualTimelineScroll.ts:58-74 | The `indexOf` lookup followed by the strict-`<` scan computes `IndexForYear`. |
| TimelineScroll.MeasureSpec | web/src/hooks/useVirtualTimelineScroll.ts:83-141 | Succeeds exactly when both containers, a non-empty year list and every year's group are present. On success the heights and offsets have one entry per year and come from the group rects shifted by the current `y`. The content height is at least the reported height and at least the sum of the heights plus 24. `maxScroll = max(0, contentHeight - viewportHeight) >= 0`. |
| TimelineScroll.Measure | web/src/hooks/useVirtualTimelineScroll.ts:83-141 | The push loop that gives up at the first missing group produces exactly `MeasureSpec`. |
| TimelineScroll.Reclamp | web/src/hooks/useVirtualTimelineScroll.ts:161-166 | After a remeasure `y` is in range up to 0.1px. It either stays or becomes its clamp, and it is untouched when already in range. |
| TimelineScroll.AfterRemeasure | web/src/hooks/useVirtualTimelineScroll.ts:144-173 | The stored measurements and `y` do not change while a measurement is in flight or when measuring fails. Otherwise the whole new snapshot replaces the old one and `y` is re-clamped. The near-range invariant is preserved. |
| TimelineScroll.NormalizeDelta | web/src/hooks/useVirtualTimelineScroll.ts:306-312 | A line-mode delta is ×16. A page-mode delta is × the viewport height, or ×400 when that reads 0. Any other mode leaves the delta in pixels as it is. |
| TimelineScroll.AccumulateWheel | web/src/hooks/useVirtualTimelineScroll.ts:314-336 | A deadzone delta leaves the accumulator untouched. Otherwise `steps·360 + newAccum = oldAccum + delta` holds, at most 3 steps are taken in either direction, and steps are non-zero exactly when the sum reaches ±360, with the sign of the sum. A non-zero step count that is not capped is the floor of the sum over 360 and leaves a remainder in `[0, 360)`. |
| TimelineScroll.FeedWheelConserves | web/src/hooks/useVirtualTimelineScroll.ts:319-336 | Over any stream of deltas, the steps taken ×360 plus the final accumulator equal the starting accumulator plus all travel past the deadzone. |
| TimelineScroll.WheelStepExamples | web/src/hooks/useVirtualTimelineScroll.ts:319-336 | -400 gives -2 steps and leaves +320. +400 gives 1 step and leaves 40. +2000 is capped at 3 steps. A 1.5px delta is ignored. |
| TimelineScroll.SlowTrackpadExample | web/src/hooks/useVirtualTimelineScroll.ts:319-336 | Four 100px deltas accumulate to one step with 40px carried over. |
| TimelineScroll.ClampIndex | web/src/hooks/useVirtualTimelineScroll.ts:340 | The new index lies in `[0, len)`. An in-range index is kept. Overshoots go to the last index and undershoots to 0. |
| TimelineScroll.TimelineScroller.constructor | web/src/hooks/useVirtualTimelineScroll.ts:37-54 | Every ref starts at its initial value: an empty snapshot, `y = 0`, no pending index, index 0 and no gesture. |
| TimelineScroll.TimelineScroller.UpdateMeasurements | web/src/hooks/useVirtualTimelineScroll.ts:144-173 | The new stored snapshot and `y` are `AfterRemeasure` of the old ones. The clamp invariant is kept, and no gesture, pending or index ref changes. |
| TimelineScroll.TimelineScroller.ApplySnapshot | web/src/hooks/useVirtualTimelineScroll.ts:153-167 | All five measurement fields become the new snapshot together, `y` is re-clamped, and nothing else changes. |
| TimelineScroll.TimelineScroller.CommitSnap | web/src/hooks/useVirtualTimelineScroll.ts:208-220 | With stale offsets the index becomes pending and `y` stays. Otherwise `y` is the index's target and the index becomes current. |
| TimelineScroll.TimelineScroller.SnapToYearIndex | web/src/hooks/useVirtualTimelineScroll.ts:191-227 | An out-of-range index changes nothing. Otherwise the controller remeasures, then either records the index as pending with `y` unchanged, or sets `y` to the index's target and makes it current. `animate` does not affect the result. |
| TimelineScroll.TimelineScroller.ScrollToIndex | web/src/hooks/useVirtualTimelineScroll.ts:230-253 | No years: nothing happens. Stale offsets: the raw index becomes pending and nothing else changes. Otherwise it launches the snap of the clamped index, animated unless immediate, and changes no state yet. |
| TimelineScroll.TimelineScroller.RequestIndex | web/src/hooks/useVirtualTimelineScroll.ts:230-253 | A request followed by its snap either leaves the raw index pending with `y`, the measurements and the current index unchanged (stale offsets), or remeasures, keeps the offsets fresh, moves `y` to the clamped index's target, makes that index current and leaves the pending index as it was. The wheel accumulator, the gesture flag, the measuring flag and the case id never change. |
| TimelineScroll.TimelineScroller.OnWheel | web/src/hooks/useVirtualTimelineScroll.ts:274-357 | An event outside the viewport or with stale offsets is not consumed and changes nothing. With fewer than two years it is consumed only. Otherwise the gesture flag is set and the accumulator advances by `AccumulateWheel`. On a step, the index becomes `clamp(current + steps)` and `y` its clamped target, and that year is requested. Measurements and the pending index never change. |
| TimelineScroll.TimelineScroller.WheelIdle | web/src/hooks/useVirtualTimelineScroll.ts:300-303 | The wheel-scrolling flag is cleared and nothing else changes. |
| TimelineScroll.TimelineScroller.OnSpringChange | web/src/hooks/useVirtualTimelineScroll.ts:261-271 | A spring value more than 0.1px out of range sets `y` to its clamp. Otherwise `y` is untouched. |
| TimelineScroll.TimelineScroller.SwitchCase | web/src/hooks/useVirtualTimelineScroll.ts:360-378 | The same case id changes nothing. A new id resets the snapshot to empty, the accumulator to 0, pending to none, the index to 0, the gesture flag to false and `y` to 0, and records the id. |
| TimelineScroll.TimelineScroller.LayoutSettled | web/src/hooks/useVirtualTimelineScroll.ts:381-413 | During a wheel gesture nothing happens. Otherwise the controller remeasures. A pending index is then cleared and its snap launched without animation, before any re-anchor is considered. With no pending index, `y` moves to the selected year's target only when it is more than 2px off, and ends within 2px of it. |
| CleanupData.Join | cleanup_data.py:53 | Joining a non-empty name appends exactly one component, so the parent is the directory. |
| CleanupData.ReplaceCommas | cleanup_data.py:44 | Same length. Every `,` becomes `_` and every other character is kept, so no comma remains. |
| Seqs.FindIndex | cleanup_data.py:41-46 | The first index satisfying the test, or none exactly when no element does. |
| CleanupData.NewName | cleanup_data.py:30-53 | The name always ends with the original basename. When the first field/year component is followed by a split, the name is that component with commas replaced, `_`, the split, `_`, and the basename. Otherwise it is the basename. |
| CleanupData.GenerateUniqueFilename | cleanup_data.py:30-53 | The result sits directly in the output directory and its name is `NewName`, which ends with the original basename. |
| CleanupData.RuleAppliesAtFirst | cleanup_data.py:41-50 | A field/year component followed by a split name yields the rewritten name. |
| CleanupData.ReplaceCommasExample | cleanup_data.py:32-34 | `Biology,2022-2022` becomes `Biology_2022-2022`. |
| CleanupData.DocExample | cleanup_data.py:32-34 | `Biology,2022-2022/train/Biology-2022.gz-0000.json` is renamed `Biology_2022-2022_train_Biology-2022.gz-0000.json`. |
| CleanupData.OnlyFirstFieldYearExamined | cleanup_data.py:41-46 | A first field/year component followed by a non-split keeps the basename, even though a later pair would match. |
| CleanupData.RFind | cleanup_data.py:80 | The last index of the character, or -1 exactly when it is absent. |
| CleanupData.Suffix | cleanup_data.py:80 | `PurePath.suffix`: when the last dot of the name is neither its first nor its last character, the suffix is the name from that dot on; otherwise it is empty. |
| CleanupData.GzSuffix | cleanup_data.py:80 | A name `<stem>.gz` with a non-empty stem has suffix `.gz`. |
| CleanupData.WithoutSuffix | cleanup_data.py:81 | Fails only for an empty name. Otherwise the stem followed by the removed suffix is the old name, and the parent is kept. |
| CleanupData.OutputPath | cleanup_data.py:79-81 | A file that is not `.gz` is written under its unique name. |
| CleanupData.SuffixUnderPrefix | cleanup_data.py:79-81 | Prefixing a name that has a suffix leaves the suffix unchanged. |
| CleanupData.GzOutputDropsSuffix | cleanup_data.py:79-81 | A `.gz` input is written directly into the output directory under its unique name minus the trailing `.gz`. |
| CleanupData.GzFileOutput | cleanup_data.py:77-81 | A file named `<stem>.gz` with a non-empty stem is written directly into the output directory under its unique name minus `.gz`, and that name ends with the stem. |
| CombineCategories.Split | combine_categories.py:26 | The pieces are never an empty list, none contains the separator, and joining them gives the input back. |
| CombineCategories.ExtractCategory | combine_categories.py:20-31 | The category contains no `_`. It is the whole name when the name has no `_`, and otherwise the text before the first `_`. The "Unknown" fallback is unreachable. |
| CombineCategories.CategoryDocExample | combine_categories.py:22-24 | `Biology_2022-2022_train_Biology-2022.gz-0000.json` has category `Biology`. |
| CombineCategories.CategoryOfJoined | combine_categories.py:26-30 | `head_tail` with an underscore-free head has category `head`. |
| CombineCategories.RenamedFileCategory | combine_categories.py:26-30 | A file renamed by the cleanup rule from `Field,Years/<split>/` has category `Field` when the field has no `_`. |
| CombineCategories.CategorizeFiles | combine_categories.py:33-45 | The buckets group the `.json` files and then the `.jsonl` files by category. `Seqs.IsGrouping` holds: each bucket is exactly the files of its category, in input order, and no bucket is empty. |
| Seqs.GroupingPartitions | combine_categories.py:33-45 | In such a grouping every file is in its own category's bucket and in no other. Each bucket keeps the input order and every occurrence. |
| Seqs.GroupingSnoc | combine_categories.py:41-43 | Appending a file to its category's bucket, creating the bucket when missing, keeps the grouping exact. |
| CombineCategories.Tagged | combine_categories.py:83-85 | Tagging adds exactly `_source_file` (the file's name) and `_source_category` (its category). Every other key keeps its value. |
| CombineCategories.TaggedIdempotent | combine_categories.py:82-85 | Tagging twice with the same file is tagging once, so a dict listed twice ends up the same. |
| CombineCategories.AddSourceMetadata | combine_categories.py:80-86 | The same list is returned. Every dict in it is tagged in place, and non-dict entries are untouched. |
| CombineCategories.ConcatContains | combine_categories.py:95-106 | A paper is in the combined list exactly when it is in some file's list. |
| CombineCategories.CombineCategoryFiles | combine_categories.py:88-106 | The result is the files' paper lists concatenated in file order, and the reported total is its length. Every dict is tagged with its own file. |
| Seqs.Filter | web/src/data/loadPapers.ts:94 | A filter result is no longer than its input and holds exactly the passing elements. |
| Seqs.FilterSelects | web/src/data/loadPapers.ts:94 | `filter` is an exact order-preserving selection. It contains exactly the passing elements, each as often as in the input, in input order. |
| Seqs.FilterNested | web/src/data/loadPapers.ts:100-120 | Filtering by a stricter test equals filtering first by the weaker one and then by the stricter one. |
| Seqs.Find | web/src/data/mockCaseStudies.ts:815 | The first element satisfying the test, or none exactly when no element does. |
| LoadPapers.AllPapers | web/src/data/loadPapers.ts:86-88 | The ML sample followed by the non-ML sample. |
| LoadPapers.PapersByField | web/src/data/loadPapers.ts:93-95 | Exactly the papers of the field, each once, in order. |
| LoadPapers.MLPapers | web/src/data/loadPapers.ts:100-104 | Exactly the papers whose ML impact is neither none nor minimal, in order. |
| LoadPapers.PapersWithCode | web/src/data/loadPapers.ts:109-111 | Exactly the papers with code available, in order. |
| LoadPapers.HighImpactPapers | web/src/data/loadPapers.ts:116-120 | Exactly the substantial or core papers, in order. |
| LoadPapers.HighImpactWithinML | web/src/data/loadPapers.ts:100-120 | For any paper list, the high-impact selection is the high-impact part of the ML selection, and so a subsequence of it. |
| LoadPapers.HighImpactPapersWithinMLPapers | web/src/data/loadPapers.ts:100-120 | `getHighImpactPapers()` is a subsequence of `getMLPapers()`. |
| LoadPapers.SampleAttributes | web/src/data/loadPapers.ts:25-81 | The three ML samples are substantial ComputerScience papers with code. The non-ML sample has no ML impact and no code. |
| LoadPapers.SampleFilter | web/src/data/loadPapers.ts:86-88 | A filter passing every ML sample and failing the non-ML one yields exactly the ML samples. |
| LoadPapers.SampleSelections | web/src/data/loadPapers.ts:25-81 | On the sample, the high-impact, ML and with-code papers are each the three ML samples, and the non-ML paper is not among the ML papers. |
| LoadPapers.SampleFields | web/src/data/loadPapers.ts:25-81 | Selecting `ComputerScience` returns the whole sample. |
| CaseStudies.StudyWithId | web/src/data/mockCaseStudies.ts:814-816 | The first study with the id, or none exactly when no study has it. |
| CaseStudies.EventsWithCaseId | web/src/data/mockCaseStudies.ts:818-820 | Every event of the case and no other, each once, in array order. |
| CaseStudies.EventWithId | web/src/data/mockCaseStudies.ts:822-824 | The first event with the id, or none exactly when no event has it. |
| CaseStudies.LookupFindsOwnStudy | web/src/data/mockCaseStudies.ts:814-816 | With distinct study ids and every event fitting some study, looking up an event's `caseId` finds a study whose years contain the event's year. |
| CaseStudies.SectionOfCase | web/src/data/mockCaseStudies.ts:818-820 | A run of events of one case is kept whole by a query for that case and dropped by any other query. |
| MockCaseStudies.GetCaseStudyById | web/src/data/mockCaseStudies.ts:814-816 | The first mock study with the id, or none exactly when there is none. |
| MockCaseStudies.GetEventsByCaseId | web/src/data/mockCaseStudies.ts:818-820 | Exactly the mock events of the case, in array order. |
| MockCaseStudies.GetEventById | web/src/data/mockCaseStudies.ts:822-824 | The first mock event with the id, or none exactly when there is none. |
| MockCaseStudies.MockStudiesWellFormed | web/src/data/mockCaseStudies.ts:52-131 | The six studies have distinct ids, headline metrics in 0..100 and 0..1, and ordered years. |
| MockCaseStudies.EarlySections | web/src/data/mockCaseStudies.ts:134-429 | The AlphaFold, COVID, climate and second COVID runs fit their studies' years and have in-range scores. |
| MockCaseStudies.LateSections | web/src/data/mockCaseStudies.ts:430-812 | The remaining climate, materials, neuroscience and social-science runs fit their studies' years and have in-range scores. |
| MockCaseStudies.MockEventsFit | web/src/data/mockCaseStudies.ts:133-812 | Every mock event belongs to a mock study and falls within its years. |
| MockCaseStudies.MockScoresInRange | web/src/data/mockCaseStudies.ts:31-33 | Every mock event has impact and reproducibility scores in 0..100 and attribution in 0..1. |
| MockCaseStudies.EveryMockEventHasItsStudy | web/src/data/mockCaseStudies.ts:52-812 | Looking up any mock event's `caseId` finds a study whose year range holds the event's year. |
| MockCaseStudies.FilterByRuns | web/src/data/mockCaseStudies.ts:133-812 | Filtering the event array filters each run of events separately, in order. |
| MockCaseStudies.RunCases | web/src/data/mockCaseStudies.ts:133-812 | The case id of each run of events. |
| MockCaseStudies.NoCovidInEarlyRuns | web/src/data/mockCaseStudies.ts:134-475 | The AlphaFold and climate runs hold no COVID event. |
| MockCaseStudies.NoCovidInLateRuns | web/src/data/mockCaseStudies.ts:476-812 | The materials, neuroscience and social-science runs hold no COVID event. |
| MockCaseStudies.CovidRunsKept | web/src/data/mockCaseStudies.ts:247-429 | Both COVID runs are kept whole by the COVID query. |
| MockCaseStudies.CovidQuery | web/src/data/mockCaseStudies.ts:818-820 | The COVID query returns the two COVID runs, in array order. |
| MockCaseStudies.CovidEventsGathered | web/src/data/mockCaseStudies.ts:247-429 | `getEventsByCaseId("covid-drug")` gathers all five COVID events from both places in the array, in order. |
| RealCaseStudies.GenerateRealCaseStudies | web/src/data/realCaseStudies.ts:10-82 | Five studies with distinct ids, metrics in 0..100 and 0..1, and ordered years. They do not depend on the fetched paper list. |
| RealCaseStudies.GenerateRealCaseEvents | web/src/data/realCaseStudies.ts:87-276 | Eight events with impact and reproducibility scores in 0..100 and attribution in 0..1. |
| RealCaseStudies.GetCaseStudyById | web/src/data/realCaseStudies.ts:282-284 | The first generated study with the id, or none exactly when there is none. |
| RealCaseStudies.GetEventsByCaseId | web/src/data/realCaseStudies.ts:286-288 | Exactly the generated events of the case, in array order. |
| RealCaseStudies.GetEventById | web/src/data/realCaseStudies.ts:290-292 | The first generated event with the id, or none exactly when there is none. |
| RealCaseStudies.RealEventsFit | web/src/data/realCaseStudies.ts:87-276 | Every generated event belongs to a generated study and falls within its years. |
| RealCaseStudies.EveryRealEventHasItsStudy | web/src/data/realCaseStudies.ts:279-284 | Looking up any generated event's `caseId` finds a study whose year range holds the event's year. |

## Left out

- The spring animation (stiffness and damping) is not modelled. `y` is the spring's target value, and the spring's `change` listener is the event method `OnSpringChange`.
- `requestAnimationFrame` waits, the 180ms wheel timeout, `ResizeObserver`/`MutationObserver` wiring, font loading and listener registration are host scheduling. They are left out, and the host calls the event methods instead:
  - `WheelIdle` when the timeout fires;
  - `SnapToYearIndex` once a launched snap's frames have passed;
  - `LayoutSettled` once the layout effect's two frames have passed.
- `ScrollToIndex` and `LayoutSettled` return the snap they launch as a `SnapRequest` value. They do not run it.
- DOM reads are parameters of the event methods. The measurement reads (`clientHeight`, `scrollHeight`, bounding rects, `offsetHeight`) are fields of the `Layout` parameter. The wheel target's `contains` check is a field of the `WheelEvent` parameter. The page-mode viewport height is `OnWheel`'s separate `viewportClientHeight` parameter.
- Pixel arithmetic is on `real`, not IEEE doubles. NaN and infinities are not modelled.
- The `selectedYear` sync effect (useVirtualTimelineScroll.ts:534-546) is not an operation of its own. After its stale-offsets guard it calls `scrollToIndex` when the resolved index differs from the current one, and the host composes that from `GetIndexForYear` and `RequestIndex`.
- `onRequestYearChange` is not called. `OnWheel` returns the requested year instead.
- `preventDefault`/`stopPropagation` become `OnWheel`'s `consumed` result.
- Debug logging is not modelled.
- TimelineScroll.TimelineScroller.ScrollToIndex: it omits the `offsets[idx] === undefined` branch. The length guard and the index clamp make that branch impossible.
- TimelineScroll.TimelineScroller.LayoutSettled: it models the two `isWheelScrolling` checks, before and after the frame waits, as one check at the time the frames have passed.
- TimelineScroll.TimelineScroller.Valid: the invariant keeps `y` in range only up to 0.1px. Remeasuring re-clamps only beyond that tolerance, so the exact range is not invariant in the code either.
- File I/O in the data scripts is not modelled, because the model takes file contents and glob results as inputs. This covers globbing, copying, gzip decompression, JSON reading and writing, directory setup and cleanup, the interactive prompt and summary printing.
- `read_json_file` is not part of this model. Its per-file results are the `contents` input of `CombineCategoryFiles`.
- `write_combined_file`, `generate_summary` and `main` are not part of this model.
- CombineCategories.CombineCategoryFiles: it requires that no dict object appears in two files' lists. Each file read builds fresh objects, so this always holds in the script.
- JSON values other than objects are opaque (`JOther`).
- The long prose fields are dropped from the paper, case-study and event records because no operation reads them. These are summaries, descriptions, methodology, results and similar text.
- The backend service, the paper extraction scripts, the React components and the static findings data are not part of this model.
- RealCaseStudies.GenerateRealCaseStudies: the unused `getHighImpactPapers()` call in the generator is not modelled, since its result is never read.
- The mock event array is written as runs of consecutive events of one case, concatenated in source order. The value is the same as the source's single literal. The two COVID events listed among the climate events form a run of their own.
