# Verified model of the backlog, baseline, watch, stream and breaker logic

A Dafny model of the deterministic core of tumwater, with proofs of what that core promises. Check it
with `dafny verify dfyconfig.toml`.

## What is modelled

**The backlog document engine.** A document is its lines. `Fences` is the fence state machine of
section 4.5 "Fenced code blocks" of CommonMark 0.31.2 as the code has it. `Documents` classifies every
line once and reads each section as a list of entries (heading line, body without trailing blank
lines); this reading is the reference everything else is proved against. `SectionReaders` and
`Sections` hold the source's own walkers. The writers (`BacklogWrite`, `BacklogRetire`,
`BacklogRelease`, `QuestionAnswer`, `Archive`) do the line arithmetic of the source and are proved to
be operations on the lists of entries. `Blocks` and `BlockRanges` connect line numbers with whole
entries for the archive; `ArchiveReads` and `ArchiveProse` say what the two files then read.

**The dependency graph.** `Parts` has the scan, the depth-first cycle finder, the breadth-first waiting
list and the hold rule. `PartRanges` has the range printer and the clause parser. `Pending` has the
keyed diff and the projection that keeps a list and an index of the same objects.

**The verdict cache.** `Baseline` is the cache over `memoSetLru`; a method is one step between two
awaits, and a run of the team is any interleaving of steps.

**The main watch.** `Watch` has the polls, the two passes behind their in-flight guards, the red spell
and the bisection.

**The stream and the breaker.** `Stream` is the chunked line splitter; `Breaker` is the circuit breaker
and its map of pairs.

## Assumptions stated in the contracts

- Fences: `After(Closed, lines) == Closed` says that every fence of a document is closed. It is an
  antecedent where the code needs it. A cancel needs none, an edit only its own body's. An append
  depends on the section's own fences alone, a move to the top or a retire on the entry's own;
  `AppendEntry`, `MoveEntryToTop` and `RetirePlan` say so both ways.
- `Once(t, lines)` says that a section title occurs at most once. Titles agree between the readers
  without it; `ReadersAgree` says when the bodies do too.
- `SoundBody` is what `bodyStructureProblem` accepts. Appends and edits are stated for every body.
- Dates, stamps, `stripEntryStamp`, `entryKey`, trees, check outcomes, re-run answers, clocks and the
  mirror's tip are parameters.

## Where documentation and code disagree

The model follows the code.

- `editPlan`'s comment says a title and body folded to one line cannot grow a phantom section. With the
  body `## X` they do (`EditPlan`, `FilePlan`). An edit or append keeps every other entry and section
  exactly for the bodies without an unfenced heading that leave no fence open over what follows
  (`EditReads`, `AppendEntry`; for one line `FoldedBody`).
- `projectedPlannedEntries`' comment says a key several changes touch takes the last change's version.
  `ChangeDecides` says whose version is read, `LastChangeWinsIff` when it is the last change's; of two
  changes that add one key the first one's stays (`FirstAdditionStays`).
- No reported cycle means no starvation for one claim even with repeated part keys
  (`NoCycleNoStarvation`), but not for the rest of the list (`RepeatedKeysStarve`): a list empties
  exactly when its entries, not its parts, have no cycle (`MergingEmptiesIff`), which with distinct keys
  is the same (`DistinctKeysAgree`).
- Completion order does not matter for a verdict, except that a re-run promotes only a red it finds:
  `OrderIrrelevantIff` says exactly when two orders agree.

## Model

| member | source | states |
|---|---|---|
| Fences.FenceTracker.Feed | src/backlog/backlog-md.ts:65-81 | feeding a line moves the tracker as the fence machine does and answers whether the line is fenced |
| Fences.FenceTracker.HeadingTitle | src/backlog/backlog-md.ts:136-142 | a heading title is returned exactly for an unfenced line with the prefix, and the tracker advances |
| Fences.OpenFenceClosesOnBareRuns | src/backlog/backlog-md.ts:107-114 | an open fence closes on a line if and only if it is a bare run of its character, long enough and indented at most three |
| Fences.FenceOpensOnRuns | src/backlog/backlog-md.ts:89-106 | with no fence open, a line opens one of a given marker and length if and only if it starts with at most three spaces and exactly that many of the marker, at least three, and no backtick follows a backtick run |
| Fences.RefeedIsNoOp | src/backlog/backlog-md.ts:258-260 | asking the tracker twice about an unfenced line changes nothing |
| Text.SplitJoin | src/backlog/backlog-md.ts:151-164 | splitting joined lines gives them back when no line holds a newline |
| Text.JoinSplit | src/backlog/backlog-md.ts:151-164 | joining the lines a text was split into gives the text back |
| Text.TrimLeadingBlankLines | src/text/text.ts:152-154 | the in-place loop drops exactly the leading blank lines |
| Text.TrimTrailingBlankLines | src/text/text.ts:160-162 | the in-place loop drops exactly the trailing blank lines |
| Text.CollapsedWords | src/text/text.ts:20-22 | collapsing white space leaves exactly the text's words, one space apart |
| Documents.FreshAtHead | src/backlog/backlog-md.ts:151-164 | at any real heading all fences are closed, so a fresh tracker started there reads what a document-wide one reads |
| SectionReaders.SectionLines | src/backlog/backlog-md.ts:151-164 | the lines of every section so titled, classified as in the document |
| SectionReaders.ParseEntryDetails | src/backlog/backlog-md.ts:244-271 | title and trimmed body of each entry of the collected section, in order |
| SectionReaders.ActionableEntryRanges | src/backlog/backlog-index-data.ts:34-61 | the line range of each entry of the section, in order |
| SectionReaders.ReadersAgree | src/backlog/backlog-md.ts:244-271 | both readers list the same titles on every document; they show the same titles and bodies if and only if no repeat of the section has a visible line above its own first entry while an earlier entry is open, as when the section occurs once |
| SectionReaders.RangeCoversEntry | src/backlog/backlog-index-data.ts:34-61 | the trimmed lines from a range's start to its end are the entry's parsed body |
| SectionReaders.RepeatedSectionsDisagree | src/backlog/backlog-md.ts:151-164 | the instance: a four-line document whose second section's prose is read into the first one's last entry |
| Sections.NextSectionHeading | src/backlog/backlog-md.ts:173-182 | the next section heading at or after a line, as the caller's tracker stands |
| Sections.SectionParts | src/backlog/backlog-md.ts:151-182 | the boundary walks cut a document into before, heading, content and what follows, with closed fences where it continues |
| Sections.ReplaceContent | src/backlog/backlog-write.ts:64-123 | replacing a section's content by sound lines changes that section's reading and no other |
| Contents.DropPlaceholders | src/backlog/backlog-write.ts:100-105 | the fence-aware filter drops exactly the unfenced placeholders and keeps the final fence state |
| Contents.EntriesWithout | src/backlog/backlog-write.ts:98-105 | reading after the filter is reading first and dropping placeholders from the bodies |
| BacklogWrite.BodyStructureProblem | src/backlog/backlog-write.ts:372-382 | it reports no problem if and only if the body holds no unfenced heading and closes its fences |
| BacklogWrite.NewEntryView | src/backlog/backlog-write.ts:64-123 | a written entry is shown with the heading's trimmed text as title and the body's trimmed text as body |
| BacklogWrite.AppendEntry | src/backlog/backlog-write.ts:64-123 | the new entry is read last in its section, all else as before and no section more, if and only if the section's fences (the file's, where it lacks the section) are closed and the body holds no unfenced heading and leaves no fence open over what follows; with the section's fence open the new heading's own line is fenced; the headings of a body with closed fences become sections |
| BacklogWrite.CancelReads | src/backlog/backlog-write.ts:272-275 | cutting an entry's range deletes exactly that entry, with no fence condition |
| BacklogWrite.CancelEntry | src/backlog/backlog-write.ts:288-299 | position and title checks decide the outcome; done deletes the nth entry only |
| BacklogWrite.EditReads | src/backlog/backlog-write.ts:345-368 | for any body, the splice replaces exactly the kth entry if and only if the body holds no unfenced heading and leaves no fence open over a visible line below |
| BacklogWrite.EditGrows | src/backlog/backlog-write.ts:345-368 | what a body with closed fences adds: a section for each unfenced section heading, and without those an entry for each unfenced entry heading |
| BacklogWrite.HeadsNeverRead | src/backlog/backlog-write.ts:369-382 | a body with an unfenced heading is never read back as written, whatever the file |
| BacklogWrite.SpliceInEditedEntry | src/backlog/backlog-write.ts:345-368 | the replaced range, written only when the text changes |
| BacklogWrite.EditEntry | src/backlog/backlog-write.ts:396-411 | position and title checks decide the outcome; for any body, the nth entry is replaced and all else kept if and only if the body fits, and only a changed text is written |
| BacklogWrite.FoldedBody | src/backlog/backlog-write.ts:550-554 | a one-line body fits if and only if it is no heading and opens no fence over what follows; what it adds otherwise |
| BacklogWrite.EditPlan | src/backlog/backlog-write.ts:689-705 | the folded edit keeps its promise exactly for such lines; the line `## X` adds a section titled X, a `### ` line an entry |
| BacklogWrite.FilePlan | src/backlog/backlog-write.ts:550-554 | the folded append, likewise |
| BacklogRetire.RetirePlan | src/backlog/backlog-write.ts:589-640 | every outcome; the nth planned entry leaves Planned and heads Done with its stamp and note, what stood above Done's first entry below it, other sections unchanged, if and only if that entry leaves no fence open |
| BacklogRetire.RetireReads | src/backlog/backlog-write.ts:600-640 | removal and copy as one write: Planned without entry k, Done with the retired copy in front and exactly the prose that stood there under it |
| BacklogRetire.OpenRetireFails | src/backlog/backlog-write.ts:600-640 | a retired entry with an open fence takes into its body what it is put above |
| BacklogRetire.NothingUnder | src/backlog/backlog-write.ts:600-640 | blank lines and placeholders above Done's first entry leave nothing under the copy |
| BacklogRetire.RetiredHeadingIs | src/backlog/backlog-write.ts:596-605 | the retired heading keeps the title and its stamp, the retirement inside the stamp's parentheses, or in its own |
| BacklogRetire.RetireNoteIs | src/backlog/backlog-write.ts:593-594 | the note's text, with the trimmed reason when there is one |
| BacklogRelease.TopReads | src/backlog/backlog-release.ts:109-121 | the splice is the permutation that brings entry k to the front if and only if that entry leaves no fence open |
| BacklogRelease.MoveEntryToTop | src/backlog/backlog-release.ts:133-147 | the outcomes of the checked move; a move is the permutation if and only if the entry leaves no fence open |
| QuestionAnswer.ScanQuestions | src/backlog/backlog-question-answer.ts:231-272 | one scan finds both headings, where Open ends, whether a fence runs open there, and its blocks |
| QuestionAnswer.BlocksAreEntries | src/backlog/backlog-question-answer.ts:244-250 | the scan's blocks are the entries the list numbers, one for one |
| QuestionAnswer.CutReads | src/backlog/backlog-question-answer.ts:340-366 | the cut removes exactly the nth open entry and changes no other section, heading count or final fence state |
| QuestionAnswer.EmptiedOpenSaysSo | src/backlog/backlog-question-answer.ts:340-366 | an Open section the cut leaves blank holds its placeholder and nothing else |
| QuestionAnswer.OpenKeepsProse | src/backlog/backlog-question-answer.ts:340-366 | with anything visible left, the lines above the first question stay as they are |
| QuestionAnswer.WalkAnswered | src/backlog/backlog-question-answer.ts:388-414 | the walk finds the heading and drops the real placeholders of that section only |
| QuestionAnswer.AnswerIsHeld | src/backlog/backlog-question-answer.ts:371-384 | the moved entry is the question's heading and body, a blank line, then the stamp followed by a one-line decision, or the stamp, a blank line and the decision's lines up to trailing blanks |
| QuestionAnswer.AppendAnswered | src/backlog/backlog-question-answer.ts:371-418 | Answered, created if absent, gains as its last entry the question's own lines followed by the date stamp and every line of the decision; nothing else changes |
| QuestionAnswer.AnswerQuestion | src/backlog/backlog-question-answer.ts:308-335 | the exact condition of every outcome and its title; answering n moves exactly the nth open entry to the end of Answered, where it ends with the stamp and the decision's lines |
| Blocks.ContentBlocks | src/backlog/backlog-archive.ts:100-103 | a section's content is its lead and its blocks, which are the entries read |
| Blocks.SpreadReads | src/backlog/backlog-archive.ts:160-167 | trimmed blocks with one blank line between them read as the same entries |
| BlockRanges.SectionSpan | src/backlog/backlog-archive.ts:64-74 | the first section so titled and its end, in one walk |
| BlockRanges.EntriesInSpan | src/backlog/backlog-archive.ts:100-103 | the ranges limited to the span lie end to end over the section's blocks |
| BlockRanges.AddEntryLines | src/backlog/backlog-archive.ts:179-182 | the set gains exactly the entries' line numbers |
| BlockRanges.KeptSpans | src/backlog/backlog-archive.ts:199-203 | dropping the marked ranges' lines by number leaves the other blocks whole |
| Archive.EntryFates | src/backlog/backlog-archive.ts:135-157 | each fate by heading key and text against what the archive holds |
| Archive.EntryBlocks | src/backlog/backlog-archive.ts:160-167 | the trimmed blocks with a blank line between entries |
| Archive.SplitByKeep | src/backlog/backlog-archive.ts:187-211 | the line arithmetic of the bulk split is picking blocks by their marks |
| Archive.SplitByBaseKeys | src/backlog/backlog-archive.ts:215-230 | the line arithmetic of the sweep's split is picking blocks, and when it refuses |
| Archive.ArchiveFinishedText | src/backlog/backlog-archive.ts:240-280 | the line arithmetic of the whole two-file move gives the move on blocks, whose meaning the ArchiveReads and ArchiveProse rows state |
| ArchiveReads.ArchivingConserves | src/backlog/backlog-archive.ts:232-280 | the archive reads as the moved entries in live order, then its old ones; the live section as the unselected and staying ones; no other section of either file changes |
| ArchiveReads.WhereEntriesGo | src/backlog/backlog-archive.ts:135-178 | position by position, from heading keys and texts alone: which entries are moved, dropped or kept by a keep count or by base and parked keys, where each is read afterwards and in which order, and which titles are reported |
| ArchiveReads.LeavingIsWritten | src/backlog/backlog-archive.ts:261-269 | an entry that is to move or be dropped makes the run write, the sweep once there is an archive |
| ArchiveReads.FirstSweepWaits | src/backlog/backlog-archive.ts:213-230 | without an archive the sweep does nothing while an entry would stay in the live section |
| ArchiveReads.SameTextIff | src/backlog/backlog-archive.ts:121-125 | two entries have the same text if and only if their lines from heading to last visible line are the same up to trailing white space |
| ArchiveProse.ProseGoesWhere | src/backlog/backlog-archive.ts:187-230 | the lines above a section's first entry stay in the live file, and a bulk run that keeps no entry takes all but the placeholders above the archive's first entry, leaving one placeholder in an emptied section that had one |
| ArchiveReads.FatesMean | src/backlog/backlog-archive.ts:127-157 | no moved heading was archived; a dropped entry had a same-key, same-text copy; a staying one other text only |
| ArchiveReads.MarksPartition | src/backlog/backlog-archive.ts:257-264 | moved, dropped and kept entries together are the section's entries |
| ArchiveReads.BulkArchiveTwice | src/backlog/backlog-archive.ts:232-280 | a second bulk archive at keep 0 finds nothing to do |
| ArchiveReads.ArchivingProgresses | src/backlog/backlog-archive.ts:261-269 | a selected entry that can move or drop makes the move happen |
| ArchiveReads.TemplateReads | src/backlog/backlog-archive.ts:41-54 | a new archive holds its section once, empty, with closed fences, whatever prose stands above the heading |
| Parts.CycleFinder.Visit | src/backlog/backlog-parts.ts:300-317 | a visit returns a real closed walk, or finishes the part with open parts, order and earlier states kept |
| Parts.FirstDependencyCycle | src/backlog/backlog-parts.ts:295-325 | null if and only if the graph is acyclic, and otherwise the names along a closed walk |
| Parts.DependencyEntryScan | src/backlog/backlog-parts.ts:260-290 | the graph (of repeated keys the last clause), its keys, the dangling refs, the unparsed clauses and the misworded refs |
| Parts.PlanDependencyProblems | src/backlog/backlog-parts.ts:201-213 | the four reports; no cycle, some entries and no notes mean some entry is free |
| Parts.DanglingIs | src/backlog/backlog-parts.ts:215-231 | reported as dangling are exactly the refs of clauses that no planned entry and no built title carries; a retired title carries nothing |
| Parts.UnparsedIs | src/backlog/backlog-parts.ts:270-280 | reported as unparsed are exactly the entries whose clause names no part |
| Parts.SamePartIff | src/backlog/backlog-parts.ts:75-81 | two refs share a key if and only if their series agree but for case and their tokens agree |
| Parts.MiswordedIs | src/backlog/backlog-parts.ts:237-256 | reported as misworded are exactly the refs to planned parts named through another verb that no clause holds, each title and ref once |
| Parts.FreeIs | src/backlog/backlog-eligibility.ts:245-261 | the hold is null if and only if no note holds and no required part is planned |
| Parts.HoldMeans | src/backlog/backlog-eligibility.ts:245-261 | a note holds whatever is required; otherwise the hold names exactly the required parts still planned, in the clause's order |
| Parts.NoCycleNoStarvation | src/backlog/backlog-parts.ts:190-213 | an acyclic, non-empty list without notes has a free entry, even with repeated keys |
| Parts.MergingEmptiesIff | src/backlog/backlog-eligibility.ts:245-261 | without notes, repeated keys or not, merging free entries in any order until stuck empties the list if and only if no entries require each other's parts in a circle |
| Parts.ReportedCycleIsReal | src/backlog/backlog-parts.ts:284-287 | a cycle of parts is always one of entries |
| Parts.DistinctKeysAgree | src/backlog/backlog-parts.ts:284-287 | with distinct keys the graph of parts has a cycle if and only if the entries do |
| Parts.MergingEmptiesIffAcyclic | src/backlog/backlog-eligibility.ts:507-513 | with distinct keys, merging free entries in any order until stuck empties the list if and only if no cycle is reported |
| Parts.RepeatedKeysStarve | src/backlog/backlog-parts.ts:284-287 | the instance where the graphs differ: with a repeated key two entries wait on each other though no cycle is reported |
| Parts.PlansWaitingOn | src/backlog/backlog-parts.ts:130-154 | exactly the ascending indexes that reach the part through a non-empty chain, the entry itself left out |
| PartRanges.PartsLabel | src/backlog/backlog-index-data.ts:116-149 | the loop prints the maximal runs of consecutive parts |
| PartRanges.RequiredParts | src/backlog/backlog-parts.ts:161-173 | the loop gives each chunk's refs, the last named series carried over; on a clause of runs behind series names, the keyword, both or neither, separated by commas or `and`, these are the parts written, each of the series last named or else the heading's own |
| PartRanges.HeadingProblems | src/backlog/backlog-parts.ts:201-290 | the doctor's reports from the headings' clause texts: parsed, scanned and searched for a cycle |
| PartRanges.PieceParses | src/backlog/backlog-parts.ts:24-57 | a printed run, bare or behind the keyword, parses to its parts |
| PartRanges.LabelRoundTrip | src/backlog/backlog-index-data.ts:116-149 | parsing the printed label as a parts clause gives back the same parts in order |
| PartRanges.ClauseRoundTrip | src/backlog/backlog-parts.ts:24-57 | a clause over several series is read as written: a named run gives that series' parts whatever the heading's own, a bare one those of the series last named |
| PartRanges.NameReads | src/backlog/backlog-parts.ts:275-287 | the name by which reports and holds call a part, read as a clause under any heading, is that part |
| Pending.Projection.Rewrite | src/backlog/backlog-pending.ts:234-244 | a rewrite through the index changes the list's entry, or appends; index and list keep the same keys |
| Pending.Projection.Remove | src/backlog/backlog-pending.ts:226-233 | the backward loop removes every entry of the removed keys from list and index |
| Pending.ProjectedPlannedEntries | src/backlog/backlog-pending.ts:222-253 | list and index over shared objects compute the projection, on fresh copies |
| Pending.NoNewDuplicates | src/backlog/backlog-pending.ts:222-253 | no key occurs more often than in main, or than once |
| Pending.DiffThenApply | src/backlog/backlog-pending.ts:95-106 | a diff applied to its base is the survivors in main order, then the additions in head order |
| Pending.RoundTrip | src/backlog/backlog-pending.ts:83-109 | the projection then holds exactly the head's entries, each key once |
| Pending.ChangeDecides | src/backlog/backlog-pending.ts:222-253 | whose version of a key is read after one more change: its rewrite; its addition if the key is absent once its removals are done; none if it only removes; otherwise the earlier one |
| Pending.LastChangeWinsIff | src/backlog/backlog-pending.ts:217-221 | the last change's version of a key it touches is read if and only if it rewrites it, does not add it, removes it too, finds it absent, or adds what is there |
| Pending.FirstAdditionStays | src/backlog/backlog-pending.ts:245-250 | the instance: of two additions of one key the first stays |
| Baseline.LruKeeps | src/collections.ts:127-134 | at most the cap's entries, the new one last, the others in their order, and only the oldest gone, exactly when the cap is passed |
| Baseline.StepJoins | src/baseline/main-baseline.ts:569-598 | a step raises its SHA's verdict to what it records, never lowers one, and touches no other SHA but the evicted one |
| Baseline.StepWrites | src/baseline/main-baseline.ts:569-632 | what each step leaves for its SHA, green or red, with which stamp, tests and observers; a red keeps its earlier observers |
| Baseline.NoVerdictNoRecord | src/baseline/main-baseline.ts:616-628 | skips and slept-through failures record nothing |
| Baseline.VerdictIsJoin | src/baseline/main-baseline.ts:592-598 | over any interleaving the verdict is the join of everything recorded, until evicted |
| Baseline.FinalRank | src/baseline/main-baseline.ts:285-307 | where any run of steps leaves a SHA that stays cached, re-runs included: the maximum of where it stood and what was recorded, or green once a promoting re-run met a red |
| Baseline.OrderIrrelevantIff | src/baseline/main-baseline.ts:285-295 | two completion orders of the same steps leave the same verdict if and only if it ends green anyway or a promoting re-run follows a red in both or in neither |
| Baseline.OrderIrrelevant | src/baseline/main-baseline.ts:592-598 | check runs, seeds, carry-overs and narrowing re-runs leave the same verdict in any two completion orders |
| Baseline.PromotionMustFollow | src/baseline/main-baseline.ts:285-295 | the instance: a promoting re-run before its red leaves the red, after it a green |
| Baseline.SmallRunsEvictNothing | src/collections.ts:127-134 | runs over no more SHAs than the cap evict nothing |
| Baseline.ConsultKeepsPromises | src/baseline/main-baseline.ts:467-511 | exactly when a consult answers from the cache, tries a carry-over or runs, and under which key, for forced, observed-only and red-rerun consults |
| Baseline.BaselineCache.RememberBaseline | src/baseline/main-baseline.ts:143-146 | delete, evict and set are the bounded insert |
| Baseline.BaselineCache.SettleRun | src/baseline/main-baseline.ts:604-632 | a settled run's verdict and what it writes |
| Baseline.BaselineCache.SettleRedByRerun | src/baseline/main-baseline.ts:285-295 | a re-run promotes or narrows a red and keeps its stamp, and does nothing without one |
| Baseline.BaselineCache.NoteGreenBaseline | src/baseline/main-baseline.ts:276-278 | a merge seeds an observed green |
| Baseline.BaselineCache.NoteInheritedGreen | src/baseline/main-baseline.ts:303-307 | an inherited green never displaces an observed verdict |
| Baseline.NearestIs | src/baseline/main-baseline.ts:359-370 | the verdict considered is the nearest cached one, all nearer ancestors having none |
| Baseline.WalkFinds | src/baseline/main-baseline.ts:359-370 | a position within reach that is cached green with nothing nearer cached is where the walk ends, and a green end is such a position |
| Baseline.CarryOverStopsAtNearest | src/baseline/main-baseline.ts:359-370 | in any run of the team a carry-over in flight comes from the nearest cached ancestor, which was green: none passes a nearer verdict |
| Baseline.BaselineCache.InheritedGreen | src/baseline/main-baseline.ts:359-370 | some ancestor is returned exactly when within reach one is cached green with an exempt diff and nothing nearer is cached; it is that one |
| Baseline.BaselineCache.CompleteCarryOver | src/baseline/main-baseline.ts:517-532 | a verdict settled meanwhile wins over the carry-over |
| Baseline.BaselineCache.Consult | src/baseline/main-baseline.ts:467-482 | a consult answers from the cache, tries a carry-over, or needs a run; a red is re-run under this worktree's own key |
| Baseline.BaselineCache.StartOrJoin | src/baseline/main-baseline.ts:482-487 | one run per key in flight: a caller joins it or starts one |
| Baseline.BaselineCache.Finish | src/baseline/main-baseline.ts:488-492 | a waiter frees the key only while it stands for the run waited for |
| Baseline.InheritedGreenIsTraced | src/baseline/main-baseline.ts:297-370 | every cached green goes back to a SHA seen green whose tree differs in exempt paths only |
| Baseline.TrustedRedWasSeen | src/baseline/main-baseline.ts:256-261 | a red that is trusted was seen by this worktree or by two others |
| Watch.JudgedOnceInOrder | src/baseline/main-watch.ts:479-554 | in any run the judged commits are one contiguous stretch, each once, in order, up to a covered head |
| Watch.UncoveredHeadIsJudged | src/baseline/main-watch.ts:815-835 | an idle watch's next poll starts a pass that judges at least the next commit |
| Watch.OneCulpritPerSpell | src/baseline/main-watch.ts:569-606 | between two culprits main was seen green or cleared |
| Watch.SpellOnlyShrinks | src/baseline/main-watch.ts:627-801 | between any two points of any run with no passed check logged between, the spell keeps its opener, no culprit is named, and its tests only shrink unless a due full check reset them |
| Watch.NewOpenerNeedsClear | src/baseline/main-watch.ts:569-606 | in any run, after a point where a spell is open the next culprit comes after a passed check |
| Watch.MainWatch.Poll | src/baseline/main-watch.ts:804-851 | which pass a poll starts: the rules pass on a moved tip with none in flight, the full one when due by time or by a red head |
| Watch.MainWatch.RulesPass | src/baseline/main-watch.ts:479-554 | the commits from the mark to the tip are judged in order up to and including the first finding, and the mark is the last of them |
| Watch.JudgedStops | src/baseline/main-watch.ts:479-554 | the walk judges a prefix that ends at its first finding or covers it all |
| Watch.MainWatch.FullPass | src/baseline/main-watch.ts:627-715 | every branch of the pass, in terms of its inputs: not due, suspended, narrowed, cleared and confirmed, judged; a fresh red's opener is the one the bisection or the walk names |
| Watch.FullPassJudges | src/baseline/main-watch.ts:347-357 | a green or quarantined-only check leaves no spell and logs one pass; a culprit is named only by a red with a test outside quarantine that opens a spell, exactly one; no verdict changes nothing; a spell narrows to the tests that failed again |
| Watch.BisectAt | src/baseline/main-watch.ts:442-471 | the commit returned fails and is first or preceded by a passing one; when none is returned, a re-run without a verdict among the reasons; at most log2 n + 1 re-runs |
| Watch.MonotoneFindsOldest | src/baseline/main-watch.ts:437-441 | under monotone failure that commit is the oldest failing one |
| Watch.CommitsAboveFullGreen | src/baseline/main-baseline.ts:335-347 | the commits above the newest full green, oldest first |
| Watch.RedOpener | src/baseline/main-watch.ts:371-410 | the oldest of the unbroken red run from the tip down |
| Watch.SettleOpener | src/baseline/main-watch.ts:412-436 | the bisection between the newest full green and the tip where it concludes, otherwise the walk down the red commits; when it must conclude |
| Stream.NativeStream.EmitLines | src/agent/agent-stream.ts:115-123 | the loop emits each completed line and keeps the rest |
| Stream.NativeStream.FeedCanonical | src/agent/agent-stream.ts:106-138 | after each call the surviving lines are out, the buffer holds no newline and at most the cap, one warning per skipped line |
| Stream.RunStream | src/agent/agent-stream.ts:99-138 | any chunking and the flush emit the whole text's lines that no boundary cut |
| Stream.SurvivorsInOrder | src/agent/agent-stream.ts:25-31 | the emitted lines are the text's lines in order without some lines over the cap |
| Stream.LineEmittedIff | src/agent/agent-stream.ts:106-138 | a line is left out if and only if a chunk ended more than the cap into it |
| Stream.ChunkingIrrelevant | src/agent/agent-stream.ts:106-138 | with no line over the cap the chunking does not matter |
| Breaker.RunKeeps | src/budget/fallback-breaker.ts:151-171 | every run keeps the closed, probing and cool-down invariants with the doubled, capped cool-down |
| Breaker.RunTells | src/budget/fallback-breaker.ts:114-171 | field by field what one reported run does: which results are failures, successes or no evidence, when it trips or re-opens and with which cool-down, and when the probe slot is freed |
| Breaker.NewSubjectIsTrusted | src/budget/fallback-breaker.ts:81-84 | the same subject keeps its judgment, any other starts trusted |
| Breaker.AbandonedProbeIsDueAgain | src/budget/fallback-breaker.ts:95-113 | one probe at a time; giving back a probe that never ran makes it due again |
| Breaker.ReachableFacts | src/budget/fallback-breaker.ts:81-128 | what holds of every reachable breaker, a due probe after each cool-down included |
| Breaker.ServedCloses | src/budget/fallback-breaker.ts:151-162 | a served run closes the breaker from any state |
| Breaker.StragglersLeaveCooldown | src/budget/fallback-breaker.ts:143-171 | only failed probes move a demoted breaker's cool-down |
| Breaker.FailedProbeWaits | src/budget/fallback-breaker.ts:164-171 | after a failed probe the next one waits out the doubled, capped cool-down |
| Breaker.FailuresInARowTrip | src/budget/fallback-breaker.ts:164-170 | consecutive failures trip at the limit and not before |
| Breaker.RekeyBreakers | src/budget/fallback-breaker.ts:204-214 | re-keying the map re-keys every pair's own breaker |
| Breaker.ProbeDuePair | src/budget/fallback-breaker.ts:226-231 | the first due pair in map order, or none due |
| Breaker.MapRunRefines | src/budget/fallback-breaker.ts:236-270 | every run of the map is, pair by pair, a run of a single breaker |
| Breaker.MapRunKeeps | src/budget/fallback-breaker.ts:236-270 | every entry of a reachable map keeps the single breaker's invariants |
| Breaker.ShippedPolicyIsSane | src/budget/fallback-breaker.ts:30-34 | the shipped policy meets what the results ask of one |

## Left out

- Git, subprocesses, file locks, atomic writes, stat caches, event logging and timers: the steps between awaits are atomic, and failed passes of the watch are not modelled.
- Characters: a Dafny `char` is a code point where JavaScript has UTF-16 units, so the stream's cap counts code points.
- Line arrays: JavaScript splices arrays in place; the writers are modelled on sequences held in local variables, so aliasing of the line array is not captured.
- `stripEntryStamp`, dates and hold-note prefixes: parameters, or parsed values in `Parts.Plan`.
- Title and clause patterns: headings are given to `Parts` parsed; `PartRanges` parses the clause text but not the parenthetical around it.
- Case: `Parts.Lower` folds ASCII letters, JavaScript folds all.
- Big numbers: part numbers are exact, where JavaScript rounds them beyond 2^53.
- `groupBlockedSeries`, `plansReleasedBy` and `prerequisitesMerged`: single-pass lookups over the parts modelled here.
- Parts.DependencyEntryScan: takes each heading's refs parsed; `PartRanges.HeadingProblems` parses them from the clause's text.
- Parts.PlanDependencyProblems: takes each heading's refs parsed, like the scan.
- PartRanges.RequiredParts: takes the clause's text and the entry's own series; the patterns that cut them out of a heading are not part of this model.
- `liftRefusal`, `withoutNotes` and `noteEnd`: note stripping inside a body; not part of this model.
- Persistence of verdicts across restarts (`saveGreens`, `restoreRedVerdict`): the cache starts empty.
- `refreshPendingPlans`: its snapshot depends on refs and reads outside the model.
- The stderr window, the session record and `finish` of the stream: process plumbing.
- Quarantine housekeeping and the covered-commit count of the watch: they feed event texts only.
- The order of dictionary keys that look like integers: pair names and part keys never do.
