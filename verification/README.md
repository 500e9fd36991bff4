# pg2osync: a verified model

pg2osync keeps search indices in step with a relational source: an initial load
copies each table range by range *beside* the replication stream, and nothing
locks the two together. This project models that protocol and the smaller cores
around it in Dafny 4.11, and proves what the system promises of them.
`dafny verify dfyconfig.toml` checks everything.

What is modelled:

- **The load beside the stream** (`Source`, `Target`, `Ranges`, `Engine`,
  `Protocol`, `Invariant`, `Safety`, with one file of step proofs per actor).
  A transition system whose state holds the source's log, slot and publication,
  the target's documents, checkpoint and progress documents, both channels, the
  engine with its buffer, queue and open writes, and any number of loaders.
  Schedules, thresholds and clocks are parameters of the steps, so a theorem
  about all runs covers every interleaving, crash and restart. `base` is a
  history variable: the position from which the stream owes a key its changes.
  `Drains`, `Window` and `Convergence` are the other half of safety: what is taken
  comes out, only what has to be dropped is, and from every reachable state the
  target can still be brought to the source.
- **A slot created again** (`Losses`, `Recreated`, `Skipped`, `Hazards`): what a
  load and the stream make good afterwards, and what stays wrong.
- **A target that forgets tombstones** (`Tombstones`, `Undoing`, `Marks`,
  `Finishes`, `Requests`, `Resurrections`), with any number of write requests open, landing
  in any order and sent again whole when refused in part. The engine's own record
  of removed keys, cleared at every mark and kept only while a load runs, has to
  be enough.
- **Progress, marks, resuming** (`Progress`, `Resume`, `Tables`).
- **Index patterns and claims** (`Glob`, `Overlap`, `Claims`, `Sharing`).
- **COPY text** (`CopyText`).
- **The row-filter language** (`FilterSyntax`, `FilterLexer`, `FilterGrammar`,
  `FilterParser`, `FilterDerivation`, `FilterEval`, `FilterText`, with
  `FilterLexicon` for every spelling and `FilterComparisons` for every comparison).
  Its logic is that of sections 8.4 and 8.12 of ISO/IEC 9075:1992. A derivation is a value
  with the tokens it yields, so one type serves the precedence grammar and the
  grammar without precedence.
- **Grouping of child rows** (`Grouping`), **reloads** (`Reload`, `Refusals`) and **document
  versions across failovers** (`Versions`).

Some of what the system promises is false of the code. Each such case comes with
the exact condition under which it holds, for all states, and a run in which it
does not:

- **Reconnecting** keeps the durable position of the attempt before it. Nothing
  at or below the slot is ever missing afterwards if and only if everything the
  new attempt owes at or below that position has landed
  (`Losses.ReconnectExactly`), as when that position is not ahead of the slot
  (`AttemptSteps.SettledReconnect`). A table that joined above the slot breaks it
  (`Hazards.UnsettledReconnectLosesADelete`).
- **Creating the slot again** is safe if and only if everything owed has landed
  (`Losses.RecreateExactly`), as when the stream is acknowledged to the end of the
  log (`AttemptSteps.CaughtUpRecreate`). Otherwise the start loads again
  (`Resume.RecreatedSlotForcesALoad`), and that load mends some of it. With no
  stored document every row is read once more, but a load
  never deletes: once that load has been finished and the stream has caught up, a
  key is wrong exactly when the target showed a document that was deleted at or
  below the new slot (`Recreated.LoadedAgainExactly`,
  `Hazards.RecreatedSlotKeepsADeletedRow`). With a stored document a finished
  range is not read again: its key is right exactly when it was right already or
  has changed since, the document cleared by then or not, until a later start
  reads the table afresh (`Skipped.StoredDocumentExactly`,
  `Hazards.RecreatedSlotLeavesAGap`). `Protocol.Careful` is the conjunction of the
  two conditions, and the main theorems hold for all runs that meet it.
- **Forgetting a tombstone** undoes no delete if and only if no document from
  before the key's last change can still come out on top of what is on its way
  (`Undoing.ForgetExactly`). With `write_concurrency` above one a row may be in an
  older request than its delete (`Resurrections.ForgottenTooEarlyUndoesADelete`).
  With one request open at a time the condition always holds, and so it does when
  no tombstone is forgotten over an older write of its key in an open request
  (`Requests.OrderlyLoadIsTheSource`).
- **The record of removed keys** is cleared at any loader's mark, and when any
  load finishes. Clearing it undoes no delete by itself if and only if every row
  of ours still to come is harmless (`Marks.MarkExactly`); with two loaders one
  may not be (`Resurrections.OtherLoadersMarkUndoesADelete`).
- **The end of another load** also stops the engine remembering. From then on
  taking a delete is safe if and only if every row of its key still to come is
  harmless after it (`Marks.TakeExactly`), so the end itself is safe whatever the
  stream brings if and only if nothing of our load is left to read or to arrive
  (`Finishes.FinishExactly`); otherwise a deleted row may come back
  (`Resurrections.AnotherLoadsEndUndoesADelete`).
- **Template claims** are checked for containment, not overlap. A row of one
  template is written where the TRUNCATE of the other clears if and only if, of
  their patterns' texts before the first star, one is a prefix of the other, and of
  those after the last, one is a suffix of the other
  (`Sharing.RowLandsExactlyWhen`); two that the check accepts may meet it
  (`Sharing.AcceptedTemplatesMayOverlap`).
- **One section per table** during a reload holds if and only if no addition that
  took names the table of a section that no edit that took touches
  (`Reload.TwoSectionsExactlyWhen`), which over the two files alone is
  `Reload.SafeWhenAllTake` and, if removals may fail, `Reload.SafeWhateverFails`.
  It fails in `Reload.FailedRemovalRoutesTwice` and `Reload.RefusedChangeRoutesTwice`.
- **A version generation** is remembered only by a checkpoint written in it
  (`Versions.UnstoredGenerationIsForgotten`). A start that keeps the stored base
  writes above all other generations if and only if nothing was written in a
  later one (`Versions.KeepingIsAboveExactlyWhen`).

Other places where the code does less than its documentation says:

- `unfinished` passes over a table whose first progress document was not yet
  stored (`Resume.LoadIsDueExactlyWhen`, `Progress.Unfinished`).
- Progress keys are not injective: `a.b_c` and `a_b.c` share one
  (`Progress.TwoTablesOneKey`), and so do the streams `a-b`, `c` and `a`, `b-c`
  (`Progress.TwoPipelinesOneKey`).
- A row of a single empty text is an empty line, which the COPY reader skips, and
  backspace, form feed and vertical tab decode to letters
  (`CopyText.TableArrivesWhole`).
- A boundary of the load flushes the whole buffer, rows of an open stream
  transaction included; `crates/core/src/event.rs` describes transactions as
  flushed whole. The model does what the code does.
- The engine publishes each mark with a plain replacement, so a mark enqueued
  late may lower the published value. That never grants a release; a loader may
  wait for good if no higher mark follows. The model includes it.

## Model

| member | source | states |
|---|---|---|
| `Target.SettledKeyIsTheSource` | crates/core/src/sink.rs:326-337 | Whatever order and duplicates writes land in, a target that keeps the highest version per key shows the row the source held at `n`, once the range read and the changes above the key's base have landed or been overtaken |
| `Ranges.RangesFromBounds` | crates/bin/src/backfill.rs:214-237 | Range `r` lies between boundary `r - 1` and boundary `r`, open at both ends of the list |
| `Ranges.ExactlyOneRange` | crates/bin/src/backfill.rs:203-237 | Between strictly increasing boundaries a key is in range `r` if and only if `r` boundaries are at or below it |
| `Engine.TakeRowSound` | crates/engine/src/lib.rs:740-798 | A row taken in joins the end of what is accepted, or is dropped; nothing accepted is lost or overtaken |
| `Engine.TakeRowRemembered` | crates/engine/src/lib.rs:740-798 | A dropped row is outranked by a removal already accepted |
| `Engine.TakeCommitSound` | crates/engine/src/lib.rs:488-562 | A commit is acknowledged behind every operation accepted before it, buffered, queued, in flight or coalesced |
| `Engine.TakeMarkSound` | crates/engine/src/lib.rs:563-595 | A mark is published behind every operation accepted before it, held back by an open transaction or not |
| `Engine.StartWriteSound` | crates/engine/src/lib.rs:1186-1217 | Opening one more write keeps marks and positions behind what they stand for |
| `Engine.FinishWriteSound` | crates/engine/src/lib.rs:1330-1407 | Writes may finish while others are open; the acknowledged position covers only finished ones |
| `Engine.PassBarrierSound` | crates/engine/src/lib.rs:1218-1234 | A mark or a bare position passes only when nothing is in flight |
| `Drains.DrainedIsDone` | crates/engine/src/lib.rs:1186-1234 | Whatever state the engine is in, with nothing more taken in and what is open landing, it ends with nothing held back and everything accepted written, in order |
| `Drains.CommitIsAcknowledged` | crates/engine/src/lib.rs:488-562 | Every commit taken at or above the positions queued, coalesced or not, ends as the acknowledged position |
| `Drains.MarkIsPublished` | crates/engine/src/lib.rs:563-595 | Every mark taken ends as the published mark: at once with no transaction open, with the next commit that is not held back otherwise |
| `Window.DroppedExactlyWhen` | crates/engine/src/lib.rs:740-798 | A document is dropped if and only if the engine has taken a delete of its key at a later version while a load was running, and no mark or load's end since; anything else joins the end of what is accepted |
| `Window.MarkWaitsExactlyWhen` | crates/engine/src/lib.rs:563-595 | A mark taken is published once what is before it is written if and only if no transaction is open |
| `Safety.StepKeeps` | crates/engine/src/lib.rs:293-925 | Every step of source, stream, engine, target, loaders, joining tables, reconnects and restarts keeps the invariant |
| `Safety.ReachableKeeps` | crates/bin/src/run.rs:1637-1680 | The invariant holds in every state any run reaches |
| `Safety.CaughtUpIsTheSource` | crates/bin/src/run.rs:1637-1680 | In every interleaving, a table whose load is finished and whose stream is acknowledged through the end of the log shows exactly the source's rows, deletes included |
| `Safety.AcknowledgedIsTheSource` | crates/bin/src/backfill.rs:596-608 | The same at any position `n` that all landed writes are true of |
| `Safety.NothingBelowTheSlotIsMissing` | crates/bin/src/run.rs:1807-1810 | Over every run of deliver, acknowledge, checkpoint, clamped feedback and crash, no owed change at or below the slot is missing from the target |
| `Safety.EverythingAboveTheStartIsDelivered` | crates/source/src/runner.rs:150-380 | Every owed change above the position an attempt starts at is put on the event channel as the stream passes it |
| `Safety.ReleaseImpliesDurable` | crates/core/src/load.rs:100-120 | A loader released by `written >= mark` has every row sent before it drew that mark on the target or overtaken there, with any number of loaders and marks enqueued out of order |
| `Safety.ProgressIsDurable` | crates/bin/src/backfill.rs:449-551 | From a table's first stored document on, every range below `done` is durable and `finished` means all of them, across crashes and any reader width |
| `Safety.JoinedTableMissesNothing` | crates/bin/src/run.rs:2735-2831 | Every change of a table that joined a running pipeline is in the range read's snapshot or on the event channel |
| `Convergence.EveryStateCanConverge` | crates/bin/src/run.rs:1637-1680 | From every reachable state some run, beginning with a restart, confirms the stream to the end of the log and finishes every configured table's load, and the target then shows the source's rows |
| `AttemptSteps.ReconnectKeeps` | crates/bin/src/run.rs:1807-1810 | A reconnect keeps the invariant if and only if every change of a table in effect between its resume position and the durable position kept has landed or been overtaken |
| `AttemptSteps.RecreateSlotKeeps` | crates/bin/src/run.rs:1494-1508 | A slot created again keeps the invariant if and only if everything the stream owes has landed or been overtaken |
| `Losses.ReconnectExactly` | crates/bin/src/run.rs:1807-1810 | In no careful continuation of a reconnect is an owed change at or below the slot ever missing, if and only if what the new attempt owes up to the durable position it keeps has landed |
| `Losses.RecreateExactly` | crates/bin/src/run.rs:1494-1508 | The same for a slot created again, if and only if everything owed has landed; a change that has not is missing at once, and what becomes of it later is `Recreated.RecreatedSlotExactly` |
| `Recreated.RecreatedSlotExactly` | crates/bin/src/run.rs:1494-1508 | After any run from a slot created again to a caught-up moment, a key shows the source's row if and only if a write of it at or above the new slot has landed since, or the highest write from before to have landed by then shows the row the source held |
| `Recreated.LoadedAgainExactly` | crates/bin/src/backfill.rs:546-567 | With no stored document, once the forced load has been finished and the stream has caught up, before or after the load clears its documents, a key with no request open at the creation shows the source's row if and only if the target did not show a document deleted at or below the new slot |
| `Skipped.StoredDocumentExactly` | crates/bin/src/backfill.rs:442-472 | With a stored document, a key of a range it counts as done, no request of it open, shows the source's row if and only if it did when the slot was created again or the row has changed since; the document cleared by then or not, until a start reads the table afresh |
| `Recreated.OwedIsLandedIsRight` | crates/bin/src/run.rs:1494-1508 | A loaded key whose owed changes have all landed shows the source's row at any moment |
| `Hazards.RecreatedSlotLeavesAGap` | crates/bin/src/run.rs:1487-1508 | A run in which a slot created again beside a finished document leaves a row missing for good |
| `Hazards.RecreatedSlotKeepsADeletedRow` | crates/bin/src/run.rs:1494-1508 | A run with no stored document in which the forced load finishes, the stream catches up and a deleted row still shows |
| `Hazards.UnsettledReconnectLosesADelete` | crates/bin/src/run.rs:2735-2831 | A run in which a reconnect that keeps the durable position of the attempt before it confirms a late-joined table's delete unread |
| `Tombstones.MakeKeeps` | crates/engine/src/lib.rs:740-798 | Every move of source, stream, engine, target and loaders keeps the invariant, with any number of requests open, if tombstones are forgotten, other loaders' marks and ends heard, and deletes taken with the window closed, only fairly |
| `Tombstones.NoDeleteIsUndone` | crates/core/src/event.rs:98-117 | In every fair run no document from before a delete the stream made ever shows with nothing on its way to outrank it |
| `Tombstones.ShownIsTrue` | crates/core/src/event.rs:98-117 | With nothing on its way, a document shown is one the source held at or after every change of the key the stream has made |
| `Tombstones.LoadedIsTheSource` | crates/bin/src/backfill.rs:506-546 | With the record of removed keys cleared at every mark, load over and stream taken in, the target shows the source's rows, in every fair run |
| `Undoing.ForgetExactly` | crates/engine/src/lib.rs:1186-1217 | Forgetting a tombstone leads to no undone delete of its key, in any order the open requests land, if and only if no document from before the key's last change can come out on top of what is on its way |
| `Undoing.NoneOlderMayForget` | crates/engine/src/lib.rs:1186-1217 | That condition holds when no write of the key on its way is older than the tombstone |
| `Requests.OrderlyIsPlayedFairly` | crates/bin/src/run.rs:253-260 | With no mark or end of another load, a run is fair if requests land one at a time and in order, refused ones sent again, or if no tombstone is forgotten over an older write of its key in an open request |
| `Requests.OrderlyLoadIsTheSource` | crates/bin/src/run.rs:253-260 | So in those runs no delete is undone, and once complete the target shows the source's rows |
| `Resurrections.ForgottenTooEarlyUndoesADelete` | crates/engine/src/lib.rs:1186-1217 | A run fair but for one forgotten tombstone, whose delete landed before the older request holding the row: everything written, the deleted row shows |
| `Marks.PlayedIsPaced` | crates/bin/src/backfill.rs:506-546 | In every fair run at most one row of each key is on its way to the engine, and it comes from the wave being read |
| `Marks.MarkExactly` | crates/engine/src/lib.rs:563-595 | Clearing the record at another loader's mark or finish leads to no undone delete, nothing more being taken off the stream, if and only if every row of ours still to come is harmless |
| `Marks.TakeExactly` | crates/engine/src/lib.rs:783-797 | With the window closed by another load's end, taking a change off the stream leads to no undone delete, nothing more being taken, if and only if, should it be a delete, every row of its key still to come is harmless after it |
| `Finishes.FinishExactly` | crates/engine/src/lib.rs:1040-1046 | Another load's end, no other start waiting behind it, leads to no undone delete whatever the stream brings, if and only if no row of ours is to come and no range of ours is left to read |
| `Marks.NothingRememberedMayMark` | crates/engine/src/lib.rs:563-595 | That condition holds when no remembered delete outranks a row still to come |
| `Resurrections.OtherLoadersMarkUndoesADelete` | crates/engine/src/lib.rs:563-595 | A run fair but for one such mark over a row on the channel: everything written, the deleted row shows |
| `Resurrections.AnotherLoadsEndUndoesADelete` | crates/bin/src/run.rs:1674-1680 | A run fair but for one delete taken after another load has ended, a row of it on the channel: everything written, the deleted row shows |
| `Resume.LoadedKeyStays` | crates/core/src/load.rs:82-98 | A key once loaded stays loaded through any step, with its progress document kept or cleared |
| `Resume.ResumedRunIsTheSource` | crates/bin/src/run.rs:1637-1680 | A table loaded once shows the source's rows whenever the stream catches up, through every later crash and restart without another load |
| `Resume.ResumeMissesNothing` | crates/bin/src/run.rs:1494-1508 | When a position is resumed from, it is at or above the slot, nothing at or below the slot is missing and everything above it is still to come |
| `Resume.ResumesExactlyWhen` | crates/bin/src/run.rs:1494-1508 | A start resumes at `p` if and only if the source is not polled, the checkpoint is `p`, and there is no slot or it is at or below `p` |
| `Resume.QuietRestartLoadsNothing` | crates/bin/src/run.rs:1576-1600 | A restart with the checkpoint at or above the slot and no document saying unfinished resumes at the checkpoint and loads nothing |
| `Resume.StoreKeepsStored` | crates/bin/src/backfill.rs:456-472 | Storing a progress document under a key no other table has leaves every table's stored document what its loader last wrote |
| `Progress.DocumentComesBack` | crates/core/src/load.rs:40-67 | What `to_doc` stores `from_doc` reads back, in both cursor shapes |
| `Progress.ReadExactlyWhen` | crates/core/src/load.rs:52-67 | A stored object is read as progress exactly when `finished` is a truth value and either the key reached, or the boundaries with a count that fits 64 bits, is there and well formed |
| `Progress.KeysMeet` | crates/core/src/load.rs:219-237 | Two tables of one stream share a progress document exactly when their names tame to the same text |
| `Progress.PipelinesMeet` | crates/core/src/load.rs:219-237 | Two streams share a table's progress document exactly when source and stream, joined by a dash, tame to the same text; of one source, exactly when the streams do |
| `Progress.TwoPipelinesOneKey` | crates/core/src/load.rs:219-237 | Two different streams that do share one |
| `Progress.KeyReads` | crates/core/src/load.rs:219-237 | Where nothing needs taming a key is `load-`, source, stream and table with dashes between |
| `Progress.Unfinished` | crates/core/src/load.rs:82-98 | True if and only if some table's readable document is not finished |
| `Progress.MarkSequence.Next` | crates/core/src/load.rs:115-119 | Never zero, and one above the mark before it |
| `Progress.MarkSequence.Draw` | crates/core/src/load.rs:110-119 | Marks drawn in a row are all different and increasing |
| `Tables.SharedTables.Add` | crates/core/src/tables.rs:84-97 | The set is replaced whole by one that admits the table with its key columns |
| `Tables.SharedTables.Remove` | crates/core/src/tables.rs:100-108 | The set is replaced whole by one that has forgotten the table |
| `Tables.AddedFiles` | crates/core/src/tables.rs:84-97 | What is filed of the table is the key columns and append-only flag given, last in the list unless it was there; no other table moves |
| `Tables.RemovedForgets` | crates/core/src/tables.rs:100-108 | Nothing of the table is left, and the others stay as they were and in their order |
| `Tables.RemovedStays` | crates/core/src/tables.rs:100-108 | No table is admitted twice or without what the decoder needs |
| `Glob.IndexMatchesPattern` | crates/core/src/sink.rs:144-166 | The leftmost matcher accepts a name if and only if the pattern's stars can be filled to spell it |
| `Glob.LeftmostIsEnough` | crates/core/src/sink.rs:151-164 | Taking the leftmost occurrence of a literal loses no match |
| `Glob.ContainmentIsMatching` | crates/bin/src/config.rs:1968-1971 | A pattern matches another read as text if and only if it matches every name the other matches |
| `Claims.BuildPattern` | crates/engine/src/mapping.rs:989-1006 | The loop builds the collapsed pattern |
| `Claims.PatternFromMeans` | crates/engine/src/mapping.rs:989-1006 | Collapsing adjacent stars leaves exactly the names one star per placeholder would match |
| `Claims.Render` | crates/engine/src/mapping.rs:858-874 | Renders every part, or names the first column that is missing or NULL |
| `Claims.RenderedIsClaimed` | crates/engine/src/mapping.rs:947-1006 | Every index a row of a template goes to is matched by the pattern its TRUNCATE clears |
| `Claims.CheckTemplateClaims` | crates/bin/src/config.rs:1954-1983 | Accepts if and only if no other section has a template's spec or lies wholly inside its pattern; a refusal names a pair that does |
| `Claims.FixedIndexIsSafe` | crates/bin/src/config.rs:1954-1983 | Accepted side by side, a template's TRUNCATE never clears another section's fixed index |
| `Overlap.OverlapExactly` | crates/core/src/sink.rs:144-166 | Two patterns that each hold a star match a common name if and only if the texts before their first stars agree as prefixes and those after their last as suffixes |
| `Sharing.RowLandsExactlyWhen` | crates/bin/src/config.rs:1952-1983 | Some row of one template is written to an index the TRUNCATE of the other clears if and only if the patterns begin and end alike |
| `Sharing.TemplatesShareExactlyWhen` | crates/bin/src/config.rs:1952-1983 | Of two templates one of which names no column twice, some rows render one index if and only if the patterns begin and end alike |
| `Sharing.RepeatedColumnsMayShareNothing` | crates/bin/src/config.rs:1952-1983 | Two templates that each name a column twice, with patterns that begin and end alike, and no index in common |
| `Sharing.AcceptedTemplatesMayOverlap` | crates/bin/src/config.rs:1968-1980 | Two templates the check accepts that render one index |
| `CopyText.ReadRange` | crates/bin/src/backfill.rs:628-676 | However the bytes are cut, exactly the non-empty newline-terminated lines are sent, in order, with the boundaries |
| `CopyText.EmitLines` | crates/bin/src/backfill.rs:642-676 | One pass of the cursor over the buffer sends its lines and leaves what follows the last newline |
| `CopyText.LinesCover` | crates/bin/src/backfill.rs:642-645 | Lines and remainder are the text, and no line holds a newline |
| `CopyText.BoundariesAreRegular` | crates/bin/src/backfill.rs:669-672 | Each row once and in order; a boundary follows every 5000th row and nothing else |
| `CopyText.SplitCopyLine` | crates/bin/src/backfill.rs:857-877 | The loop cuts a line at its unprotected tabs |
| `CopyText.SplitKeepsTheLine` | crates/bin/src/backfill.rs:857-877 | For any line the fields hold no bare tab and joined again are the line, less a backslash left open at its end |
| `CopyText.SplitInvertsJoin` | crates/bin/src/backfill.rs:857-877 | Splitting undoes joining for all closed fields |
| `CopyText.UnescapeCopy` | crates/bin/src/backfill.rs:830-855 | The loop decodes a field |
| `CopyText.FieldComesBack` | crates/bin/src/backfill.rs:830-855 | NULL, text spelling the NULL marker and text ending in backslashes come back; three control characters lose their backslash |
| `CopyText.RoundTripExactly` | crates/bin/src/backfill.rs:829-876 | Split and decode invert COPY text encoding if and only if no field has a backspace, form feed or vertical tab |
| `CopyText.TableArrives` | crates/bin/src/backfill.rs:628-676 | A table sent as COPY text through any chunks arrives row for row, less what the reader cannot see |
| `CopyText.TableArrivesWhole` | crates/bin/src/backfill.rs:645-648 | It arrives whole if and only if no row is a single empty text and no field has one of the three characters |
| `FilterLexer.Tokenize` | crates/core/src/filter.rs:379-478 | The index-moving scanner yields the tokens of the text, or its first error |
| `FilterLexer.ScanOne` | crates/core/src/filter.rs:383-475 | One turn of the scanner, branch by branch |
| `FilterLexer.ScanString` | crates/core/src/filter.rs:405-420 | Finds the quote that ends a string, two in a row counting as one inside it |
| `FilterLexer.ScanNumber` | crates/core/src/filter.rs:489-525 | Integers outside 64 bits and floats that are not finite are refused |
| `FilterLexicon.LexIsWritten` | crates/core/src/filter.rs:379-478 | The tokenizer accepts exactly the texts made of spelled tokens with spaces, tabs and line ends between, each token taken as far as it goes, and yields those tokens |
| `FilterLexicon.SpelledIsRead` | crates/core/src/filter.rs:383-475 | Every spelling of a token, printed by the renderer or not, is read as that token: `!=` and `<>` alike, signs, leading zeros, fractions |
| `FilterLexicon.ReadIsSpelled` | crates/core/src/filter.rs:383-475 | Every token read stands there spelled and could not have gone on |
| `FilterLexicon.NotEqualsEitherWay` | crates/core/src/filter.rs:443-456 | A comparison of a column with anything reads as the same filter with `!=` or `<>` |
| `FilterLexicon.SpacesAreAlike` | crates/core/src/filter.rs:391 | Space, tab and both line ends stand for each other |
| `FilterLexicon.RefusedWith` | crates/core/src/filter.rs:405-475 | Which text stops the tokenizer with which error |
| `FilterLexicon.UnterminatedExactlyWhen` | crates/core/src/filter.rs:405-420 | A string is unterminated exactly when no lone quote closes it |
| `FilterLexicon.EqualIgnoringCaseIs` | crates/core/src/filter.rs:353-377 | Two words are the same keyword exactly when they differ in the case of the letters a to z alone |
| `FilterLexicon.KeywordsAre` | crates/core/src/filter.rs:363-377 | The eight keywords and the seven operators spelled as words |
| `FilterLexicon.IntegersArePrintedPlainly` | crates/core/src/filter.rs:270-319 | An integer is printed with a sign only below zero and no leading zero |
| `FilterParser.Parser.OrExpr` | crates/core/src/filter.rs:568-575 | Moves the cursor and files columns as reading an OR chain off the tokens does |
| `FilterParser.Parser.AndExpr` | crates/core/src/filter.rs:577-584 | The same for an AND chain |
| `FilterParser.Parser.NotExpr` | crates/core/src/filter.rs:586-591 | The same for a run of NOTs |
| `FilterParser.Parser.Primary` | crates/core/src/filter.rs:593-601 | The same for a parenthesis or a comparison |
| `FilterParser.Parser.Comparison` | crates/core/src/filter.rs:614-690 | The same for one comparison, with every way it can be refused |
| `FilterParser.Parser.ComparisonRhs` | crates/core/src/filter.rs:692-719 | The literal after an operator; `= NULL` is refused |
| `FilterParser.Parser.InList` | crates/core/src/filter.rs:721-762 | The list after IN; an empty one is refused |
| `FilterGrammar.ParserIsTheGrammar` | crates/core/src/filter.rs:568-762 | The parser accepts exactly the token sequences the precedence grammar derives, and reads each as its derivation |
| `FilterGrammar.OrSound` | crates/core/src/filter.rs:568-575 | Whatever is read has a derivation with OR loosest and AND next, both to the left |
| `FilterGrammar.OrComplete` | crates/core/src/filter.rs:568-575 | Every such derivation is found, whatever follows it |
| `FilterGrammar.ComparisonComplete` | crates/core/src/filter.rs:614-762 | Every spelling of a comparison is read, in any letter case |
| `FilterDerivation.PrintedFormIsUnambiguous` | crates/core/src/filter.rs:268-307 | In the grammar where nothing binds tighter than anything, a sequence of tokens derives the printed form if and only if it is the intended derivation, whose tree is the filter |
| `FilterDerivation.OneDerivation` | crates/core/src/filter.rs:268-307 | The printed form has no second derivation |
| `FilterEval.Eval` | crates/core/src/filter.rs:150-191 | The evaluator computes SQL's three-valued meaning; leaving the IN list at the first match changes nothing |
| `FilterEval.Matches` | crates/core/src/filter.rs:79-82 | Only TRUE keeps a row, and only an object can match |
| `FilterComparisons.IntegersCompare` | crates/core/src/filter.rs:116-125 | An integer against an integer literal is TRUE or FALSE under each operator as the integers compare |
| `FilterComparisons.NumericTextsCompare` | crates/core/src/filter.rs:211-217 | A number kept as text compares by its value, signed and with leading zeros, up to 128 bits |
| `FilterComparisons.FloatsCompare` | crates/core/src/filter.rs:227-239 | Against a float literal, a number or a text spelling one compares as floats do, infinities at the ends |
| `FilterComparisons.FloatAgainstInteger` | crates/core/src/filter.rs:227-239 | A float against an integer literal compares with the float nearest the integer |
| `FilterComparisons.TextsCompare` | crates/core/src/filter.rs:245-251 | Text against text under each operator, by the lower character at the first difference or the earlier end |
| `FilterComparisons.BooleansCompare` | crates/core/src/filter.rs:245-261 | FALSE is below TRUE |
| `FilterComparisons.UnknownExactlyWhen` | crates/core/src/filter.rs:245-262 | A comparison is UNKNOWN if and only if the value is absent, NULL or nested, or of a kind the literal does not compare with, or one of the two is NaN |
| `FilterComparisons.ConnectivesAre` | crates/core/src/filter.rs:150-191 | AND, OR and NOT over three values, and IS NULL of what is there |
| `FilterEval.InIsEqualities` | crates/core/src/filter.rs:166-182 | IN is the OR of its equalities and NOT IN the negation of that, with UNKNOWN in play |
| `FilterEval.NotMayBePushed` | crates/core/src/filter.rs:183-191 | De Morgan's laws, double negation and opposite operators hold for every row |
| `FilterEval.SeesOnlyItsColumns` | crates/core/src/filter.rs:150-191 | Rows that agree on the columns named get the same truth value |
| `FilterEval.PrintedFilterMeansTheSame` | crates/core/src/filter.rs:265-269 | However a database ranks the connectives, the printed filter decides every row as the evaluator does |
| `FilterText.ParseFilter` | crates/core/src/filter.rs:47-69 | The filter read, with its columns each once and in order |
| `FilterText.ColumnsDecide` | crates/core/src/filter.rs:65-82 | Rows that agree on `columns()` get the same verdict |
| `FilterText.LexPrinted` | crates/core/src/filter.rs:270-319 | The text printed is cut into exactly the tokens printed |
| `FilterText.RoundTrip` | crates/core/src/filter.rs:270-319 | Printing a filter with plain identifiers and doubled quotes, then reading it, gives the same filter |
| `FilterText.PrintedFilterReadsBack` | crates/core/src/filter.rs:47-87 | Any text the parser accepts, float literals aside, prints to a text it accepts as the same filter |
| `Grouping.Pending.HoldParent` | crates/core/src/children.rs:276-278 | The row joins its table's rows, in order |
| `Grouping.Pending.NameParent` | crates/core/src/children.rs:280-285 | The key joins its table's names unless it is there already |
| `Grouping.Pending.NameThroughKey` | crates/core/src/children.rs:292-300 | The same per through collection |
| `Grouping.Pending.TakeThrough` | crates/core/src/children.rs:307-309 | Hands over every collection's keys and keeps what was seen |
| `Grouping.Pending.Take` | crates/core/src/children.rs:335-340 | Hands over one table's rows and names |
| `Grouping.Pending.Len` | crates/core/src/children.rs:317-321 | Counts held rows plus distinct pending keys |
| `Grouping.Pending.ClearSeen` | crates/core/src/children.rs:342-345 | Forgets what was seen and nothing else |
| `Grouping.KeysNeedingRefetch` | crates/core/src/children.rs:355-361 | Exactly the named keys no held row carries, without repeats |
| `Grouping.RowsStandInOrder` | crates/core/src/children.rs:276-278 | A table's rows are those held of it, a row behind as many as were held before it |
| `Grouping.NamesStandInOrder` | crates/core/src/children.rs:280-285 | Of two names the one first named stands first |
| `Grouping.ThroughStandInOrder` | crates/core/src/children.rs:292-300 | The same of a through collection's keys |
| `Grouping.RefetchInOrder` | crates/core/src/children.rs:355-361 | The keys to re-read stand in the order they were named |
| `Grouping.Collect` | crates/core/src/children.rs:266-300 | Any run of the decoder fills the buffer with the group its operations amount to |
| `Grouping.ResolveThrough` | crates/source/src/runner.rs:648-667 | What was seen ends as what was named or resolved, and held rows stay |
| `Grouping.FlushPending` | crates/source/src/runner.rs:583-639 | A round hands back every held row once and in order, re-reads exactly the wanted keys no row carries, each once, and leaves the buffer as it began |
| `Reload.Classify` | crates/bin/src/reload.rs:371-486 | Reads both files into refusals and edits, removals first |
| `Refusals.JoinsExactlyWhen` | crates/bin/src/reload.rs:470-531 | A section is planned to join if and only if it is new, the source does not poll, it has no children, join, fan-out or aggregates, and no placeholder in its index |
| `Refusals.NewSectionJoinsOrIsRefused` | crates/bin/src/reload.rs:470-531 | A new section that does not join is refused with the restart it takes, and nothing else is said of it |
| `Refusals.LeavesExactlyWhen` | crates/bin/src/reload.rs:448-469 | A section is planned to leave, with its table and index, if and only if the file has dropped it and the source does not poll; where it polls that is what is refused |
| `Refusals.RemovalsComeFirst` | crates/bin/src/reload.rs:448-479 | Whatever leaves leaves before anything joins |
| `Refusals.ChangesAreRefusedByName` | crates/bin/src/reload.rs:542-623 | Nothing is planned for a section both files have; each field that files a row is refused by name if and only if it changed, those that shape a document together where none of the first did, the poll column always |
| `Refusals.SettingIsRefusedExactlyWhen` | crates/bin/src/reload.rs:371-446 | A setting outside the sections is refused if and only if the files differ on it |
| `Reload.PlanIs` | crates/bin/src/reload.rs:448-479 | Every edit is about a key of its own; what leaves is not in the file and what joins was not running |
| `Reload.ApplySections` | crates/bin/src/reload.rs:268-318 | Each edit is tried on what is running then; the ones that failed are the refusals |
| `Reload.AdvancedByWhatTook` | crates/bin/src/reload.rs:268-318 | With any subset failing, the running sections advance by exactly the edits that took |
| `Reload.SameFileAgain` | crates/bin/src/reload.rs:182-187 | The same file again plans exactly the failed edits, in order, with the same refusals |
| `Reload.TwoSectionsExactlyWhen` | crates/bin/src/reload.rs:268-318 | After every prefix of the edits, whatever failed, each table runs through one section if and only if no addition that took names the table of a running section no edit that took touches |
| `Reload.SafeWhenAllTake` | crates/bin/src/reload.rs:448-479 | With nothing failing, no intermediate state routes a table twice if and only if no section that joins names the table of one that stays |
| `Reload.SafeWhateverFails` | crates/bin/src/reload.rs:295-316 | Whatever fails, no intermediate state routes a table twice if and only if no section that joins names the table of any running one |
| `Reload.NeverTwoSections` | crates/bin/src/reload.rs:119-122 | With nothing refused and nothing failed no intermediate state routes a table twice |
| `Reload.FailedRemovalRoutesTwice` | crates/bin/src/reload.rs:295-316 | A failed removal before an addition that took routes a table twice |
| `Reload.RefusedChangeRoutesTwice` | crates/bin/src/reload.rs:470-479 | A refused change of table beside a new section for the old one routes a table twice |
| `Reload.AppliedWhole` | crates/bin/src/reload.rs:268-318 | And the file's sections are what runs at the end |
| `Versions.VersionsFollowTheLog` | crates/bin/src/run.rs:2213-2223 | Over any run, kept starts and failovers included, versions of one generation follow its binlog coordinates |
| `Versions.StartKeepsExactlyWhen` | crates/bin/src/run.rs:2213-2223 | While the numbers fit 64 bits, a start keeps the stored base if and only if no version that base gives from the source's coordinate on is below the stored token; otherwise it opens a generation 2^40 above the token |
| `Versions.PlusIsExactWhileItFits` | crates/bin/src/run.rs:2214-2222 | Sums are exact while they fit 64 bits and stay at the top beyond |
| `Versions.GenerationsGoUp` | crates/bin/src/run.rs:2196-2223 | Over any run whose starts have room, everything written in a later generation is strictly above everything in an earlier one, and a base that stands on `n` openings is at least `n` times 2^40 |
| `Versions.OpeningIsAboveExactlyWhen` | crates/bin/src/run.rs:2213-2223 | A new generation is above all written before if and only if nothing written has reached the stored token plus the margin |
| `Versions.KeepingIsAboveExactlyWhen` | crates/bin/src/run.rs:2213-2216 | A start that keeps the stored base writes at or above all other generations if and only if nothing was written in a later generation than the stored one |
| `Versions.UnstoredGenerationIsForgotten` | crates/bin/src/run.rs:2278-2314 | A run in which a generation lost before its first checkpoint is opened again at the same base, or forgotten by a start that keeps a lower one |

## Left out

- TRUNCATE of a table under the running stream, rejected documents and their quarantine.
- More than one change of a row inside one transaction: a transaction is the last thing it did to each row and its rows reach the event channel in one step.
- A join whose barrier is acknowledged in one attempt and that is admitted in the next: the end of an attempt clears barriers in the model, while in the code the waiting task outlives it.
- The report of publication drift at startup: a restart publishes every configured table silently.
- Poll mode, on-demand re-snapshots, dropping a table from the running stream, and the MySQL loader and GTID positions.
- TOAST completion, key moves, fan-out, join routing, document ids and child collections as the engine files them; rows are keys with an opaque document.
- Parsing of index templates and the check on sections that share one index; a section's target is taken as parsed.
- UTF-8: text is a sequence of characters, and COPY bytes are read as characters.
- Error messages and token offsets: errors are kinds.
- FilterText.RoundTrip: float literals are excluded, because an integral float prints without a fraction and reads back as an integer.
- FilterEval.Eval: what floats do (the nearest float of an integer, the float a text spells) is a parameter.
- FilterParser.Parser.OrExpr: the offsets and spellings an error would name are not kept.
- Grouping.FlushPending: the queries that resolve collections are a parameter and the re-reads themselves are left out; a key stands for its JSON rendering.
- Tombstones.Load: writes of one request may land in any order, where a bulk request applies those of one key in order; `Requests` covers the ordered case.
- Tombstones.LoadedIsTheSource: one attempt from an empty target; a crash and the load resumed after it, with requests of the attempt before still open at a target that forgets tombstones, are not modelled (`Safety` covers crashes at a target that does not).
- Finishes.FinishExactly: for an end behind which no other load's start is already waiting on the channel; such a start would open the window again.
- Recreated.LoadedAgainExactly: for a key with no request open when the slot is created again; one left open may land at any later time. `Recreated.RecreatedSlotExactly` covers it.
- Skipped.StoredDocumentExactly: the same, and until a later start reads the table afresh, its document having been cleared.
- Sharing.TemplatesShareExactlyWhen: for two templates of which one names no column twice; `Sharing.RepeatedColumnsMayShareNothing` shows why, and `Sharing.RowLandsExactlyWhen` needs no such hypothesis.
- Safety.ReleaseImpliesDurable: when a waiting loader is eventually released is not stated.
- Reload.ApplySections: how a section joins or leaves is a parameter saying which edits took, so a join that fails after it has changed the live rules counts as one that changed nothing; settings outside the sections and the log filter are not applied.
- Reload.Classify: map order is given by a list of all keys of both files.
- Versions.VersionsFollowTheLog: that a start keeping its base finds the binlog history that base numbered is a hypothesis of the step.
- Resume.LoadIsDueExactlyWhen: that each table's document is stored under a key of its own is a hypothesis (`Progress.KeysMeet` says when it holds).
- The bounds sampled from the source, rate limits and waiting for slot room: boundaries are any strictly increasing list.
- Pseudonym tokens, connections, metrics, endpoints, the operator and the demo.
