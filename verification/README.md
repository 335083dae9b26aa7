# finesub: a verified model of its protocols

This project models the parts of finesub in which many things happen at once, or in which something must survive a
crash, and proves what they are for. Nothing here runs the original program; the statements are about the model, and
each names the source lines it models.

| part | modules |
|---|---|
| the three-bin batch runner: download, asr and llm workers, an intake thread, stop markers, drops, interrupts | `LlmScheduling`, `BatchModel`, `BatchCounts`, `BatchInvariant`, `BatchCalm`, `BatchMoves`, `BatchRuns`, `BatchSafety`, `BatchLiveness`, `BatchStatus`, `BatchVerdict`, `BatchRaces`, `BatchStages`, `BatchOrder` |
| detecting and collapsing repeats in words, segments and symbol sequences | `WordPowers`, `RepeatUnit`, `TandemRepeats`, `RepeatSpan`, `SegmentText`, `SegmentCollapse`, `GroupCycle` |
| the `.env` envelope: cutting, sealing in place, reading back | `PyText`, `Base64Url`, `Envelope`, `EnvParts`, `EnvSpans`, `EnvReveal`, `EnvLines`, `EnvSeal`, `EnvReparse`, `EnvProtect`, `EnvRepeat`, `EnvStale`, `EnvRead` |
| intake of appended lines, the control channel's cursor and view, the book of outputs | `LineIntake`, `ControlChannel`, `OutputClaims` |
| leases, barriers and the runtime swap between processes; moving the big data | `ActivityLease`, `Relocation` |
| shared | `Wrappers`, `Decimal` |

The batch runner is a transition system: every thread has a program counter, and a step is one section under a lock or
one unlocked read or write of shared state. A stage call succeeds or fails, an interrupt comes, a poll brings whatever
it brings. The leases and the control channel are transition systems too, with any number of processes and a crash
between any two steps. What the source does with loops over lists, offsets or fields is a method with that loop, proved
against a function whose own properties are the lemmas below.

Seven results say where the code does not do what one might read into it; each is an equivalence or comes with the run
that shows it:

* `BatchRaces.FinalIffLlmOnly`: a drop reads status, stage and dispatch in turn while other threads write `failed` and
  `done` without its lock, so a verdict can be overwritten by `skipped`, on a run for every set of stages but `{llm}`.
  `BatchVerdict.VerdictIsFinal` is the guarantee when nothing comes between the drop's reads and its writes.
* `BatchSafety.EndsUnlessItDies`: a closed batch that cannot go on has ended exactly when its intake thread did not die
  while it admitted an item. The log write there may raise (`src/finesub/scheduler.py:758-766`) after the scheduler has the
  item and before it is queued; the intake is then closed with an item that is nowhere, and the asr and llm workers wait
  forever, whatever `src/finesub/scheduler.py:848-850` intends.
* `BatchSafety.EmptyBatchStarts`: a batch given nothing starts its threads exactly when its stop markers fit the queue.
* `ControlChannel.WithdrawnComesBackIff`: after a crash a task withdrawn in the view can come back exactly when its line
  is not behind the cursor on disk; `ControlChannel.WithdrawnTaskCanComeBack` is such a run.
* `Relocation.Mover.Relocate`: a directory is found complete at every crash point of a move exactly when it `Survives`: it
  is at the destination already; or there is none of its name there, it is found at the root in use rather than at the
  source of an interrupted move, and the location record is valid, or names that destination together with a root
  that holds it. `Relocation.AfterInterruptedMove` and `MoveAfterInterruptedMove` say what this means after an
  interrupted move: a move on to a third root loses what was still at the first. The note that running `relocate` again
  finishes the move (`src/finesub_bootstrap/paths.py:292`) does not hold: to the same destination it does nothing
  (`src/finesub_bootstrap/shell.py:1146`).
* `EnvStale.ProtectTwiceStale`: when a keyring from elsewhere was replaced or dropped, a second protection changes nothing
  exactly when values stood in the clear and the note did not swallow the new keyring, or no stale keyring line comes
  behind it. The note swallows it when it stands right before it on a line that ends in none of carriage return and newline
  but in another character that `str.splitlines` takes for an end: rewritten (`src/finesub_bootstrap/secrets.py:769`)
  the note has no end of its own.
* `RepeatUnit.CollapseIsIdempotent`: collapsing a word twice is collapsing it once for all thresholds, not only for
  those where fewer repeats are kept than are looked for.

## Model

| member | source | states |
|---|---|---|
| LlmScheduling.DispatchOrder | src/finesub/scheduler.py:183-302 | over every run of calls, with items added and re-ranked at any moment, nothing is handed out twice, group members come in submission order and wait for each other, and the log is what was dispatched |
| LlmScheduling.OneRunnerPerGroup | src/finesub/scheduler.py:263-273 | two members of one group are never in their llm stage together |
| LlmScheduling.BestExists | src/finesub/scheduler.py:280-300 | among candidates there is always one that outranks all others by priority, cost and earliest index |
| LlmScheduling.BestIsUnique | src/finesub/scheduler.py:288-295 | and only one |
| LlmScheduling.BestLeads | src/finesub/scheduler.py:288-295 | the best candidate has no lower priority than another, among equals costs no less, and among those was submitted first |
| LlmScheduling.IdleSchedulerHasCandidate | src/finesub/scheduler.py:263-287 | when nothing runs, the least item not handed out can be, once it is ready |
| LlmScheduling.SoloGroupIsPrivate | src/finesub/scheduler.py:207 | an ungrouped item is alone in its group exactly unless another spells its made-up group name out |
| LlmScheduling.DispatchedValid | src/finesub/scheduler.py:296-300 | handing out a best candidate keeps: one runner per group, submission order, nothing running that was not handed out |
| LlmScheduling.FinishedValid | src/finesub/scheduler.py:257-261 | so does finishing an item |
| LlmScheduling.AddedValid | src/finesub/scheduler.py:218-226 | so does a late item |
| LlmScheduling.Scheduler.constructor | src/finesub/scheduler.py:199-216 | the new scheduler has every group and priority and nothing handed out |
| LlmScheduling.Scheduler.AddItem | src/finesub/scheduler.py:218-226 | the new index is the number of items before, its group key is its own when ungrouped, and nothing else changes |
| LlmScheduling.Scheduler.Rerank | src/finesub/scheduler.py:228-239 | one priority changes and nothing else |
| LlmScheduling.Scheduler.IsDispatched | src/finesub/scheduler.py:241-243 | true exactly for an item that was handed out |
| LlmScheduling.Scheduler.CloseDoor | src/finesub/scheduler.py:245-250 | no more items will come, and nothing else changes |
| LlmScheduling.Scheduler.SubmitItem | src/finesub/scheduler.py:252-255 | the item is ready at its cost |
| LlmScheduling.Scheduler.FinishItem | src/finesub/scheduler.py:257-261 | the item is finished and its group free |
| LlmScheduling.Scheduler.IsEligible | src/finesub/scheduler.py:263-273 | true exactly when the group is free and all its earlier members are finished |
| LlmScheduling.Scheduler.FindBest | src/finesub/scheduler.py:282-295 | none exactly when there is no candidate, otherwise the one that outranks every other |
| LlmScheduling.Scheduler.NextItem | src/finesub/scheduler.py:275-302 | over exactly when closed and all handed out; hands out the best candidate with its sequence number and cost, or changes nothing |
| BatchRuns.StepKeeps | src/finesub/scheduler.py:354-869 | every step of every thread keeps the whole invariant: places, counters, scheduler, markers, locks, queue bound |
| BatchRuns.RunKeeps | src/finesub/scheduler.py:354-869 | so it holds in every state of every run |
| BatchRuns.InitKeeps | src/finesub/scheduler.py:440-452 | and at the start |
| BatchMoves.RefillOneKeeps | src/finesub/scheduler.py:594-618 | putting a drained entry back under its new key keeps it |
| BatchMoves.TakeAsrKeeps | src/finesub/scheduler.py:636-642 | taking an entry from the queue keeps it, stop markers coming last |
| BatchMoves.AdmitKeeps | src/finesub/scheduler.py:752-757 | admitting an item to a running batch keeps it |
| BatchMoves.CloseIntakeKeeps | src/finesub/scheduler.py:679-689 | closing the intake keeps it, the markers being announced at most once |
| BatchInvariant.NoMarkersWhileOpen | src/finesub/scheduler.py:552-565 | while the intake is open there is no stop marker anywhere and no worker has left |
| BatchInvariant.HandIsExclusive | src/finesub/scheduler.py:628-661 | an item in a worker's hand is in no other place |
| BatchInvariant.MarkerAtHead | src/finesub/scheduler.py:65-66 | a priority queue serves a stop marker only when no item is queued |
| BatchSafety.OnePlaceEach | src/finesub/scheduler.py:571-677 | in every state of every run each admitted index is in exactly one place, one of them being lost by an intake thread that died, and no other index anywhere |
| BatchSafety.CountersAreCounts | src/finesub/scheduler.py:620-677 | `forwarded_to_asr` and `completed_items` equal what they count, an item that was lost never being forwarded |
| BatchSafety.SchedulerMatchesItems | src/finesub/scheduler.py:752-757 | scheduler indices are item indices, with their groups and priorities, but for the item being admitted or re-ranked at this moment |
| BatchSafety.RunAgrees | src/finesub/scheduler.py:741-744 | a priority given to an item is the one the scheduler has once the action is over |
| BatchSafety.OneMarkerEach | src/finesub/scheduler.py:552-569 | no asr stop marker before the announcement, afterwards exactly one per worker |
| BatchSafety.AnnouncedForGood | src/finesub/scheduler.py:552-565 | the announcement stays made and no item is added after it |
| BatchSafety.MarkerComesLast | src/finesub/scheduler.py:636-640 | a worker that takes a marker leaves no item queued, in a rekeying hand, or still to come |
| BatchSafety.RekeyIsSafe | src/finesub/scheduler.py:594-618 | while the queue is re-sorted no marker exists, the lock is held, and the drained entries fit back |
| BatchSafety.DrainedMeansOver | src/finesub/scheduler.py:822-834 | when the intake sees the batch drained every item is finished and has a verdict |
| BatchSafety.DrainedIsOver | src/finesub/scheduler.py:822-834 | an intake that closes because the batch is drained does so only then |
| BatchSafety.EndedMeansJudged | src/finesub/scheduler.py:662-677 | when all threads have left every item has a verdict and is in no stage |
| BatchSafety.StuckMeansEnded | src/finesub/scheduler.py:836-869 | a run that cannot go on, but by an interrupt, has ended, with every item judged, exactly when no item was lost |
| BatchSafety.EndsUnlessItDies | src/finesub/scheduler.py:752-766 | that is, exactly when the intake thread never died between giving an item to the scheduler and queueing it |
| BatchSafety.LostIff | src/finesub/scheduler.py:847-854 | an item is lost exactly on the runs on which that has happened |
| BatchSafety.EmptyBatchStarts | src/finesub/scheduler.py:840-845 | a batch without items and intake starts its threads exactly when its markers fit the asr queue |
| BatchLiveness.NoDeadlock | src/finesub/scheduler.py:552-689 | with the intake closed and no item lost some thread can move until the batch has ended, whatever queues and locks look like |
| BatchLiveness.Terminates | src/finesub/scheduler.py:552-689 | and from then on a run is no longer than a number read off the state |
| BatchLiveness.StepDrops | src/finesub/scheduler.py:462-689 | every step, interrupts and retries too, brings the closed batch nearer its end |
| BatchLiveness.GoneMeansEnded | src/finesub/scheduler.py:644-677 | when every thread has left, every queue is empty and every item finished and counted |
| BatchStatus.RunStatus | src/finesub/scheduler.py:462-550 | in every state of every run records and threads agree: a stage is set exactly while a thread is in it, `done` only for finished items |
| BatchStatus.ClaimStageStatus | src/finesub/scheduler.py:472-481 | claiming a stage keeps that |
| BatchStatus.WriteDoneStatus | src/finesub/scheduler.py:664-668 | so does marking an item done without the lock |
| BatchStatus.DropWritesStatus | src/finesub/scheduler.py:726-728 | so does accepting a drop |
| BatchVerdict.VerdictIsFinal | src/finesub/scheduler.py:711-737 | if nothing comes between a drop's reads and writes, or the item has only an llm stage, its first verdict is its last |
| BatchVerdict.DropIsEarned | src/finesub/scheduler.py:719-728 | then a drop is accepted only for a pending, resting item no llm worker has started or finished |
| BatchVerdict.DroppedIsOut | src/finesub/scheduler.py:472-475 | whatever the interleaving, a dropped item is in no stage and no thread runs one of its stages |
| BatchVerdict.DroppedForGood | src/finesub/scheduler.py:719-728 | once a drop was accepted no stage of the item is entered for the rest of the run, and a recorded drop stays recorded |
| BatchVerdict.OnlyPendingStarts | src/finesub/scheduler.py:472-481 | a stage is entered only for a pending item that is in no other stage and was not dropped, and not after an interrupt |
| BatchVerdict.StepIsSafe | src/finesub/scheduler.py:462-728 | what a thread about to write a verdict has read stays true over every other step |
| BatchStages.DoneIsEarned | src/finesub/scheduler.py:488-523 | on every run an item is `done` only after every stage it has has succeeded in the hands of a worker of that bin |
| BatchStages.TriedAgain | src/finesub/scheduler.py:488-546 | a stage call that raises is tried again; a stage is left without success only after as many raises as there are attempts, or a raise with an interrupt set, and the item has then failed |
| BatchStages.VerdictHasCause | src/finesub/scheduler.py:462-546 | every verdict was given by a step that is a cause of just it: the last raise, a drop, an interrupt before a stage, or the end of the item |
| BatchOrder.UrgentAsrFirst | src/finesub/scheduler.py:434-439 | an asr worker takes a marker only when no item is queued, and then one of the highest priority, of equals the one queued first; this holds of every item that was given no new priority, or since whose last new one the queue was re-sorted with no worker about to queue the item |
| BatchOrder.RekeyedIsCurrent | src/finesub/scheduler.py:594-618 | re-sorting gives an entry the priority its item has now and leaves it its place among equals |
| BatchOrder.UrgentLlmFirst | src/finesub/scheduler.py:275-302 | on every run what an llm worker is handed leads all it might have been handed, by priority, cost and place |
| BatchRaces.FinalIffLlmOnly | src/finesub/scheduler.py:464-466 | verdicts on items with these stages are final on every run exactly when the stages are the llm stage alone |
| BatchRaces.FailUnderDrop | src/finesub/scheduler.py:525-546 | the run that turns `failed` into `skipped` |
| BatchRaces.RaceWithoutStages | src/finesub/scheduler.py:666-668 | the run that turns `done` into `skipped` |
| BatchRaces.LlmOnlyIsFinal | src/finesub/scheduler.py:472-481 | items with only an llm stage have no such run |
| WordPowers.EqualPowersShareRoot | src/finesub/text.py:466-486 | words with a power in common have the same primitive root |
| WordPowers.RootIsUnique | src/finesub/text.py:466-486 | a word is a power of one primitive word only |
| WordPowers.RootIsPrimitive | src/finesub/text.py:466-486 | the word up to its smallest rotation is primitive |
| WordPowers.UnitsArePowersOfRoot | src/finesub/text.py:480-485 | every unit of a word is a power of its root |
| WordPowers.SmallestTurnDivides | src/finesub/text.py:466-486 | the smallest rotation that leaves a word as it is divides every other |
| RepeatUnit.CollapseExactRepeatingUnit | src/finesub/text.py:466-486 | the loop over unit lengths finds exactly the root: the word collapses when the root is short and repeats often enough |
| RepeatUnit.CollapsedIff | src/finesub/text.py:466-486 | a word collapses exactly when some unit of at most 100 characters repeats more than looked for, and then to the copies kept of the shortest such unit |
| RepeatUnit.CollapseIsIdempotent | src/finesub/text.py:466-486 | a second collapse gives the same word, for all thresholds, and says when it reports a change |
| RepeatUnit.CollapseKeepsRoot | src/finesub/text.py:484-485 | the collapsed word has the same root, and is no longer when no more is kept than would be noticed |
| TandemRepeats.CountCopies | src/finesub/text.py:587-595 | the counting loop finds the number of consecutive copies |
| TandemRepeats.CopiesIsLargest | src/finesub/text.py:587-595 | which is the largest k for which k copies stand there |
| RepeatSpan.FindExactRepeatingTextSpan | src/finesub/text.py:561-607 | none exactly when no motif of at most 100 characters repeats more than both thresholds, otherwise the one that beats all |
| RepeatSpan.ChosenIsUnique | src/finesub/text.py:599-606 | the order of preference leaves no ties |
| RepeatSpan.ChosenTakesMost | src/finesub/text.py:599-606 | what is chosen takes out most; among equals it has most repeats, then stands first, then is shortest |
| RepeatSpan.FoundMotifIsPrimitive | src/finesub/text.py:599-606 | the motif found is itself no repeat |
| RepeatSpan.NoExcessIff | src/finesub/text.py:561-607 | no candidate for the loop means no excess repeat anywhere, and the other way round |
| SegmentText.SegmentTextAndWordSpans | src/finesub/text.py:539-558 | the text of the segment and the place of each word in it, every word standing there as it is |
| SegmentText.MinConfidenceIsLeast | src/finesub/text.py:431-441 | the least confidence present, missing only when all are |
| SegmentText.MinConfidenceConcat | src/finesub/text.py:431-441 | merging in steps gives the least confidence of all |
| SegmentCollapse.CollapseRepeatingSegmentWords | src/finesub/text.py:610-678 | the loop ends with no excess repeat left; every pass puts as many copies as are kept in the place of the best repeat and loses nothing else but white space; its words stand for consecutive blocks of the input, and it changes nothing exactly when there was nothing to collapse |
| SegmentCollapse.MergeRepeat | src/finesub/text.py:638-677 | one pass replaces exactly the words the repeat touches by one stripped word; white space aside the new text is the old one with as many copies as are kept in the place of the repeat, and it is a shorter subsequence |
| SegmentCollapse.AffectedSurround | src/finesub/text.py:638-648 | some word is always touched, and the touched words lie around the repeat |
| SegmentCollapse.MergedPiece | src/finesub/text.py:647-652 | the text shrinks although stripping may take off a separator that is put back |
| SegmentCollapse.CopiesLeft | src/finesub/text.py:646-652 | stripping the merged text and joining it to its neighbours loses and adds white space only |
| SegmentCollapse.PartitionMerged | src/finesub/text.py:653-677 | blocks stay consecutive, non-empty, with the first start and spacing, the last end and the least confidence |
| SegmentCollapse.PassShrinks | src/finesub/text.py:647-677 | the new text is a shorter subsequence of the old |
| GroupCycle.DetectRepeatingGroupCycle | src/finesub/text.py:351-404 | a cycle is reported exactly when some repetition meets both thresholds, with the shortest motif and then the earliest start |
| GroupCycle.FirstMeets | src/finesub/text.py:383-404 | the cycle reported meets both thresholds, its motif is short enough, and its copies stand there and not one more |
| GroupCycle.NoCycleMeans | src/finesub/text.py:351-404 | when none is reported every short motif that repeats often enough weighs too little |
| GroupCycle.SumOfSymbols | src/finesub/text.py:383-396 | a stretch weighs what its symbols weigh |
| GroupCycle.LargestWillDo | src/finesub/text.py:383-396 | if any number of repeats from a start will do the largest will |
| GroupCycle.NoLonger | src/finesub/text.py:375-378 | motifs beyond the tried lengths are never cycles |
| Base64Url.RoundTrip | src/finesub_bootstrap/secrets.py:94-99 | decoding what was encoded gives it back |
| Envelope.OpenSealed | src/finesub_bootstrap/secrets.py:358-385 | a sealed value is a token and opens to what was sealed |
| Envelope.OpensOnlyAuthentic | src/finesub_bootstrap/secrets.py:364-385 | a token opens only when it carries the tag of what it carries |
| Envelope.UnwrapWrapped | src/finesub_bootstrap/secrets.py:306-347 | a keyring line opens where it was written, and an obfuscated one everywhere |
| Envelope.UnwrapsMasters | src/finesub_bootstrap/secrets.py:306-338 | what a keyring line opens to has the length of a master key, and an account-bound one opens only where the account is |
| Envelope.XorTwice | src/finesub_bootstrap/secrets.py:102-103 | hiding twice is not hiding |
| EnvLines.ParseLines | src/finesub_bootstrap/secrets.py:406-418 | the loop over lines is the parse of each |
| EnvLines.ParseJoin | src/finesub_bootstrap/secrets.py:773-774 | parsing and joining is the identity on every text |
| EnvLines.JoinParse | src/finesub_bootstrap/secrets.py:406-418 | and lines that stay apart come back from their text |
| EnvSpans.TrimSpan | src/finesub_bootstrap/secrets.py:421-426 | the two loops find the stripped middle |
| EnvSpans.ValueSpans | src/finesub_bootstrap/secrets.py:435-471 | the offsets are those of the values of scalars, quoted values, `{}` and containers |
| EnvSpans.SpansInOrder | src/finesub_bootstrap/secrets.py:435-471 | sorted, disjoint, in bounds, and enclosing exactly the values |
| EnvParts.RhsWeave | src/finesub_bootstrap/secrets.py:435-471 | the literal parts and the values make up the right-hand side |
| EnvParts.RhsRescan | src/finesub_bootstrap/secrets.py:435-471 | looking again with tokens in the place of values finds exactly those tokens between the same literals |
| EnvParts.RhsValues | src/finesub_bootstrap/secrets.py:435-471 | a right-hand side in braces has the values of its items, `{}` the one empty value, any other one value or none when blank |
| EnvParts.UnquotedIs | src/finesub_bootstrap/secrets.py:429-432 | paired quotes come off once and nothing else does |
| EnvParts.ItemsValues | src/finesub_bootstrap/secrets.py:435-471 | commas set the items of a container apart |
| EnvParts.ItemValue | src/finesub_bootstrap/secrets.py:435-471 | the value of an item is what stands behind its first colon, or the item |
| EnvReveal.RevealSealed | src/finesub_bootstrap/secrets.py:560-568 | the reader's pattern finds exactly the sealed tokens, and reading gives the right-hand side back |
| EnvReveal.RhsSeparated | src/finesub_bootstrap/secrets.py:435-471 | no value is ever next to a character that could extend a token |
| EnvSeal.SealLine | src/finesub_bootstrap/secrets.py:727-743 | every value in the clear is sealed in place and nothing else in the line changes; it gives up only on an unlawful machine |
| EnvSeal.SealValues | src/finesub_bootstrap/secrets.py:730-741 | replacing spans from right to left is replacing the values |
| EnvSeal.IsExposed | src/finesub_bootstrap/secrets.py:668-673 | true exactly when a value of the line does not begin like a token |
| EnvReparse.SealedReplaces | src/finesub_bootstrap/secrets.py:727-743 | a sealed line parses as what it is and ends where the old one did |
| EnvReparse.SealedIsNotExposed | src/finesub_bootstrap/secrets.py:665-675 | and nothing in it stands in the clear: each of its values begins like a token |
| EnvProtect.ProtectText | src/finesub_bootstrap/secrets.py:636-748 | which keyring is used, replaced, dropped or added, when the text is left alone, and that every line is sealed |
| EnvProtect.SealAll | src/finesub_bootstrap/secrets.py:726-743 | the loop over lines seals each |
| EnvProtect.FindKeyring | src/finesub_bootstrap/secrets.py:647-650 | the first keyring line |
| EnvProtect.HasCrLfIff | src/finesub_bootstrap/secrets.py:645 | added lines end in carriage return and newline exactly when the text has that pair somewhere |
| EnvRepeat.ProtectTwice | src/finesub_bootstrap/secrets.py:636-748 | protecting a protected text changes nothing, whatever its line ends, when its keyring opens or it has none |
| EnvStale.ProtectTwiceStale | src/finesub_bootstrap/secrets.py:677-771 | after a keyring from elsewhere was replaced or dropped, for all texts: a second protection changes nothing exactly when values stood in the clear and the note did not swallow the keyring, or the next keyring line, if any, opens |
| EnvStale.RebuiltFinds | src/finesub_bootstrap/secrets.py:702-715 | the text with a new keyring is read back with that keyring, unless the note swallowed it, and with nothing in the clear |
| EnvStale.DroppedFinds | src/finesub_bootstrap/secrets.py:694-699 | the text without the stale keyring is read back with the next one, if any, whatever the line ends around it |
| EnvStale.MergedParse | src/finesub_bootstrap/secrets.py:406-418 | of lines that stay apart but for one place the text has the two lines there as one, and the others as they were |
| EnvRepeat.SealedSettled | src/finesub_bootstrap/secrets.py:727-748 | sealed lines are the lines of their text |
| EnvRead.ReadEnvFile | src/finesub_bootstrap/secrets.py:537-578 | a name has a value exactly when some line sets it and opens under the text of the last keyring line, and the value is what the last such line opens to |
| EnvRead.ReadingIs | src/finesub_bootstrap/secrets.py:537-578 | the lines read one after the other give just that |
| EnvRead.PlainOpens | src/finesub_bootstrap/secrets.py:560-568 | a line in which nothing looks like a token opens to its stripped right-hand side, whatever the keyring |
| EnvRead.ProtectedReadsTheSame | src/finesub_bootstrap/secrets.py:537-578 | a text without keyring and without anything that looks like a token reads the same after protection |
| EnvRead.SealedReads | src/finesub_bootstrap/secrets.py:560-568 | a sealed line reads as the line did |
| LineIntake.StreamingIsBatch | src/finesub/pipeline.py:846-886 | however a file grows and is polled, also when readings fail, the polls hand over the items and actions of one reading of the whole file, each line that asks for one giving it, once and in order |
| LineIntake.Intake.PollAll | src/finesub/batch_state.py:441-485 | the polls of a run, one after the other, hand over just what the lines behind the cursor ask for, line by line in order, and leave the cursor behind the last line |
| LineIntake.SnapshotGoesOn | src/finesub/pipeline.py:753-763 | the lines before the startup cursor are those the startup reading saw, the last perhaps longer, so no line appended later is skipped |
| LineIntake.TailIsNeverHanded | src/finesub/pipeline.py:851-857 | an unterminated tail is never handed over, and counts as unseen exactly when the cursor has not passed it |
| LineIntake.GrowingKeepsLines | src/finesub/pipeline.py:851-852 | lines read once stay the same lines |
| LineIntake.Intake.PollFile | src/finesub/batch_state.py:441-485 | there is an ascending sequence of the new lines that ask for an item, all of them, and the items are those asked for there, likewise the actions; the cursor never moves back; settled exactly without an unseen tail, a commit offered exactly when lines are unretired |
| LineIntake.Intake.Commit | src/finesub/batch_state.py:432-439 | the cursor on disk is the read cursor, or nothing changes |
| LineIntake.Intake.constructor | src/finesub/batch_state.py:423-424 | an unreadable or absurd cursor counts as none |
| ControlChannel.NoTaskIsLost | src/finesub/batch_state.py:389-503 | wherever a run is cut off, a resumed process has every accepted task or will still read it |
| ControlChannel.TasksGetIn | src/finesub/batch_state.py:441-503 | a process with nothing in its way takes in every task line there is: none is refused, all are in the view on disk, and every line is retired |
| ControlChannel.RunSafe | src/finesub/scheduler.py:799-819 | the cursor on disk never passes a task line unless it was refused or withdrawn or its row is in the view on disk |
| ControlChannel.NextPollRetires | src/finesub/scheduler.py:803-819 | lines a failed publish left are retired by the next poll that goes through, though it brings nothing |
| ControlChannel.CursorMovesForward | src/finesub/batch_state.py:432-439 | the cursor on disk never moves back |
| ControlChannel.WithdrawnComesBackIff | src/finesub/batch_state.py:376-439 | after a crash some continuation that reads the cursor brings a withdrawn task back exactly when its line is not behind the cursor on disk, and one that cannot read it always may |
| ControlChannel.GoneForGood | src/finesub/batch_state.py:376-386 | a task withdrawn behind the cursor stays so over every continuation with crashes in it, as long as the cursor is read |
| ControlChannel.WithdrawnTaskCanComeBack | src/finesub/scheduler.py:799-802 | a run in which one comes back, since the actions of a poll are applied before its items |
| OutputClaims.Book.constructor | src/finesub/pipeline.py:970-974 | an empty book |
| OutputClaims.Book.Build | src/finesub/pipeline.py:1090-1103 | a row is built exactly when its source is new, its roots are free and nothing fails, and it then holds the roots of its own paths; otherwise sources and roots are exactly as before |
| OutputClaims.RootsHoldPaths | src/finesub/pipeline.py:1069-1087 | the roots of a row contain its subtitle and its artifact directory, or the one it names when the destination is not known yet |
| OutputClaims.Book.Claim | src/finesub/pipeline.py:1028-1052 | the same of the claiming block, a label given being kept |
| OutputClaims.Book.ClaimPaths | src/finesub/pipeline.py:1054-1067 | succeeds exactly when no root is another's, and never takes one away |
| OutputClaims.Book.ClaimSource | src/finesub/pipeline.py:989-1001 | a source runs once |
| OutputClaims.Book.UniqueLabel | src/finesub/pipeline.py:1003-1026 | a label no other item has: the name, with its directory, or with the first free number |
| OutputClaims.Book.ClaimDownload | src/finesub/pipeline.py:1186-1195 | the claim made after a download keeps the book |
| OutputClaims.FirstFree | src/finesub/pipeline.py:1019-1024 | the search for a number ends |
| OutputClaims.NoSharedRoot | src/finesub/pipeline.py:944-968 | no two items ever hold one subtitle path or artifact directory, or share a label |
| OutputClaims.TakenRoots | src/finesub/pipeline.py:980-987 | taking roots changes no one else's |
| ActivityLease.RunsAndBarriersExclude | src/finesub_bootstrap/locks.py:389-445 | with any processes and crashes, while one is in a barrier body no process holds the lease of a run, and no other is in a barrier or the swap |
| ActivityLease.MovedAsideAlone | src/finesub_bootstrap/environment.py:1147-1170 | the runtime is moved aside only while no other process holds a run's lease |
| ActivityLease.HeldFileIsNeverDeleted | src/finesub_bootstrap/locks.py:364-386 | no step deletes the lease file of a run that holds it |
| ActivityLease.RunningIsAlwaysSeen | src/finesub_bootstrap/locks.py:300-323 | the lease of a run is seen as held, however many look at it |
| ActivityLease.CrashedLeaseIsOver | src/finesub_bootstrap/locks.py:364-419 | after a crash no process ever holds the crashed run's lease as a run again; a lock on it is someone looking |
| ActivityLease.BarrierGetsIn | src/finesub_bootstrap/locks.py:364-445 | lease files nobody holds keep no barrier out: it gets in on its own and sweeps them away |
| ActivityLease.RunGetsIn | src/finesub_bootstrap/locks.py:389-419 | with the gate free a run gets in on its own, with a lease of its own that is held and has its file |
| ActivityLease.RunGetsOut | src/finesub_bootstrap/locks.py:389-419 | and ends leaving neither lock nor file |
| ActivityLease.SwapGetsIn | src/finesub_bootstrap/environment.py:1147-1170 | the swap gets to move when the gate is free and no lease is held but its own |
| ActivityLease.StepInv | src/finesub_bootstrap/locks.py:349-445 | every step keeps gate, locks, ids and what the gate's holder has found out |
| ActivityLease.FoundAlone | src/finesub_bootstrap/environment.py:381-396 | who has counted no lease but its own is alone |
| Relocation.Mover.MoveDirectory | src/finesub_bootstrap/fsops.py:295-339 | skipped exactly when there is nothing to move or data at the destination; else on one volume always placed with the source gone, across volumes exactly when the copy does not go wrong; at every moment the destination is as it was, absent or complete, and the source whole until it is complete |
| Relocation.Mover.CopyIn | src/finesub_bootstrap/fsops.py:326-339 | across volumes a copy is compared before it gets its name, and a failed one leaves no trace |
| Relocation.Mover.MoveTree | src/finesub_bootstrap/fsops.py:401-431 | moves exactly when the destination is free and the copy does not go wrong; never a moment without a whole copy; the source goes last |
| Relocation.Mover.MoveStore | src/finesub_bootstrap/fsops.py:377-398 | every directory that survives is found as a complete copy at every moment of the move |
| Relocation.Mover.Relocate | src/finesub_bootstrap/shell.py:1174-1213 | from any disk: a directory with data is found complete at every crash point exactly when it survives; it finishes exactly when no copy it needs goes wrong, with each directory moved and its source gone, and the move forgotten |
| Relocation.Mover.RemoveLeftovers | src/finesub_bootstrap/shell.py:1199-1200 | when what was copied is removed at the source nothing that survives is ever missing |
| Relocation.Mover.EnsureStore | src/finesub_bootstrap/paths.py:298-365 | the mark is made first, and a valid record kept |
| Relocation.RecordedFound | src/finesub_bootstrap/paths.py:262-295 | while the move is on record each surviving directory is found where it is |
| Relocation.EarlyTrace | src/finesub_bootstrap/paths.py:298-365 | up to the record of the move what survives is found, and what does not is lost at one of the steps |
| Relocation.AfterInterruptedMove | src/finesub_bootstrap/paths.py:262-295 | a directory an interrupted move left at its source survives the next move exactly when that goes back to the source |
| Relocation.MoveAfterInterruptedMove | src/finesub_bootstrap/shell.py:1185-1198 | the disk on which a second move, to another root, leaves the directory where nothing points |
| Relocation.ClearedFound | src/finesub_bootstrap/paths.py:368-378 | when the move is forgotten everything that survived is at the destination |
| Decimal.NumeralInjective | src/finesub/scheduler.py:207 | different numbers print differently |

## Left out

- What a stage does (audio, recognition, language models): a stage call succeeds or fails.
- Status lines, logs, reporters, summaries and the wording of comments and errors; the names of sealed variables that protection reports.
- Real hashes, the account-bound wrapping and UTF-8: parameters with the inverse laws they are used for. Nothing is claimed about secrecy.
- Polling loops and time: waiting is a step that is not enabled, timeouts of locks are a process giving up, retry pauses take no time.
- Control actions by label: a drop or a new priority names an item directly; the order of the actions of one poll is any order.
- What a poll of the running batch brings: any items and actions in any order; the limit on unsettled polls is one of the reasons the intake can close for.
- A second interrupt, which leaves the process.
- Collapsing runs of similar characters, and cutting a text into symbols and weights: Unicode tables.
- Lone surrogates in texts.
- Base64 of keyring lines a user has damaged: characters outside the alphabet count as unreadable here, the library would skip them.
- `update_env_file`, `env_status` and the display of entries: they reuse the parser and the protection proved here.
- Per-process caches of master keys: opening is a function of the keyring line.
- JSON: what a line asks for is a function of the line; a refused task line is refused whatever the reason.
- Merging several intakes into one: their items in turn, settled when all are.
- Manifest rows and options other than source, output and artifact directory.
- The lock of a worker that predates leases, which the barrier probes once.
- Removal of the copied source that fails half-way, unplugged volumes, and directory links inside the moved trees.
- Removals of lease files that fail: the sweep goes on past them, here each succeeds.
- The rollback of the runtime swap after a failed rename.
- BatchLiveness.NoDeadlock: relies on log writes of workers that never raise; a raising one ends the worker's thread.
- The atomicity of a `claiming` block against a `claim_paths` for the same source: the book's methods are taken one at a time.
- Checks of a relocation's destination, and the barrier that keeps everyone else out while it moves.
- OutputClaims.Book.Claim: does not take a label back when the build fails after giving it, because the source does not.
- Relocation.Mover.CopyIn: a copy counts as complete when files and bytes agree, because that is what the source compares.
