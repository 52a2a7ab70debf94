# Verified models of RepoForge's exact-evidence core

RepoForge promises "exact evidence": an agent that repeats a call, resumes a page, or selects tests
gets neither less nor more than what really happened.  This project models the code behind that
promise in Dafny and proves what it keeps, over all inputs, all runs and all interleavings.

* **The exactly-once effect protocol** (`Outcomes`, `EffectMachine`, `StoreInvariant`, `AtMostOnce`,
  `StartupSoundness`, `WriteOrder`, `Replay`, `Provenance`, `MatchingRecords`, `CallWrites`, `CallOutcome`,
  `IdempotentCall`).  `execute_idempotent`,
  `execute_with_outcome_receipt` and `PublicationCoordinator.execute` write an idempotency record, a
  receipt, an operation task and a result.  The model is a step machine for one key: one step is one
  durable write, one event inside the operation, one deciding read, or an action of the environment
  (time, death of the process between any two writes, the reads and writes of the start-up reconciler,
  any other actor that saves a task).  `Traces` holds pieces of concrete runs; `IdempotentCall` is a
  whole call as a loop.
* **Which undecided keys can still be completed, and which are called again** (`ProbedRetry`,
  `CompletableKeys`, `HopelessKeys`, `Continuations`, `PassRuns`, `ReclaimedKeys`, `Completion`,
  `LostKeys`, `StaleRetries`).
* **Start-up reconciliation as a pass** (`ReconcilePass`, `SettledStores`, `PoisonedPass`,
  `HonestProbes`): the loop over a page of receipts with its five counters.
* **Resumable paging** (`Transport`, `Rendering`, `BatchRead`, `BatchErrors`, `BatchPages`, `SearchMatches`,
  `SearchMeaning`, `SearchPages`, `Pagination`, `Base64`, `Cursors`, `Ordering`): pages under byte, count and deadline budgets refine
  the unpaged result; cursors undo themselves and are bound to their request.
* **Fail-closed test selection** (`Glob`, `TestSelection`, `TestShards`).
* **Bounded and cached state** (`EventWindow`, `FingerprintCache`).
* **Nested lease composition** (`NestedIdentity`).

`dafny verify dfyconfig.toml` checks everything.  Lemmas and methods hide the definitions they do not
need, which keeps each proof small.

## What the proofs found

Some statements that read like promises of the code are false of it.  Each has a concrete run or input,
and the exact condition under which the promise does hold.

* **At most one effect per key** holds exactly for callers that pass an effect boundary and either
  reconcile truthfully or are local mutations without a reconciler (`AtMostOnce.AtMostOnceIffGuarded`).
* **A completed record is backed by a result and an applied receipt** exactly when no store write can
  raise behind a boundary: if saving the validated form raises after the record was completed, the
  failure ladder marks the receipt unknown first (`WriteOrder.WriteOrderIffQuiet`).
* **A completed record holds the result that is saved for its operation** in every reachable state exactly
  for callers without an effect boundary (`MatchingRecords.MatchesIffUnbounded`).  With one, an operation
  may record one value and return another; when its task then cannot be failed, the ladder saves the
  recorded value under a record completed with the returned one.  Every commit writes the saved result
  (`Provenance.EveryCommitAgrees`), so the two differ only if the operation produced two values
  (`Provenance.OneValueMatches`).
* **A key whose call died or failed can be completed** exactly when a later call may claim it again, or
  its caller has a reconciler and its stores are `Completable` (`Completion.CompletesIff`, for all keyed
  callers).  A later call claims it again, and calls the operation again, exactly when nobody is asked
  about a call in progress that is not a local mutation, or the answer may be that nothing happened
  (`ReclaimedKeys.CalledAgainIff`): never for guarded callers while an effect stands.  Completable means
  that the receipt is not failed or rolled back and the operation task is one a retry accepts, or that the
  receipt is unfinished and its task still lives, with no cancellation requested over a saved result; an
  accepted receipt must moreover have no saved result, and its task must have been started.  Every other
  key of a caller whose reconciler never misses is lost.  That includes keys whose failure is
  advertised as safe to retry automatically: a process that dies between saving its claim and marking its
  receipt as applying leaves a lost key (`LostKeys.DiesAfterClaim`), start-up reconciliation only relabels
  it as failed before its effect (`LostKeys.StartupFailsIt`), and as long as probes are honest every key
  without an effect is lost (`LostKeys.DiedBeforeEffectIsLost`).
* **A stale retry may come before the start-up pass.**  If its probe answers, it completes the record
  exactly where receipt and task allow it; otherwise a completable key is lost afterwards exactly if its
  receipt is not applying, or cancellation was requested of a task the retry does not accept
  (`StaleRetries.RetryLosesIff`, with both outcomes reachable: `RetryFirstLoses`, `RetryFirstSpares`).
* **A key with a saved result can still be completed** except under the receipts and tasks listed by
  `LostKeys.SavedResultIsLostIff`.  An authoritative result saved by the ladder is lost when the process
  dies between failing the receipt and completing the record, and not when it dies before the receipt
  write (`LostKeys.RecordedResultIsLost`).
* **A start-up pass settles every receipt** exactly when no receipt of its page is poisoned
  (`ReconcilePass.PassConservesAndSettles`).  In the stores of any run without cancellation requests that
  means: no accepted receipt with a saved result that is not deferred (`SettledStores.PassAfterAnyRun`).
  A retry whose probe answers without an effect of this key can leave one, and it stops every pass
  (`PoisonedPass.RetryStrandsReceipt`, `PoisonedPass.StrandedStopsPass`).  Where probes answer only for an
  effect that stands, no run leaves one exactly for guarded callers and for callers without a reconciler
  (`HonestProbes.NeverStrandsIff`).
* **Every error of a batch read is reported once** except for a tail of unreadable requests behind a page
  that did not use up its budget: those twice (`BatchErrors.ErrorsInChain`, `BatchErrors.OverlapsIff`).
* **Nested preparation is all or nothing** up to the first lease request.  A refusal retains leases exactly
  when the provider handed one out for the first credentialed group and some credentialed group is not
  granted (`NestedIdentity.Prepare`, `NestedIdentity.RetainsIff`).
* **Adding changed paths never removes a test** exactly when every test of the coverage map and of the
  consumer table belongs to the suite (`TestSelection.MonotoneIff`).
* **A compiled glob means what the glob means** for all globs exactly on the paths without a newline
  (`Glob.AgreesIff`).
* **Paged and one-shot searches agree** exactly when no path listed twice has a match and no context line
  of a match is longer than 4000 characters (`SearchPages.ChainEqualsOneShotIff`).

A list page that fills its byte budget exactly is truncated without a reason
(`Pagination.ReasonMissingIff`).

## Model

| member | source | states |
|---|---|---|
| `Outcomes.TerminalIsFinal` | src/repoforge/domain/execution_receipt.py:51-78 | over a whole chain of transitions a receipt never moves down; validated, rolled-back and failed receipts never change, an unknown one can only become validated |
| `StoreInvariant.StepKeeps` | src/repoforge/application/idempotency.py:133-175 | every step of the protocol keeps: receipts valid and one per operation, every envelope in memory a snapshot the compare-and-swap can trust, the record bound to the receipt and operation of its claim |
| `StoreInvariant.Holds` | src/repoforge/application/idempotency.py:193-651 | that invariant in every reachable state of either executor with crashes, start-up reconciliation and interfering actors |
| `AtMostOnce.NetEffectAtMostOnce` | src/repoforge/application/idempotency.py:241-314 | for guarded callers the net number of applied effects per key is 0 or 1 in every reachable state |
| `AtMostOnce.PublishAtMostOnce` | src/repoforge/application/publication.py:349-438 | `gateway.publish` is called at most once for a key over all runs with crashes, clock advances, I/O faults and retries |
| `AtMostOnce.SecondEffect` | src/repoforge/application/idempotency.py:261-314 | every unguarded caller has a run with two effects for one key |
| `AtMostOnce.AtMostOnceIffGuarded` | src/repoforge/application/idempotency.py:33-65 | at-most-once over all runs holds if and only if the caller is keyed, passes a boundary, and reconciles without blind misses or is a local mutation without a reconciler |
| `StartupSoundness.ReconciliationIsSound` | src/repoforge/application/outcome_reconciliation.py:234-351 | in every reachable state of either executor, whatever the interleaving: failed-before-effect was assigned only to operations never invoked, validated only to operations with evidence, and every saved result has evidence |
| `WriteOrder.CompletedIsBacked` | src/repoforge/application/idempotency.py:364-478 | without I/O faults behind a boundary, a completed record has a saved result for its operation and a receipt that is applied-unvalidated, applied-validated or failed-after-effect; start-up steps preserve it |
| `WriteOrder.UnbackedRecord` | src/repoforge/application/idempotency.py:453-470 | with such faults a completed record over an unknown receipt is reachable |
| `WriteOrder.WriteOrderIffQuiet` | src/repoforge/application/idempotency.py:479-621 | the write order holds over all keyed runs if and only if store writes cannot raise behind a boundary |
| `Replay.ReturnedIsFinal` | src/repoforge/application/idempotency.py:223-240 | after a keyed call has returned, in every continuation the record is unchanged, nothing is invoked or applied again, and every returning call returns the same stored result |
| `Replay.RecordIsStamped` | src/repoforge/application/idempotency.py:353-621 | every step that leaves a changed record either claims it anew with the stamp of the call's entry, or rewrites it with the stamp of now under the identities it had |
| `Replay.ValidatedReturns` | src/repoforge/application/idempotency.py:453-485 | once its receipt is validated a keyed call returns the result in its record, also when finishing its task raises |
| `Replay.RaisesIff` | src/repoforge/application/idempotency.py:366-479 | the ladder is entered from inside the operation and from the writes behind it, from each of them where store writes can fail, and otherwise at a receipt or record write only when it is refused |
| `Provenance.ValuesAreProduced` | src/repoforge/application/idempotency.py:366-529 | in every reachable state of a keyed caller every saved result, the result of a completed record and every returned value was returned or recorded by the operation it is filed under, or answered by a probe for it |
| `Provenance.EveryCommitAgrees` | src/repoforge/application/idempotency.py:390-529 | every step that completes a record, or completes it anew, writes the result saved for its operation |
| `Provenance.OneValueMatches` | src/repoforge/application/idempotency.py:479-529 | as long as its operation produced one value, a completed record holds the saved result |
| `MatchingRecords.RecordedOverReturned` | src/repoforge/application/idempotency.py:403-529 | with a boundary, a run ends in a record completed with one value over a saved result with another |
| `MatchingRecords.MatchesIffUnbounded` | src/repoforge/application/idempotency.py:366-529 | completed records hold the saved results over all runs of a keyed caller if and only if it passes no boundary |
| `CallWrites.ReceiptWriteIff` | src/repoforge/application/idempotency.py:353-621 | every receipt write of a call, on any valid receipt: from which states it is accepted, and the exact receipt it leaves |
| `CallWrites.TaskWriteIff` | src/repoforge/application/idempotency.py:353-621 | every task write of a call: a task is begun or failed while it lives, finished only while it runs with no cancellation requested, and the exact task it leaves |
| `CallOutcome.ForcedKeeps` | src/repoforge/application/idempotency.py:353-644 | every action that the call takes by itself keeps receipt, task, result and record telling the story that its operation's ending calls for |
| `CallOutcome.OperationStays` | src/repoforge/application/idempotency.py:366-368 | so does every event inside the operation, and its raising |
| `ProbedRetry.ProbeCompletesIff` | src/repoforge/application/idempotency.py:133-175 | once a probe's result is saved the retry completes the record exactly when the receipt is applied or unknown and the operation task is one `reconcile_success` accepts; then receipt, task and record end with the evidence of that result, nothing else differs, and the result is returned |
| `CompletableKeys.CompletableIsOnePass` | src/repoforge/application/outcome_reconciliation.py:219-351 | the stores are completable exactly when a retry completes the record at once, or does so after some start-up pass over its receipt that starts later, with its cutoff the given number of seconds before its clock |
| `PassRuns.LeadsThroughPass` | src/repoforge/application/outcome_reconciliation.py:228-351 | a pass over one receipt that does not raise, as `Handle` computes it, is a run of the protocol machine: read, judge, settle, write the task |
| `Completion.WayOut` | src/repoforge/application/idempotency.py:241-276 | from every completable state a fair continuation completes the record with the value the probe answers: at once, or after waiting for a pass whose cutoff lies the configured staleness before its clock |
| `HopelessKeys.HopelessForever` | src/repoforge/application/idempotency.py:133-175 | where no retry is told that nothing happened, from every other state no fair continuation of retries, crashes, passes and time completes the record, returns anything or invokes the operation |
| `ReclaimedKeys.ReclaimCompletes` | src/repoforge/application/idempotency.py:257-361 | where a later call may claim the key again, some continuation calls the operation once more and completes the record with what it returns |
| `ReclaimedKeys.AbandonedForever` | src/repoforge/application/idempotency.py:241-305 | without a reconciler, an uncertain key or a local mutation with a claim is never completed and never invoked again in any continuation |
| `ReclaimedKeys.CalledAgainIff` | src/repoforge/application/idempotency.py:223-361 | for every reachable state in which a keyed call has left an undecided record, some continuation invokes the operation again if and only if the caller has no reconciler, is not a local mutation and the record is in progress, or its reconciler may report a miss |
| `Completion.CompletesIff` | src/repoforge/application/idempotency.py:223-361 | for every keyed caller and every reachable state between calls and passes with an undecided record: some fair continuation completes it if and only if a later call may claim the key again, or the caller has a reconciler, the stores are completable and, where probes are honest, an effect stands |
| `LostKeys.FailedIsLost` | src/repoforge/application/outcome_reconciliation.py:299-324 | a failed-before-effect, failed-after-effect or rolled-back receipt under an undecided record is never completed |
| `LostKeys.DiedBeforeEffectIsLost` | src/repoforge/application/idempotency.py:547-621 | without an effect no honest continuation completes an undecided key of a caller that never misses, or invokes its operation again |
| `LostKeys.DiesAfterClaim` | src/repoforge/application/idempotency.py:353-361 | dying between the claim and the applying mark reaches such a state without any invocation |
| `LostKeys.StartupFailsIt` | src/repoforge/application/outcome_reconciliation.py:299-324 | the next start-up pass fails the receipt and its task before the effect, and the key stays lost |
| `StaleRetries.RetryLosesIff` | src/repoforge/application/idempotency.py:133-175 | a retry whose probe answers before any start-up pass completes the record and returns the answer exactly where receipt and task allow it; otherwise the record stays and the key is lost afterwards if and only if it was lost before, its receipt was not applying, or cancellation was requested of a task the retry does not accept |
| `StaleRetries.RetryFirstLoses` | src/repoforge/application/operations/manager.py:215-271 | the crash after the result was saved leaves a completable key that such a retry loses |
| `StaleRetries.RetryFirstSpares` | src/repoforge/domain/execution_receipt.py:51-78 | the crash inside the operation leaves one that such a retry spares |
| `LostKeys.SavedResultIsLostIff` | src/repoforge/application/outcome_reconciliation.py:234-351 | a key whose result was saved before its record was completed is lost if and only if the receipt is accepted, failed or rolled back, or the task is not one a retry accepts and is finished, asked to cancel, or under a validated or unknown receipt |
| `LostKeys.RecordedResultIsLost` | src/repoforge/application/idempotency.py:492-529 | an authoritative result saved by the ladder is lost when the process dies between failing the receipt and completing the record, and is not when it dies before the receipt write |
| `LostKeys.UnknownIsNotLost` | src/repoforge/application/idempotency.py:573-601 | an outcome the ladder marked unknown, with its task, is completed by a retry without any pass |
| `IdempotentCall.CallDescends` | src/repoforge/application/idempotency.py:314-644 | every action of a call except an event inside the operation brings it closer to its end; the operation is invoked only at the gate |
| `IdempotentCall.Executor.Execute` | src/repoforge/application/idempotency.py:193-651 | a call always ends, also when the process dies after any of its steps, and invokes the operation at most once; other input or another operation, a key in progress that is not stale, and an uncertain key with nobody to ask leave the stores as they were; a completed key replays its result; a stale local claim is demoted and nothing else; what a call returns is what the record is completed with, and came from the operation's return, its recorded result or the probe's answer; an undisturbed claim under new identities leaves exactly the receipt, task, result and record that its operation's ending calls for: success, unencodable result, recorded result, rollback, unknown outcome, or failure before the effect |
| `IdempotentCall.Executor.Environment` | src/repoforge/application/outcome_reconciliation.py:208-298 | time, start-up reconciliation and other actors between calls keep the executor's invariant |
| `ReconcilePass.OutcomeReceiptReconciler.Reconcile` | src/repoforge/application/outcome_reconciliation.py:208-361 | the loop over the page leaves exactly the stores and the report of the recursive specification, including where it raises |
| `ReconcilePass.HandleFrame` | src/repoforge/application/outcome_reconciliation.py:234-351 | handling a receipt writes that receipt and its operation's task and nothing else |
| `ReconcilePass.PassConservesAndSettles` | src/repoforge/application/outcome_reconciliation.py:228-361 | on valid receipts, one per operation, a pass over a page raises if and only if some receipt of it is poisoned (a result behind an accepted receipt, a cancellation request on a task that should succeed, a crossed accepted receipt); otherwise every scanned receipt and its task end as the evidence calls for (left alone, validated and succeeded, failed before the effect, or unknown and failed, with codes, references and later times), nothing else is written, each counter is the number of receipts that ended so, and a second pass at the same clock changes nothing |
| `ReconcilePass.RunStops` | src/repoforge/application/outcome_reconciliation.py:228-361 | a pass that raises stops at the first poisoned receipt: everything before it is settled, nothing behind it is touched |
| `PoisonedPass.StrandedStopsPass` | src/repoforge/application/outcome_reconciliation.py:260-275 | an accepted receipt with a result stops every pass whose page holds it, wherever it stands |
| `PoisonedPass.RetryStrandsReceipt` | src/repoforge/application/idempotency.py:133-160 | such a receipt is reachable for every keyed caller with a reconciler, without the operation ever having been invoked, when a probe answers without an effect |
| `PoisonedPass.TrappedForever` | src/repoforge/application/idempotency.py:241-276 | the key then never completes in any continuation |
| `SettledStores.PassAfterAnyRun` | src/repoforge/application/outcome_reconciliation.py:208-361 | in every reachable state of any caller, absent cancellation requests, a pass raises if and only if its page holds an accepted receipt with a saved result that is not deferred, and otherwise conserves and settles |
| `SettledStores.UnreconciledNeverStrands` | src/repoforge/application/outcome_receipts.py:79-219 | callers without a reconciler never leave such a receipt, so no pass over their receipts raises |
| `HonestProbes.EvidenceIsOwn` | src/repoforge/application/idempotency.py:133-160 | for guarded callers, as long as no probe answered without an effect, every operation with evidence was invoked |
| `HonestProbes.HonestPassNeverRaises` | src/repoforge/application/outcome_reconciliation.py:208-361 | then no start-up pass over any page raises, absent cancellation requests |
| `HonestProbes.NeverStrandsIff` | src/repoforge/application/idempotency.py:33-65 | no run with honest probes leaves an accepted receipt with a saved result if and only if the caller is guarded or has no reconciler |
| `Transport.CostIsBytes` | src/repoforge/application/read_batch.py:186-190 | the cost of a text is the number of bytes of its JSON string in UTF-8, escapes included |
| `Transport.FitIsLongest` | src/repoforge/application/read_batch.py:186-190 | a prefix fits the budget exactly when it is no longer than the linear scan's longest one |
| `Transport.PrefixWithinTransportBudget` | src/repoforge/application/read_batch.py:193-209 | the binary search returns the longest prefix within the budget |
| `Rendering.Render` | src/repoforge/application/read_batch.py:156-183 | the loop renders one span for every requested line of the file, in order; the spans tile the text, and each holds the line's number in decimal, a colon, the line itself, and a newline unless it is the last |
| `Rendering.BoundsLocate` | src/repoforge/application/read_batch.py:212-231 | the line bounds of a chunk are the lines whose spans hold its first and its last character, and the omitted range runs from the line that holds the next character to the last requested line |
| `BatchRead.ExecuteBatchRead` | src/repoforge/application/read_batch.py:234-347 | the loop over the requests gives the page of the recursive specification, including every refusal |
| `BatchRead.PageIsExact` | src/repoforge/application/read_batch.py:250-347 | one page delivers for every request exactly the text between its cursor and the next one, costs at most its budget, reports exactly the unreadable requests it passes, and its cursor is lexicographically further on |
| `BatchPages.RefusedIff` | src/repoforge/application/read_batch.py:71-293 | every refusal of a page, over all inputs: requests, budget or cursor out of their bounds, a cursor behind the content of its own request, or a first character that costs more than the whole budget |
| `BatchPages.PageIsFull` | src/repoforge/application/read_batch.py:250-347 | a page holds one result for every readable request between its cursors, in order, and stops only where the next character does not fit, its budget is used up exactly, or nothing readable is left |
| `BatchRead.PageRefusedIff` | src/repoforge/application/read_batch.py:273-293 | a page inside the content is refused if and only if its first character costs more than the whole budget; never with six bytes or more |
| `BatchRead.ChainIsExact` | src/repoforge/application/read_batch.py:234-347 | following the cursors from the start under any budgets, one per page, gives exactly `_render` of every request and reports exactly the unreadable ones; with budgets of at least six bytes every chain reaches its end |
| `BatchErrors.OverlapsIff` | src/repoforge/application/read_batch.py:257-271 | a page reports something at or after its own cursor if and only if everything from there on is unreadable and its content costs less than its budget; then it reports all of that |
| `BatchErrors.ErrorsInChain` | src/repoforge/application/read_batch.py:234-347 | a complete chain reports every unreadable request exactly once, those in such a tail exactly twice, and nothing else |
| `BatchErrors.LastUnreadable` | src/repoforge/application/read_batch.py:334-337 | both cases happen: with bytes left over the error comes with a cursor to itself, with the budget used up it is left to the next page |
| `BatchErrors.SomeTailIsRepeated` | src/repoforge/application/read_batch.py:156-183 | concrete requests of that shape |
| `BatchRead.ResultMeans` | src/repoforge/application/read_batch.py:285-330 | a result carries its part of the numbered lines, says which lines those are and which are left out, and gives as reason the budget exactly when it is cut and the source limit exactly when the request reaches past the file |
| `BatchRead.ChainDeliversLines` | src/repoforge/application/read_batch.py:234-347 | a complete chain has collected, for every readable request, its lines of the file, each behind its own number |
| `BatchRead.ResumeStartsWhereOmitted` | src/repoforge/application/read_batch.py:212-231 | the resumed page starts on the line where the earlier page's omitted range starts, the line that holds the next character; the range ends with the last selected line |
| `SearchMatches.StartsAreLeftmost` | src/repoforge/application/retrieval.py:332-342 | the literal scan reports real, non-overlapping occurrences, and every occurrence overlaps a reported one that starts no later |
| `SearchMatches.FindAll` | src/repoforge/application/retrieval.py:333-340 | the find loop computes those occurrences |
| `SearchMatches.ShownAllIs` | src/repoforge/application/retrieval.py:346-365 | cutting context lines changes nothing exactly when none is longer than 4000 characters |
| `SearchMatches.SearchPathMatches` | src/repoforge/application/retrieval.py:313-366 | the loops over lines and hits give all matches of a path, with or without cut context |
| `SearchMeaning.LiteralMatchesAre` | src/repoforge/application/retrieval.py:331-365 | a literal search of a loaded path reports, strictly ascending by line and column, matches that each lie at an occurrence of the query and carry exactly the lines around theirs; every occurrence on every line overlaps a reported one that starts no later |
| `SearchMeaning.RegexMatchesAre` | src/repoforge/application/retrieval.py:342-365 | a regular-expression search reports, line by line, exactly the non-empty hits of the scanner |
| `SearchMeaning.NameMatchesAre` | src/repoforge/application/retrieval.py:321-327 | a file-name search reports the path exactly when it is named; a path that cannot be loaded has no other matches |
| `Ordering.BelowIff` | src/repoforge/application/retrieval.py:399-403 | the order of paths: the first difference decides, a prefix comes first |
| `Ordering.SortIsSorted` | src/repoforge/application/retrieval.py:399-403 | sorting gives an ascending permutation |
| `Ordering.OnceKeeps` | src/repoforge/application/retrieval.py:399-403 | dropping neighbours of a sorted list gives the sorted set: same elements, ascending, none twice |
| `SearchPages.TakeRow` | src/repoforge/application/retrieval.py:445-467 | the inner loop stops or finishes a path exactly as specified |
| `SearchPages.SearchPage` | src/repoforge/application/retrieval.py:369-501 | the loop over paths gives the specified page or refusal |
| `SearchPages.PageIsExact` | src/repoforge/application/retrieval.py:423-475 | a page shows exactly what lies between its cursor and the next one, within both limits; the cursor is strictly further on, and equal to the one given only when the deadline had passed before the first path |
| `SearchPages.PageRefusedIff` | src/repoforge/application/retrieval.py:387-454 | every refusal of a page, over all inputs: arguments out of their bounds, a cursor outside the candidates, or a first match larger than the whole byte budget that is reached in time |
| `SearchPages.PageStopsWhere` | src/repoforge/application/retrieval.py:423-475 | why a page stops: the deadline had passed at the path of its cursor and at none before it, the page holds as many matches as it may, or the next match would break the byte budget; without a cursor nothing was late and every path was searched; with the matches left in the path and the paths searched |
| `SearchPages.CandidatesAre` | src/repoforge/application/retrieval.py:399-403 | a page goes over every listed path that the glob accepts once, the one-shot search as often as it is listed, both in order |
| `SearchPages.WalkIsExact` | src/repoforge/application/retrieval.py:369-501 | over any number of pages under any mix of stops nothing is lost, repeated or reordered, and the number of pages is bounded by what is left plus the pages that returned their own cursor |
| `SearchPages.SearchFiles` | src/repoforge/application/retrieval.py:525-607 | the one-shot search returns all matches in order, or refuses exactly for invalid input or a deadline on the way |
| `SearchPages.ChainIsSearch` | src/repoforge/application/retrieval.py:369-607 | a chain that reaches its end has shown what the one-shot search finds over each path once, context cut |
| `SearchPages.ChainEqualsOneShotIff` | src/repoforge/application/retrieval.py:352-403 | it equals the one-shot result if and only if no path listed twice has a match and no context line of a match exceeds 4000 characters |
| `Pagination.Paginate` | src/repoforge/application/retrieval.py:261-310 | a page is the longest stretch within both limits, stops early only at an exactly used budget, and is refused exactly for bad arguments, a bad position or a first item over the budget |
| `Pagination.ChainIsList` | src/repoforge/application/retrieval.py:261-310 | following the cursors gives the whole list under any limits, in no more pages than items |
| `Base64.DecodeEncode` | src/repoforge/application/retrieval.py:128-142 | decoding undoes base64url encoding on all byte strings |
| `Base64.EncodeShape` | src/repoforge/application/retrieval.py:151-155 | restoring `-len % 4` padding undoes stripping it |
| `Base64.DecodeIsLenient` | src/repoforge/application/retrieval.py:151-155 | on ASCII without padding the decoder takes exactly the texts whose characters of either alphabet fill whole groups, and gives the bytes that those characters encode |
| `Base64.TokenRoundTrip` | src/repoforge/application/read_batch.py:106-127 | the stripped token decodes to the bytes it was made of |
| `Cursors.CursorRoundTrip` | src/repoforge/application/read_batch.py:106-153 | decoding an issued cursor under any binding: its position under its own binding if in range, otherwise exactly which refusal; a token over 4096 characters is never accepted |
| `Cursors.DecodedIff` | src/repoforge/application/read_batch.py:130-153 | what every token decodes to, issued or made up: accepted for a position if and only if it wraps it, with a matching checksum, under version 1 and this binding and in range; and exactly when it is malformed, of another request, or out of range |
| `Cursors.OtherRequestIsRejected` | src/repoforge/application/read_batch.py:93-148 | a cursor issued for one request is accepted only for that request |
| `Cursors.CursorsAreDistinct` | src/repoforge/application/retrieval.py:168-187 | equal cursors carry equal bindings and positions |
| `Glob.GlobToRegex` | scripts/select_affected_tests.py:203-223 | the loop emits the parts of the compiled glob |
| `Glob.CompilerPreservesMeaning` | scripts/select_affected_tests.py:203-227 | for every glob and newline-free path the emitted expression accepts the path exactly when the recursive glob semantics do |
| `Glob.LiteralAcceptsItself` | scripts/select_affected_tests.py:219-223 | a glob without metacharacters accepts exactly itself and itself with one newline appended |
| `Glob.AgreesIff` | scripts/select_affected_tests.py:203-227 | compiled globs and the recursive semantics agree on a path, for all globs, if and only if the path has no newline |
| `TestSelection.SelectViaCoverage` | scripts/select_affected_tests.py:515-584 | the loop gives the safety bundle and the union of the paths' blast radii, or the whole suite when one is unknown |
| `TestSelection.SelectViaGroups` | scripts/select_affected_tests.py:587-632 | the same through matched group names |
| `TestSelection.SelectAffectedTests` | scripts/select_affected_tests.py:483-512 | the selected set is the specified one for every change |
| `TestSelection.WholeSuiteIff` | scripts/select_affected_tests.py:464-578 | the whole suite (every group's files, the safety bundle, the consumers) is selected exactly when some changed path other than `tests/conftest.py` is a build file or is mapped by no rule of the manifest |
| `TestSelection.NarrowSelectionIs` | scripts/select_affected_tests.py:501-632 | otherwise a file is selected if and only if it is in the safety bundle or some changed path brings it: `tests/conftest.py` its consumers, a changed test itself, a package module its covering and reviewed tests or those of the one group that names it, any other path the tests of the groups whose globs accept it |
| `TestSelection.OrderIsIrrelevant` | scripts/select_affected_tests.py:483-632 | order and repetition of the changed paths do not matter |
| `TestSelection.SelectionIsMonotone` | scripts/select_affected_tests.py:464-632 | adding changed paths never removes a selected file, if the maps stay inside the suite |
| `TestSelection.MonotoneIff` | scripts/select_affected_tests.py:464-584 | that condition is exact |
| `TestShards.GroupShards` | scripts/select_affected_tests.py:173-183 | every shard holds what is selected of one reviewed stretch of the group, numbered by the stretch, in order, never empty; together they hold the group's selected files |
| `TestShards.ParallelShards` | scripts/select_affected_tests.py:164-190 | the shards hold exactly the selected files of the parallel groups, and each is such a stretch of one of them; refused exactly for invalid sizes or a selected file without parallel owner |
| `TestShards.PlanLanes` | scripts/run_test_suite.py:69-99 | the plan exists exactly when sizes are valid and every file is owned; it is a permutation of the files exactly when each file outside the serial lane has one parallel owner |
| `TestShards.ShardsValidIff` | scripts/select_affected_tests.py:237-248 | the size lists are valid exactly when every parallel group has files, and its sizes, if it has any, are positive and add up to them |
| `TestShards.FilesAre` | scripts/select_affected_tests.py:149-162 | a lane holds the files of its groups and nothing else |
| `TestShards.LanesPartitionIff` | scripts/select_affected_tests.py:649-652 | serial lane plus shards hold every file exactly once if and only if that is so |
| `TestShards.CompleteSchedules` | scripts/select_affected_tests.py:404-461 | with a complete manifest any list of distinct files on disk satisfies both conditions, and a file that no group owns violates the first |
| `TestShards.SelectionIsScheduled` | scripts/select_affected_tests.py:404-512 | every selection of a complete manifest lies inside the suite on disk, and a wide one is all of it |
| `TestShards.ScheduleSelection` | scripts/select_affected_tests.py:644-652 | scheduling a selection of a complete manifest runs every selected file exactly once, in the lane of its owner |
| `EventWindow.TailCounts` | src/repoforge/application/nudges.py:68-72 | the length of a pruned deque is the number of logged events in the window, up to the threshold |
| `EventWindow.EvictedIsStale` | src/repoforge/application/nudges.py:73-74 | a key is over the bound only after 200 distinct other keys were observed since its last event |
| `EventWindow.BoundedEventWindow.Observe` | src/repoforge/application/nudges.py:58-74 | with a clock that does not go back and a fixed window the answer is min(threshold, events of the key in the window since its last reset or eviction); at most 200 keys, and an evicted key saw 200 other keys since |
| `EventWindow.BoundedEventWindow.Reset` | src/repoforge/application/nudges.py:76-78 | forgets the key and nothing else |
| `FingerprintCache.HitsExactIffSeparates` | src/repoforge/application/fingerprint_cache.py:89-137 | when writers, persisting readers and primers hold the lock, every hit of every interleaving returns the fingerprint of the tree whose token it sampled, if and only if the token separates trees with different fingerprints |
| `FingerprintCache.LockIsNeeded` | src/repoforge/application/fingerprint_cache.py:97-102 | without the lock, whenever two trees differ in fingerprint some run has a wrong hit |
| `FingerprintCache.ReadIsRun` | src/repoforge/application/fingerprint_cache.py:104-120 | from any state an undisturbed read is a run of the machine: a hit exactly when the entry's token is that of the tree, and otherwise a persisting caller leaves the pair of the tree and nothing else changes |
| `FingerprintCache.PrimeIsRun` | src/repoforge/application/fingerprint_cache.py:123-137 | so is an undisturbed prime, which always leaves that pair |
| `FingerprintCache.ReadFingerprint` | src/repoforge/application/fingerprint_cache.py:89-120 | one call on a tree at rest returns its fingerprint, cached or not, and leaves exactly the stated entry |
| `FingerprintCache.PrimeFingerprint` | src/repoforge/application/fingerprint_cache.py:123-137 | computes and always stores |
| `NestedIdentity.RepresentativeIsBest` | src/repoforge/application/nested_identity.py:178-185 | no member is preferred to the representative |
| `NestedIdentity.CandidateGroups` | src/repoforge/application/nested_identity.py:165-187 | one group per (kind, digest) in order; its representative is a preferred member, a writer whenever any member is, and its locations are those of all members, each once and in order |
| `NestedIdentity.RouteGroups` | src/repoforge/application/nested_identity.py:309-336 | routing succeeds exactly when every group resolves to a matching target and no two to the same; then every group was routed with its own evidence |
| `NestedIdentity.Admit` | src/repoforge/application/nested_identity.py:338-363 | admitted exactly when nothing is denied and every approval or intent names a discovered target |
| `NestedIdentity.ValidateChildLease` | src/repoforge/application/nested_identity.py:211-274 | a lease is accepted exactly when it is active now, scoped to this target and profile, and carries no other endpoint; the endpoint is then filled in; a revoked or released one and an expired one are refused as such |
| `NestedIdentity.AcquireLeases` | src/repoforge/application/nested_identity.py:365-447 | the loop stops at the first credentialed group that is not granted (no profile, no provider, no lease, an invalid lease, or a collision with a primary or earlier lease) and states which leases were asked for and handed out until then; otherwise one scoped lease and one request per credentialed group and one receipt per group |
| `NestedIdentity.Prepare` | src/repoforge/application/nested_identity.py:293-468 | it succeeds if and only if every group is routable, the evidence known and nothing denied, and every credentialed group granted; then the primary and child leases and requests are bound; before that nothing is asked for; on refusal it says which check failed and that leases stay held exactly when the first credentialed group was given one |
| `NestedIdentity.RetainsIff` | src/repoforge/application/nested_identity.py:391-425 | leases are held after the loop exactly when the provider handed one out for the first credentialed group, and retained by a refusal exactly when moreover some group is not granted |
| `NestedIdentity.SecondGroupRefused` | src/repoforge/application/nested_identity.py:419-425 | one primary lease with its request, and two written candidates with any digests and distinct targets, whose second lease collides with the first: refused with the first lease held |
| `NestedIdentity.LeasesAndRequestsCorrespond` | src/repoforge/application/nested_identity.py:449-463 | with distinct primary lease ids, bound leases and capability requests are in bijection |

## Left out

- The step machine is for one idempotency key.  Keys share only receipt, task and result stores under fresh identifiers, which the model chooses freely; the per-key lock is that a call enters only when no call runs.
- Timestamps inside receipts, their digests and identities, legacy records without operation ids, audit, metrics, `publish_outcome`, and error texts do not influence the protocol state.
- Start-up reconciliation inside the step machine works on one receipt at a time and writes its task against the task as it is then; a task and a result are read at one instant.
- IdempotentCall.Executor.Execute: the exact stores are stated for a claim that nothing cuts short; a call that asks first is covered by the invariants and by `StaleRetries`.
- Completion.CompletesIff: in a fair continuation other actors do not write a task that a retry accepts, and while reconciliation can still act on the key's receipt they neither start nor revive its task nor take back a cancellation request (the task table would let them start a pending one).  Claiming a key again means a call under a fresh operation id.
- `RuntimeActivationReconciler`: its count identity is a fold with the same shape and no further state.
- `source_truncated`, `completed_providers` and recommended scopes of a search page; the validation of globs and regular expressions in searches; `structured_regex_matches`, trees and diffs.
- Regular-expression matching inside searches, case folding, `PurePosixPath.match`, JSON printing and hashing are functions given to the model; cursors assume that parsing undoes printing.
- BatchRead: loads are stable across pages, and an unreadable file is one case whatever error it raised; hashes and byte sizes of results are not modelled.
- TestSelection: reasons and group name lists of a selection are not modelled, only the files and whether it is the whole suite.
- TestShards.PlanLanes: the serial lane keeps the order of the given files; `_run_in_lanes` sorts it.
- TestShards.CompleteSchedules: completeness is the condition under which `check_completeness` reports nothing; its messages are not modelled.
- EventWindow: times are real numbers; the three trackers on top are one comparison each.
- FingerprintCache: sampling a token is one step.  What an unlocked reader computes without a hit is arbitrary.
- NestedIdentity: resolution, routing and the provider are functions; binding the record is not modelled.
- Filesystem, Git, GitHub and subprocess adapters, configuration and composition.
