# slaude: a verified model of the runtime's hard parts

slaude runs many agent sessions in one process and several processes on one
database. This project models the parts of it whose correctness is a matter of
interleaving, of whole histories, or of a round trip, and proves what they are
for. Verify everything with `dafny verify dfyconfig.toml`.

| file | what it models |
|---|---|
| `WorkspaceClaims.dfy` | the first-come-first-served, re-entrant claim on a shared folder, as a class |
| `TurnBook.dfy` | the parallel input queues and counters of a live session |
| `AgentManager.dfy` | the session manager as a state machine, and its stretches of code between two waits as methods of a class |
| `Lifecycle.dfy` | which instance of a session is live, and which boot of it is in flight, over every step |
| `FolderExclusion.dfy`, `CheckTurns.dfy`, `ConfigFingerprint.dfy`, `InputHistories.dfy`, `Reloads.dfy`, `Sends.dfy` | safety of that machine over every run |
| `Overtaking.dfy` | runs in which one instance of a session passes over another |
| `Ledger.dfy`, `Budget.dfy` | the ledger of background runs, its start rules, and the protocol of concurrent starters and spenders |
| `PassLoop.dfy` | the message loop of one background pass, whose ledger steps that protocol interleaves |
| `TurnUsage.dfy` | attribution of a turn's tokens to models, and their price |
| `Calendar.dfy`, `Digests.dfy` | Gregorian days, ISO week slots, due slots, and what weekly digests cover |
| `Placeholders.dfy` | the SQL placeholder rewriter |
| `GrantsCache.dfy` | the cache of stored grants, with its reads in flight |
| `Versions.dfy` | version order, listing and pruning |
| `Migrations.dfy` | the migration runner across replicas |
| `BrainImport.dfy` | the brain import as a first-wins merge |
| `Metrics.dfy` | series keys and histograms |
| `Common.dfy` | options, strings in text order, and numbers in decimal |

Code that changes things step by step is a class or a method with loops, each
proved equal to a function of the old state; the properties are then proved of
those functions and of every history built from them. A stretch of JavaScript
between two `await`s is one step.

## What the proofs found

The code is modelled as it is. Where a property that its comments promise does
not hold on all inputs, a concrete input or history shows it, and a lemma says
when it holds: exactly when, but for the last bullet.

- **Folder exclusion.** A session that resumes a lost transcript first gets an
  error result, which frees its folder, and then boots again without taking the
  folder (`FolderExclusion.RetryBreaksExclusion`). A session whose second send
  gives up on an instance already replaced boots beside the fresh one, whose next
  result frees the folder under that boot (`Overtaking.GiveUpBreaksExclusion`).
  Every step keeps exclusion exactly when it does none of these: a retry, or an
  unbudgeted check after a result with no input outstanding, of a session that does
  not hold its folder; a folder freed by a result, an exit or a send that gives up
  while another boot of its session is in flight
  (`FolderExclusion.ExclusionKeptExactly`). While each session has one instance at a
  time no folder is freed under a boot, so both go on exactly when no send gives up on
  an instance already replaced and boots, and no retry or such check lacks its folder
  (`FolderExclusion.OrderKeptExactly`); a budgeted manager in which no send gives up and
  nothing retries therefore has one turn per folder, over every run
  (`FolderExclusion.OneTurnWhileOrderly`).
- **One live instance.** The wait for a reloading instance is bounded, and what
  follows it does not look at whose turn it is: the second of two sends that wait
  for one instance aborts the instance the first one booted, leaves it live and
  boots past its check turn (`Overtaking.CheckIsOvertaken`); and the resume retry
  of a detached instance takes the live one's place in the middle of its turn
  (`Overtaking.RetryDisplaces`). A session boots beside a live instance exactly
  when it gives up on one that is not the live one (`Lifecycle.OverlapExactly`), a
  live instance stays live exactly when no other of its session retries
  (`Lifecycle.LiveStaysExactly`), and a check turn has its session to itself until
  its result or its instance's end exactly when neither happens
  (`CheckTurns.CheckHoldsExactly`).
- **Check runs.** A check run is ended at most once, but can be left open: the
  guard that abandons a granted check does not look at whether the session is
  closing, so a check can be pushed after its query loop has ended
  (`CheckTurns.RunCanBeLeftOpen`, and exactly then: `CheckTurns.RunLeftOpenExactly`).
  A run that an instance holds is open over every run from then on exactly when that
  loop has ended (`CheckTurns.OpenForGoodExactly`).
- **Reloads.** A reload that waits for the turn, by request or for a fingerprint, never
  closes the input of a turn in flight (`Reloads.ReloadsWaitForTheTurn`), and comes when
  the last input ends (`Reloads.MarkEndsExactly`, `Reloads.PromiseIsKept`). A step closes
  the input of a turn exactly when it is a plain reload in the middle of one, a restart
  after a closed stream with a further input outstanding, or an unbudgeted check that a
  stray result pushes into an instance told to reload (`Reloads.TurnsKeepInputExactly`).
- **Configuration.** `ensureConfigFp` can answer true while a boot under an older
  fingerprint is in flight beside the instance it looks at
  (`Overtaking.TrueWithAStaleBoot`). For every call that is not refused at once, every
  answer of true over every run means what it says exactly when no such boot is in
  flight at the call (`ConfigFingerprint.TrueMeansUnderExactly`), and one is only while
  the session boots beside a live instance (`ConfigFingerprint.StaleBootsOverlap`).
- **Claims.** The two maps of `WorkspaceClaims` stay mutually inverse exactly
  while no holder takes a second folder (`AcquireInverse`, `ReleaseInverse`). One that
  does keeps the first whatever is released: a folder is kept over every history exactly
  when its holder's entry names another (`WorkspaceClaims.KeptForGoodExactly`).
- **Week numbers.** `Date.UTC` reads the years 0 to 99 as 1900 to 1999, so the
  week number is in 1..53 exactly for other years (`Calendar.WeekInRange`), and in those
  is counted from the first week of 1900 years later (`Calendar.MovedWeek`); that of
  1 June 50 is not in range (`Calendar.WeekCanBeOutOfRange`).
- **Placeholders.** A bare `$`, with or without a tag, right before a `?` opens a
  dollar quote in the output. The output reads as the input's pieces exactly when
  that does not happen (`Placeholders.RelexesExactly`). A second application then
  changes nothing; otherwise it can (`Placeholders.SecondApplicationCanChange`),
  exactly when the output still has a placeholder (`Placeholders.UnchangedExactly`).
- **Versions.** With leading zeros the comparison is zero for different versions
  and zero is not transitive (`Versions.ZeroExactly`, `Versions.ZeroIsNotTransitive`),
  so two installed names may be listed either way (`Versions.TiesLeaveItOpen`).
  A pruning keeps the previous version exactly when two versions are kept, or one
  is and the active version is not the newest.
- **Brain import.** A first copy that fails is lost for good once a later copy of its
  slug is written: no re-run restores it (`BrainImport.AFailureLosesTheFirstCopy`,
  `BrainImport.SettledStays`). A history leaves what one clean delivery leaves
  exactly when no new slug is left unwritten or last written with a later, different
  copy (`BrainImport.DeliveredExactly`), and either follows only a failure of the
  first copy (`BrainImport.LossFollowsAFailure`). When every page was served, copies
  differ, and no failed first copy was written by another request, it does exactly when
  no first copy failed (`BrainImport.CleanWithoutFailuresExactly`).
- **Budget.** The overshoot bound of one increase per active run is reached, for every
  number of runs and every increase (`Budget.OvershootIsReached`).
- **Series keys.** No two label maps share a series when their keys, with `="` after
  each, are a prefix code (`Metrics.SeriesKeyIsInjective`), as keys without `="`, and so
  the configured ones, are (`Metrics.UnmarkedIsPrefixFree`). Without one a key can spell
  out another map's labels (`Metrics.OtherKeysCollide`); which other key sets are safe
  all the same is a question of unique decoding that is not settled.

## Assumptions

- At most one boot of a session is in flight; `triggerCommand` is not used;
  event listeners do not call back into the manager; an instance that is no longer
  the live one is not counted as running in a folder; a session claims one folder
  only (its home).
- The personas that share an agent id share one budget configuration, and it does
  not change during a day; costs are whole micro-dollars and are not negative.
- Every result of a session carries `modelUsage`, in one of its two shapes
  throughout, for exact attribution.
- Persona-local days, minutes and weekdays are inputs; a weekday is that of its day.
- Sorting by the library's sort is taken to sort; file, network and SQL calls
  succeed or throw as a step says.

## Model

| member | source | states |
|---|---|---|
| `WorkspaceClaims.AcquireKeepsValid` | src/agent/workspace-claim.ts:45-56 | an acquire keeps the holder from waiting on itself and every ticket in exactly one place: queued once or resolved once |
| `WorkspaceClaims.ReleaseKeepsValid` | src/agent/workspace-claim.ts:58-76 | so does a release |
| `WorkspaceClaims.HandOffResolvesOnce` | src/agent/workspace-claim.ts:58-76 | a hand-off resolves no ticket twice, nor one resolved before |
| `WorkspaceClaims.HandOffKeepsTickets` | src/agent/workspace-claim.ts:58-76 | a hand-off moves the next holder's tickets, and no other, from queued to resolved |
| `WorkspaceClaims.AcquireInverse` | src/agent/workspace-claim.ts:45-56 | holder-of-folder and folder-of-holder stay mutually inverse across an acquire exactly when it takes no second folder |
| `WorkspaceClaims.ReleaseInverse` | src/agent/workspace-claim.ts:58-76 | and across a release exactly when the next holder has no other folder |
| `WorkspaceClaims.HandOffDropsTheHead` | src/agent/workspace-claim.ts:58-76 | taking all requests of the next holder out of the queue takes the head off the line of holders and moves nobody else |
| `WorkspaceClaims.StepMovesLine` | src/agent/workspace-claim.ts:45-76 | over any step a folder's line loses its head by a release of that folder, gains a newcomer at its end, or stays |
| `WorkspaceClaims.ServedInOrder` | src/agent/workspace-claim.ts:45-76 | over every history whoever stands at place p stands at p - r after r releases of the folder: first come, first served |
| `WorkspaceClaims.WaiterStaysThroughout` | src/agent/workspace-claim.ts:45-76 | over every history a waiter is still queued or has been resolved |
| `WorkspaceClaims.GrantedWithin` | src/agent/workspace-claim.ts:45-76 | a waiter behind k other waiting holders has the folder, and its promise resolved, after k + 1 releases |
| `WorkspaceClaims.SecondFolderIsStuck` | src/agent/workspace-claim.ts:45-76 | a holder that takes a second, free folder holds the first after every history from then on |
| `WorkspaceClaims.KeptForGoodExactly` | src/agent/workspace-claim.ts:58-76 | a holder keeps a folder over every history exactly when `held` does not send it there |
| `WorkspaceClaims.ReleaseKeepsHomed` | src/agent/workspace-claim.ts:58-76 | with one home folder per holder a release keeps the maps inverse, touches no other holder's folder, and leaves the holder without its own |
| `WorkspaceClaims.Claims.constructor` | src/agent/workspace-claim.ts:41-43 | nothing is held at first |
| `WorkspaceClaims.Claims.Acquire` | src/agent/workspace-claim.ts:45-56 | the class's acquire is the specified step: grant, re-entrant grant, or a new ticket at the end of the queue |
| `WorkspaceClaims.Claims.ReleaseHolder` | src/agent/workspace-claim.ts:58-76 | the class's release is the specified step: free, or hand to the next holder with all its requests |
| `TurnBook.StepRepresents` | src/agent/manager.ts:1626-1650 | one push, tag or result keeps the queues standing for exactly the inputs not yet ended, and finishes the ended input's run or none |
| `TurnBook.QueuesHoldTheOutstandingInputs` | src/agent/manager.ts:1924-1937 | over every history both queues have length `pendingInputs`, hold the flags and senders of the outstanding inputs in order, and `inputSeq - pendingInputs` inputs have ended |
| `TurnBook.ResultsFinishTheirOwnRuns` | src/agent/manager.ts:1933-1957 | over every history the finished runs are those of the ended inputs, in order |
| `TurnBook.TurnSenders` | src/agent/manager.ts:918-928 | the loop returns every distinct sender once, or none when some outstanding input has no sender |
| `TurnBook.SendersKnownExactly` | src/agent/manager.ts:918-928 | senders are known exactly when some input is outstanding and each was sent by somebody, and they are exactly those of the outstanding inputs |
| `TurnBook.LiveTurns.PushUser` | src/agent/manager.ts:1626-1632 | the class's push is the specified one |
| `TurnBook.LiveTurns.EndInput` | src/agent/manager.ts:1933-1937 | the class's end of an input is the specified one, and yields the run it carried |
| `AgentManager.Manager.ContinueSend` | src/agent/manager.ts:969-1026 | one pass of the sending loop: wait for a reload, a check turn or the folder, push, or boot |
| `AgentManager.Manager.LetGoOf` | src/agent/manager.ts:984-996 | when the bounded wait is over the live instance, whichever it is, is aborted, and detached with its folder only if it is the one waited for |
| `AgentManager.Manager.GiveUpOn` | src/agent/manager.ts:977-1026 | and the send asks for its folder or boots, whatever is live |
| `AgentManager.Manager.EndTurn` | src/agent/manager.ts:1924-1958 | the fields a result updates, branch by branch |
| `AgentManager.Manager.HandleResult` | src/agent/manager.ts:1924-2090 | a result ends its input, its check run, a deferred reload, starts or pushes a check, and frees the folder when nothing is outstanding |
| `AgentManager.Manager.CheckStarted` | src/agent/manager.ts:2106-2149 | a granted check is abandoned with its run ended, or pushed with the folder claimed |
| `AgentManager.Manager.ReloadAfterTurn` | src/agent/manager.ts:1122-1137 | the method is the step whose effect on turns `Reloads` states: applied when idle, marked when a turn is in flight; false when the session is not live |
| `AgentManager.Manager.LoopEnded` | src/agent/manager.ts:1722-1729 | the end of the query loop ends an open check run |
| `AgentManager.Manager.SessionExit` | src/agent/manager.ts:1730-1760 | the end of the teardown removes the session, unless replaced, and frees its folder |
| `Reloads.StepReloads` | src/agent/manager.ts:1110-1137 | every step: exactly which instances it tells to reload, and which sessions are marked to reload after their turn |
| `Reloads.ReloadsWaitForTheTurn` | src/agent/manager.ts:1122-1137 | a reload after the turn, or for another fingerprint, tells the live instance at once when no input is outstanding; with one outstanding it tells nobody and the session is marked |
| `Reloads.CallsReload` | src/agent/manager.ts:664-692 | a call for a fingerprint that waits has told the idle live instance to reload; one refused in a turn has marked it, unless it was told before; one granted finds it under the fingerprint |
| `Reloads.MarkEndsExactly` | src/agent/manager.ts:1960-1963 | a mark goes exactly by an abort, a detachment, the end of the live instance or a result that ends the last input, which leaves its instance told to reload |
| `Reloads.PromiseIsKept` | src/agent/manager.ts:1960-2083 | over every run in which nothing takes the instance or its mark away, it has been told to reload whenever it has no input outstanding |
| `Reloads.TurnsKeepInputExactly` | src/agent/manager.ts:1110-1137 | a step keeps it so that no instance told to reload has an input outstanding exactly when it is none of three: a plain reload in a turn, a restart after a closed stream with more inputs, an unbudgeted check pushed by a stray result |
| `Reloads.DeferredReloadsBreakNoTurn` | src/agent/manager.ts:653-678 | so over every budgeted run with no plain reload and no restart no turn loses its input |
| `FolderExclusion.StepSound` | src/agent/manager.ts:941-1035 | every step keeps the machine well formed: live instances are their own session's and have not exited, check starts point at their session's instances, the claims are linked and nobody waits on itself |
| `FolderExclusion.ExclusionKeptExactly` | src/agent/manager.ts:859-869 | every step keeps the invariant that a session that boots or has an input outstanding holds its folder exactly when it is guarded |
| `FolderExclusion.RunKeepsExclusive` | src/agent/manager.ts:2092-2149 | over every guarded run it holds throughout |
| `FolderExclusion.OneTurnPerFolder` | src/agent/manager.ts:941-1035 | over every guarded run two sessions of one folder with an input outstanding are one session, the folder's holder |
| `FolderExclusion.OrderKeptExactly` | src/agent/manager.ts:941-1035 | a step keeps exclusion and one instance per session exactly when it is no boot past a live instance, and no retry or check after a stray result without the folder |
| `FolderExclusion.OneTurnWhileOrderly` | src/agent/manager.ts:941-1035 | over every run of such steps, and so over every budgeted run in which no send gives up and no instance retries, a session has one instance at a time and a folder one session with a turn in flight, its holder |
| `FolderExclusion.RetryBreaksExclusion` | src/agent/manager.ts:1684-1710 | a run without the guard that leaves two sessions of one folder with a turn in flight, one not its holder |
| `Overtaking.GiveUpBreaksExclusion` | src/agent/manager.ts:976-999 | and one by a second send that gives up on an instance already replaced |
| `Lifecycle.StepLife` | src/agent/manager.ts:969-1035 | every step's effect on the live instances and the boots in flight |
| `Lifecycle.BootsStartHeld` | src/agent/manager.ts:1007-1026 | a boot that is not a retry is started only by a session that holds its folder or has none, whatever it gave up on |
| `Lifecycle.OverlapExactly` | src/agent/manager.ts:976-999 | a step lets a session boot beside a live instance exactly when it gives up on one that is not the live one |
| `Lifecycle.LiveStaysExactly` | src/agent/manager.ts:1684-1710 | a live instance that does not leave stays the live one exactly when no other instance of its session retries |
| `Lifecycle.AloneExactly` | src/agent/manager.ts:976-999 | and nothing of its session boots beside it exactly when the step does not overtake it |
| `Overtaking.RetryDisplaces` | src/agent/manager.ts:1692-1699 | a run in which a detached instance's retry takes the place of the live one in the middle of its turn |
| `CheckTurns.StepCause` | src/agent/manager.ts:969-1035 | every step changes at most one instance, for one of a few causes, and only the matching events push or end inputs |
| `CheckTurns.OnlyItsResultEndsACheck` | src/agent/manager.ts:2150-2158 | while a check turn is in flight no step but its result touches the instance's inputs |
| `CheckTurns.CheckHoldsExactly` | src/agent/manager.ts:1000-1006 | until its result or its instance's end a check turn has its session to itself, every other send waiting and nothing booting, exactly when the step does not overtake it |
| `CheckTurns.CheckHoldsOverRuns` | src/agent/manager.ts:1000-1006 | and so over every run without such a step |
| `Overtaking.CheckIsOvertaken` | src/agent/manager.ts:976-999 | a run in which a second send that gives up starts a turn past an open check turn of its session |
| `CheckTurns.SendsAvoidBusyInstances` | src/agent/manager.ts:969-1023 | an input enters an instance only by a send that finds it neither reloading, closing nor checking, or as a check of an idle one |
| `CheckTurns.ChecksAreAsked` | src/agent/manager.ts:2060-2083 | a budgeted check is asked for by a result that ends the last input of a turn worth one, when it is no check's own and no reload waited for it |
| `CheckTurns.ChecksArePushedExactly` | src/agent/manager.ts:2106-2149 | a granted check becomes the next input of its instance, alone and with its run open, exactly when nothing was given to the session since and no voice call, reload, abort or other folder holder keeps it; else its run is ended and nothing else happens |
| `CheckTurns.RefusedChecksEnd` | src/agent/manager.ts:2106-2117 | a refused check leaves everything as it is |
| `CheckTurns.ChecksOverRuns` | src/agent/manager.ts:2106-2166 | over every run of a budgeted manager a check in flight is the only outstanding input and every check run is ended at most once or held by one instance |
| `CheckTurns.RunLeftOpenExactly` | src/agent/manager.ts:2118-2149 | a step leaves a check run with nothing to end it exactly when it pushes a check into an instance whose query loop has ended |
| `CheckTurns.OpenForGoodExactly` | src/agent/manager.ts:1722-1729 | a check run that an instance holds is never ended, over every run from then on, exactly when the instance's query loop has ended |
| `CheckTurns.RunCanBeLeftOpen` | src/agent/manager.ts:2118-2149 | a run in which a check run is started, never finished, and every instance is gone |
| `InputHistories.StepMovesBooks` | src/agent/manager.ts:1924-1937 | every step, budgeted or not, moves the bookkeeping of every instance by that instance's own pushes, tags and results, in order, and by nothing else |
| `InputHistories.QueuesHoldTheGivenInputs` | src/agent/manager.ts:1626-1650 | over every run the queues of every instance, live or not, hold exactly the inputs it was booted with or given that have not ended, oldest first, with the runs they carry |
| `Sends.SendsEndExactly` | src/agent/manager.ts:969-1035 | a send is over exactly when its input went into a live instance's queue, the boot that carries it was tagged or failed, or it failed itself |
| `Sends.CheckWaitsEnd` | src/agent/manager.ts:1000-1006 | a send that waits for a check can go on once the check's result comes, or its instance exits or retries |
| `Sends.ExitWaitsEnd` | src/agent/manager.ts:976-999 | and one that waits for an instance to go, once it has |
| `Sends.BootingSendsStay` | src/agent/manager.ts:1007-1035 | a send whose input a boot carries never comes back to the loop, so it pushes nothing: it waits for the boot, then for its tag |
| `Sends.FailureFreesFolder` | src/agent/manager.ts:1027-1035 | a failed send frees its session's folder unless the session has a turn in flight or boots, and then nothing is freed |
| `Sends.BornClean` | src/agent/manager.ts:1623-1660 | an instance is born with the one input it was booted for, under its boot's fingerprint, and with no flag set |
| `Sends.CheckFlagAfterResult` | src/agent/manager.ts:1960-2090 | the flag of a check turn outlives its result only when that closed the stream or is to be tried again |
| `ConfigFingerprint.StepKeepsAwaits` | src/agent/manager.ts:664-692 | while nobody asks for another fingerprint, a waiting call's instance is still live or replaced by one under its fingerprint, and so is every boot |
| `ConfigFingerprint.AnswersAtOnce` | src/agent/manager.ts:664-683 | a call is refused at once exactly in a turn under another fingerprint, or in a boot of a session that is not live, and waits exactly for an idle live instance under another |
| `ConfigFingerprint.TrueOnceGone` | src/agent/manager.ts:684-692 | without a stale boot a waiting call answers true exactly once the instance it waits for is no longer live |
| `ConfigFingerprint.TrueMeansUnderExactly` | src/agent/manager.ts:664-692 | for every call not refused at once: all its answers of true, over all runs in which nobody asks for another fingerprint, leave the live instance and the boot in flight under the one asked for exactly when no boot under another was in flight at the call |
| `ConfigFingerprint.StaleBootsOverlap` | src/agent/manager.ts:664-692 | such a call meets a boot under another fingerprint only while its session boots beside a live instance |
| `ConfigFingerprint.UnderStays` | src/agent/manager.ts:653-663 | and they stay so over every run in which nobody asks for another |
| `Overtaking.TrueWithAStaleBoot` | src/agent/manager.ts:664-692 | a run from the start to such a call, which answers true while a boot under the old fingerprint is in flight |
| `Ledger.Table.Start` | src/db/background-runs.ts:69-85 | a row is appended, open, and every pool it is in spends its provisional cost more |
| `Ledger.Table.Progress` | src/db/background-runs.ts:119-126 | every pool of an open run counts its cost so far in place of its last one, and nothing else moves; a finished run still counts what it finished with |
| `Ledger.Table.Finish` | src/db/background-runs.ts:128-139 | every pool of a run counts its last cost, and no later progress or `finishOpen` moves it |
| `Ledger.Table.FinishOpen` | src/db/background-runs.ts:167-180 | true exactly when the row is open and belongs to this agent and pass, which it then no longer is; only then its pools count the cost |
| `Ledger.EstimateIsLeast` | src/background/budget.ts:85-91 | the estimate is the floor for a wake or without an ok run; else the least amount below neither the floor nor the cost of an ok run of the pass that no other started after |
| `Ledger.StartsExactly` | src/background/budget.ts:54-112 | a pass starts exactly when the day's spend on its side, row by row, its estimate, and for a pass behind a nightly still due the nightly's, are within its limit; it is stopped exactly when the spend alone is not |
| `Ledger.FirstStarts` | src/background/budget.ts:15-28 | the limits that let each pass start on an empty ledger, in micro-dollars, with shared and with split pools |
| `Ledger.CheckAndRecheckAgree` | src/background/budget.ts:99-123 | with nothing written in between, a start passes the re-check after its insert exactly when it passed the check before |
| `Ledger.SplitSidesAreIndependent` | src/background/budget.ts:52-68 | with split pools every start, re-check, stop and estimate of a pass is the same whatever rows the other side has |
| `Budget.WritesAreTheLedgers` | src/background/runner.ts:263-302 | every write of the protocol is one of the ledger's own |
| `Budget.WhoRecords` | src/background/runner.ts:263-302 | the runner's passes record and finish, the others settle once |
| `Budget.StepKeeps` | src/background/runner.ts:329-392 | every step keeps the admitted spend within the limit plus one increase for each run that recorded since the pool was last seen within it |
| `Budget.Overshoot` | src/background/runner.ts:322-392 | over every interleaving, with at most k active runs and no increase above T, the admitted spend, and the whole day's once every start is decided, is at most the limit plus k times T |
| `Budget.AdmissionIsSafe` | src/background/skill-check.ts:174-194 | over every interleaving of starters, while nothing rises, the admitted runs fit the limit together, each with all inserted before it, and a pass behind the nightly also leaves its estimate free |
| `Budget.OvershootIsReached` | src/background/runner.ts:369-392 | for every k and T a history with at most k active runs and no increase above T that ends exactly k times T above the limit |
| `PassLoop.Provisional` | src/background/runner.ts:334-347 | the loop returns the summed tokens and priced sum of the slots, raised to the estimate when something has no price, and the unpriced models in order |
| `PassLoop.RunMessages` | src/background/runner.ts:360-448 | the message loop, until a message ends it, and the settlement leave the specified outcome, tokens, cost, ledger steps and unpriced model; ok and stopped for the budget exactly as the next row says |
| `PassLoop.OutcomeExactly` | src/background/runner.ts:393-448 | over every stream a run is ok exactly when nothing shut it down and it was ended by a successful or capped result whose usage has a price; stopped for its budget exactly when it was ended by a priced message that found the pool over its limit; else an error |
| `PassLoop.SlotsAreTheLastMessages` | src/background/runner.ts:366-377 | over every stream what is counted is the last message of each id and every message without one, at its own model or the run's, the output taken at 1024 at least |
| `PassLoop.FigureIsOfTheLastMessages` | src/background/runner.ts:330-347 | until a result the figure is those messages' tokens and prices, kind by kind; one without a price ends the run at its estimate at least, and is named |
| `PassLoop.ResultFigure` | src/background/runner.ts:401-434 | what each kind of result makes of the figure: its own priced usage, by its models, the run's or the one model named; else never less than the estimate or the figure so far, the first unpriced model named |
| `PassLoop.FigureIsTheLastWrite` | src/background/runner.ts:329-333 | and the row's last write is that figure |
| `PassLoop.LoopKeeps` | src/background/runner.ts:325-392 | over every stream the map names each message once, and while the run goes on the tokens and the figure are those of its slots, all priced |
| `PassLoop.RepeatsCountOnce` | src/background/runner.ts:370-377 | a message that comes again, as the blocks of one call do, changes nothing of the figure |
| `PassLoop.LastMessageCounts` | src/background/runner.ts:370-377 | what counts of a message id is its last message |
| `PassLoop.UnpricedIsNeverFree` | src/background/runner.ts:344-431 | a run ended by a model with no price is recorded at no less than its estimate, and as an error |
| `PassLoop.ResultReplacesTheFigure` | src/background/runner.ts:401-418 | a priced result's tokens and cost are those of its own usage, whatever was provisional |
| `PassLoop.LoopFollowsTheProtocol` | src/background/runner.ts:368-433 | over every stream a run records only after a look at its pool that found it within the limit, never after one that did not, and is stopped for the budget exactly then |
| `TurnUsage.TurnTokens` | src/background/skill-check.ts:323-350 | the loop that fills the difference computes the specified attribution |
| `TurnUsage.SumsToTheTurn` | src/background/skill-check.ts:309-350 | the attribution sums to the turn's usage, names no model twice, has no empty entry and none negative |
| `TurnUsage.AttributionIsExact` | src/background/skill-check.ts:309-350 | over a session of a fresh process, in either shape of report, each turn is attributed exactly what each model used |
| `TurnUsage.AttributionTelescopes` | src/agent/manager.ts:1942-1958 | over a session of running totals tokens, and any price per token, add up to those of the final report |
| `TurnUsage.PriceByModel` | src/background/prices.ts:111-173 | the loop returns the summed tokens, the unpriced models, and a cost to which each entry adds its input, output, cache-read and cache-write tokens each at its own price, an unpriced one nothing |
| `TurnUsage.UnpricedInOrder` | src/background/prices.ts:167-171 | the unpriced models are those of the entries without a price, in the record's order |
| `TurnUsage.PricedExactly` | src/background/prices.ts:92-115 | a model has a price exactly when the table names it, with or without the provider's prefix and a snapshot date, and its own entry comes first |
| `Calendar.YearStep` | src/background/calendar.ts:20-21 | years follow each other by 365 or 366 days as the Gregorian rule says |
| `Calendar.DayRoundTrip` | src/background/calendar.ts:20-21 | every day number is the number of a valid date |
| `Calendar.DateRoundTrip` | src/background/calendar.ts:20-21 | and every valid date is the date of its number |
| `Calendar.PreviousDayIsOneLess` | src/background/calendar.ts:24-28 | the previous day is one day earlier, across months and years |
| `Calendar.WeekInRange` | src/background/calendar.ts:35-38 | the week number is in 1..53 exactly when the year of the week's Thursday is not in 0..99, and that year is the slot's |
| `Calendar.WeekCanBeOutOfRange` | src/background/calendar.ts:35-38 | the week number of 1 June 50 is not in 1..53 |
| `Calendar.MovedWeek` | src/background/calendar.ts:35-38 | in the years 0 to 99 the week is counted from the first ISO week of 1900 years later |
| `Calendar.SlotIsIsoWeek` | src/background/calendar.ts:31-39 | the slot's year and week are the ones, and the only ones, of section 4.1.4 of ISO 8601:2004 |
| `Calendar.WeeksInOrder` | src/background/calendar.ts:31-39 | weeks are ordered by year and number exactly as they follow each other |
| `Calendar.SlotsFollowWeeks` | src/background/calendar.ts:31-39 | for four-digit years two days share a slot exactly when they share a Monday, and slots sort as text exactly as weeks in time |
| `Calendar.DaysSortAsText` | src/background/calendar.ts:20-21 | `YYYY-MM-DD` strings sort as text exactly as days in time |
| `Calendar.YmdReads` | src/background/calendar.ts:20-21 | the text of a day holds the decimal digits of its year, month and day |
| `Calendar.SlotReads` | src/background/calendar.ts:38-39 | and that of a week those of its year and number |
| `Digests.ReachedIsLate` | src/background/scheduler.ts:139-160 | an entry is due from its minute of the period to the period's end |
| `Digests.SlotsMarkPeriods` | src/background/scheduler.ts:139-160 | two days share an entry's slot exactly when they are one day, or for a weekly entry in one week |
| `Digests.DueSlots` | src/background/scheduler.ts:155-165 | the loop returns the entries past their minute of the period whose slot is not the last seen, in schedule order |
| `Digests.DueTimes` | src/background/scheduler.ts:139-165 | what is due at each minute of the week when nothing was seen yet |
| `Digests.CoveredDays` | src/background/digest.ts:159-167 | the two loops return the seven days of the week before, Monday to Sunday, whatever the weekday |
| `Digests.CoveredExactly` | src/background/digest.ts:159-167 | a day is covered once when its week is the one before, and otherwise not |
| `Digests.WindowIsCovered` | src/background/digest.ts:229-235 | the digest's comparison of local-day strings accepts exactly the covered days |
| `Digests.TickOneIs` | src/background/scheduler.ts:255-272 | a replica's memory of its last slot changes neither which slots are claimed nor which digests start |
| `Digests.DigestsTileTheCalendar` | src/background/scheduler.ts:252-272 | over every history of ticks of any number of replicas a day is covered by exactly one started digest when some tick claimed in the week after it, and by none otherwise |
| `Digests.PreviousIsLatestWeek` | src/db/background-slots.ts:23-35 | the row with the greatest smaller slot text is that of the latest earlier week |
| `Placeholders.Lossless` | src/db/client.ts:88-168 | the pieces of a text concatenate to it |
| `Placeholders.KthPlaceholder` | src/db/client.ts:158-166 | the bare `?` with j others before it is printed as `$` and the decimal numeral of j + 1, every other piece verbatim |
| `Placeholders.ToPositional` | src/db/client.ts:88-168 | the scanner's loops print the tokenizer's pieces, each placeholder as `$` and digits that read as how many there are up to it, everything else verbatim |
| `Placeholders.NumberedOnce` | src/db/client.ts:158-161 | and no other text prints them so: a number has one numeral |
| `Placeholders.QuotedRegion` | src/db/client.ts:95-131 | a quoted text or name, its quotes doubled, is one region through its closing quote, or to the end |
| `Placeholders.LineRegion` | src/db/client.ts:132-137 | a line comment is one region up to its newline |
| `Placeholders.BlockRegion` | src/db/client.ts:138-143 | a block comment is one region through the first closing mark |
| `Placeholders.DollarRegion` | src/db/client.ts:144-156 | a dollar quote, its tag empty or an identifier, is one region through the next `$tag$` |
| `Placeholders.OtherRegion` | src/db/client.ts:157-168 | any other character is a piece of its own, a bare `?` a placeholder |
| `Placeholders.RelexesExactly` | src/db/client.ts:73-168 | the output tokenizes to the same pieces, placeholders as their own characters, exactly when no bare `$` and tag stands before a placeholder |
| `Placeholders.SecondApplicationChangesNothing` | src/db/client.ts:73-168 | without that hazard the output has no placeholder and a second application changes nothing |
| `Placeholders.UnchangedExactly` | src/db/client.ts:88-168 | a text, and so the output of a first application, is left as it is exactly when it has no placeholder |
| `Placeholders.NoDollarNoHazard` | src/db/client.ts:73-87 | SQL with no `$` outside protected regions has no hazard |
| `Placeholders.SecondApplicationCanChange` | src/db/client.ts:146-157 | texts with the hazard that a second application changes |
| `GrantsCache.Grants.StoredGrants` | src/access/role.ts:103-132 | a call is given a cached value, the read in flight, or a new read it starts |
| `GrantsCache.Grants.ReadEnded` | src/access/role.ts:110-126 | a settled read enters the cache, for its time to live, only in its own generation |
| `GrantsCache.Grants.Finalize` | src/access/role.ts:128-130 | a finished read removes itself from the reads in flight and no other |
| `GrantsCache.Grants.InvalidateGrants` | src/access/role.ts:82-91 | an invalidation moves the generation and drops one persona's entries or all |
| `GrantsCache.CallsAreFresh` | src/access/role.ts:72-132 | over every history a call is given a read of its persona begun after every earlier invalidation of it, a cached one within its time to live |
| `GrantsCache.OvertakenReadsAreNotCached` | src/access/role.ts:109-126 | a read enters the cache exactly when nothing was invalidated since it began |
| `GrantsCache.OneReadAtATime` | src/access/role.ts:73-74 | of a persona's reads not overtaken only one is under way, and it is the one in flight whatever older reads finish |
| `GrantsCache.FinishedReadsLeave` | src/access/role.ts:128-130 | over every history a read that finished is in flight for nobody |
| `GrantsCache.AnyCallMayCome` | src/access/role.ts:82-132 | no history stands in the way of a call, an invalidation, or the settling and the end of a read |
| `Versions.CmpSemver` | src/cli/dist.ts:20-29 | the loops over two accepted names compute the specified comparison of what the names split into |
| `Versions.CmpPrerelease` | src/cli/dist.ts:36-50 | and so do those over pre-release identifiers |
| `Versions.ParsePrint` | src/cli/dist.ts:31-34 | splitting the name of a version gives back the version: the first dash, and every dot |
| `Versions.NamesAreVersions` | src/cli/dist.ts:11 | the pattern accepts the names of well-formed versions and no other, and two are equal exactly when what they split into is |
| `Versions.PatternIs` | src/cli/dist.ts:11 | three numbers of digits, and pre-release identifiers of letters, digits and dashes |
| `Versions.CmpIsPrecedence` | src/cli/dist.ts:20-50 | without leading zeros the comparison is the precedence of section 11 of SemVer 2.0.0 in both directions, and zero only for equal versions |
| `Versions.CanonicalIsDecimal` | src/cli/dist.ts:11 | the numbers without leading zeros are those that printing a number in decimal gives |
| `Versions.ZeroMeansEqualNames` | src/cli/dist.ts:20-50 | so zero only for equal names |
| `Versions.CmpTransitive` | src/cli/dist.ts:20-50 | lower than lower is lower, leading zeros or not; without them a strict total order |
| `Versions.CmpAntisymmetric` | src/cli/dist.ts:20-50 | and two names compare opposite ways round, leading zeros or not |
| `Versions.ZeroExactly` | src/cli/dist.ts:36-50 | for any two names it is zero exactly when the numbers agree and the pre-releases are equal or first differ in two writings of one number |
| `Versions.ZeroIsNotTransitive` | src/cli/dist.ts:36-50 | with leading zeros zero is not transitive |
| `Versions.Directory.InstalledVersions` | src/cli/dist.ts:52-58 | the installed names, each once, none above the next; ascending throughout when no two of them compare to zero |
| `Versions.ListingDetermined` | src/cli/dist.ts:52-58 | and then there is only one such list |
| `Versions.TiesLeaveItOpen` | src/cli/dist.ts:52-58 | of two names either may come first exactly when they compare to zero |
| `Versions.NoZerosToldApart` | src/cli/dist.ts:20-58 | of versions without leading zeros no two compare to zero |
| `Versions.Directory.PreviousVersion` | src/cli/dist.ts:74-78 | none exactly when no other version is installed, else another than the active one: the newest, when no two names compare to zero |
| `Versions.Directory.PruneVersions` | src/cli/dist.ts:113-121 | the active version survives with the newest `keep`, at most one more in all, and the rest is returned; exactly those, when no two names compare to zero |
| `Versions.PruningKeepsPrevious` | src/cli/dist.ts:74-121 | with names told apart the previous version survives exactly when there is none, or two are kept, or one is and the active version is not the newest |
| `Migrations.Database.Transaction` | src/db/migrate.ts:107-116 | claim and file are applied together, or neither |
| `Migrations.Database.RunMigrations` | src/db/migrate.ts:105-124 | alone, a run leaves a longer prefix of the list, the whole of it when it succeeds, and reports what was there and what it added in order |
| `Migrations.SchemaIsAPrefix` | src/db/migrate.ts:97-128 | over every interleaving of replicas crashing at any step the committed files are a prefix of the list, each run on exactly the files before it, reports are of own commits, and a replica at the end leaves the whole list |
| `Migrations.AppliedOnce` | src/db/migrate.ts:107-122 | no version is reported applied by two replicas |
| `Migrations.CanAlwaysFinish` | src/db/migrate.ts:97-128 | after every history a replica that joins, once the open transaction is gone, can go on to the whole list |
| `BrainImport.BatchPages` | src/brain-migrate/bundle.ts:111-122 | the batches concatenate to the pages, none is empty, each is within both caps unless a single page, and each was closed only because the next page did not fit |
| `BrainImport.RemapStaysInScope` | src/brain-migrate/remap.ts:18-52 | whatever the map, no kb source is imported, every target is allowed, and a profile receives only its own pages |
| `BrainImport.RemapSends` | src/brain-migrate/remap.ts:39-52 | where a source goes: nowhere for kb, else where an allowed mapping sends it, else the agent-like to the persona's slice, and a person's source, shared and public to themselves |
| `BrainImport.PersonSourcesAre` | src/brain-migrate/remap.ts:16-20 | a person's sources are `user-` with lower-case letters and digits, and a profile of at most 32 characters by hash or by team and user |
| `BrainImport.SortAgents` | src/brain-migrate/export.ts:40-41 | the agent-like ids sorted: the same ids, nothing but `agent` after `agent`, nothing but that and itself after `agent-default`, whatever the locale's order of equals |
| `BrainImport.OrderSources` | src/brain-migrate/export.ts:39-44 | the agent-like ids, most specific first and each once, fill the slots agent-like ids occupied, and every other source stays where it was |
| `BrainImport.PlacedAgents` | src/brain-migrate/export.ts:42-43 | the slot counter puts exactly the sorted ids, in their order, into those slots |
| `BrainImport.ServedInTurn` | src/brain-migrate/apply.ts:41-94 | a request serves each page once, in order: written, failed, or found there by its lookup; only a write after a lookup that found nothing changes the store |
| `BrainImport.CleanDelivery` | src/brain-migrate/apply.ts:41-94 | under skip a delivery keeps what was there and leaves each new slug with its first copy in bundle order |
| `BrainImport.DeliveredExactly` | src/brain-migrate/apply.ts:41-94 | over every such history, whatever fails, the brain holds what one clean delivery leaves exactly when no new slug was left unwritten or last written with a later, different copy |
| `BrainImport.LossFollowsAFailure` | src/brain-migrate/apply.ts:91-93 | a first copy that was served is overruled or unwritten only if it failed |
| `BrainImport.ReplayIsOneDelivery` | src/brain-migrate/client.ts:61-96 | over every history of retried and overlapping batches, failures, cuts and re-runs in which no first copy of a new slug fails, the brain holds only what it held and first copies, and once every page was served exactly what one clean delivery leaves |
| `BrainImport.CleanWithoutFailuresExactly` | src/brain-migrate/apply.ts:41-94 | once every page was served, when copies differ and no failed first copy was written by another request, the brain holds what one clean delivery leaves exactly when no first copy failed |
| `BrainImport.AgentSliceIsMostSpecific` | src/brain-migrate/export.ts:32-44 | in the agent slice a new slug is the copy of a source that no other copy's source ranks before, or one that the operator's map sent there |
| `BrainImport.AFailureLosesTheFirstCopy` | src/brain-migrate/apply.ts:91-93 | histories in which the first of two copies fails, in its lookup or after it, and the second is written for good |
| `BrainImport.SettledStays` | src/brain-migrate/apply.ts:52-58 | a slug that is there, with no request about to write it, stays as it is over every history: no re-run restores a lost copy |
| `Metrics.ReplacesAreOneEscape` | src/metrics.ts:49-56 | the three replacements are one escape per character |
| `Metrics.ValueRoundTrip` | src/metrics.ts:49-56 | the escape can be undone and its end found whatever follows |
| `Metrics.LabelsRoundTrip` | src/metrics.ts:49-56 | rendered labels parse back to themselves when no key holds `="` |
| `Metrics.SeriesKeyIsInjective` | src/metrics.ts:58-61 | label maps whose keys are a prefix code share a series exactly when they are the same map |
| `Metrics.UnmarkedIsPrefixFree` | src/metrics.ts:42-61 | keys that hold no `="`, as no identifier does, are a prefix code |
| `Metrics.OtherKeysCollide` | src/metrics.ts:49-61 | two different label maps with one series, one of them with a key that is no identifier |
| `Metrics.SeriesDoNotMix` | src/metrics.ts:85-90 | over every list of increments a series holds those of its own label map and no other's |
| `Metrics.Histogram.Observe` | src/metrics.ts:138-151 | an observation adds to the first bucket that holds it, the sum and the count |
| `Metrics.Histogram.Render` | src/metrics.ts:166-175 | each rendered bucket is the number of observations at or below its bound, non-decreasing up to the count |
| `Metrics.UpToIsAtOrBelow` | src/metrics.ts:145-171 | counting by first bucket and adding up is counting at or below the bound |

## Left out

- FolderExclusion.OneTurnPerFolder: holds of guarded runs only, because of the runs above that break it; `OneTurnWhileOrderly` has a guard read from the events.
- Metrics.SeriesKeyIsInjective: key sets that are no prefix code are not settled exactly; the pattern of configured labels admits none.
- BrainImport.ReplayIsOneDelivery: a page that two overlapping requests both found missing is taken to be replaced by the second write; timeline entries the engine might append twice are not modelled.
- Budget.Overshoot: the sweep that ends stale open runs is not a step, so a run it ends while still going is not covered; an insert may carry any estimate, so the check before the insert needs no step of its own.
- Versions.CmpIsPrecedence: numbers are exact, where JavaScript rounds those above 2^53; build metadata is not accepted by the name pattern.
- Versions.Directory.InstalledVersions: when names compare to zero the library's sort may leave more out of order than the insertion modelled here.
- Calendar.SlotsFollowWeeks: years of four digits, as slots of other years have another length.
- Ledger.LastOk: of ok runs started at the same millisecond the query may return any; the model takes the last inserted.
- Digests.DigestsTileTheCalendar: counts started digests; one whose handler fails afterwards is not sent again, as its slot stays claimed.
- AgentManager.Manager: instances are known by number rather than by reference, and the class holds the whole state of the machine; message texts, wake timers, voice holds, remote handles and the last-resort catch are not modelled.
- PassLoop.RunMessages: the answers of the pool and of the shutdown signal are inputs, one for each message; a message without an id never shares a key with one that has an id.
- Links, origins and counters of an import, the heal pass and the reconciliation of counts: links follow the pages and are idempotent in the engine.
- `selectSources`, `roleFromGrants`, `admit`, `usersWithRole`, `heartbeatSlot`, `unpricedBlock`, `spendLeft`: short branch tables or filters.
- The advisory lock around migrations: the model needs none; replicas with different migration lists are not modelled.
- Time zones, single-row compare-and-set repositories, prompts, cards, HTTP, Slack, Redis, git, encryption and redaction.
