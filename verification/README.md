# Verification of the host daemon's effect protocols

The daemon acts on the outside world in one pattern: record an intent durably,
perform one external effect, settle the record, and after a crash classify what
was left. This project models those protocols, the file layer under them and
the printers, framers and worklists they rely on, and proves what they promise
for every input, every interleaving and every crash point.

| file | what it models |
|---|---|
| `OAuthRecords.dfy`, `OAuthAttemptStore.dfy` | the OAuth attempt record (coherence, transitions, restart classification) and its compare-and-set journal |
| `OAuthBroker.dfy`, `OAuthBrokerSafety.dfy`, `OAuthClock.dfy`, `OAuthHelpers.dfy`, `OAuthStarts.dfy`, `OAuthSections.dfy`, `OAuthOutcomes.dfy` | the session broker over the journal: provider login, storage commit, cancellation, close, crash, power loss, and a wall clock that may be set back |
| `AtomicDirectory.dfy` | publication, replacement, two-step deletion and recovery of record files over names, inodes and unsynced directory operations |
| `Journal.dfy` | the exactly-once JSONL journal |
| `UnsyncedFiles.dfy` | what a power loss may leave of a directory of whole files |
| `CandidateStore.dfy`, `CandidateMarks.dfy`, `CandidateVersions.dfy` | candidate evaluation records and immutable receipts, what writing calls keep of them, and what holds of every version of them a power loss may leave |
| `CandidateCoordinator.dfy`, `CandidateSafety.dfy`, `CandidateResults.dfy`, `CandidateRestarts.dfy`, `CandidateConvergence.dfy`, `CandidatePolls.dfy` | the evaluation coordinator: launch barrier, restart, reconciliation, polls |
| `CanonicalJson.dfy`, `CodeUnits.dfy` | the canonical JSON printer and `JSON.stringify`, with a parser that undoes both |
| `WindowsQuoting.dfy` | Windows argument quoting and the C runtime's splitting rules |
| `WorkerBridge.dfy`, `WorkerProtocol.dfy`, `WorkerVerdicts.dfy`, `WorkerExecutions.dfy` | the resident worker's request bridge, bridge and server as one two-party system, and what its verdicts mean |
| `SessionOwnership.dfy`, `ResidentSessions.dfy`, `ConnectionHistories.dfy`, `ConnectionCounts.dfy` | the worker server's clients, connections, disposals and recovery promises, and each by the history of the requests |
| `OwnershipLease.dfy` | the endpoint publication lease |
| `DispatchLedger.dfy`, `DispatchReplies.dfy` | the resident dispatch ledger, its bit-array fence, and what a dispatch is answered |
| `StdoutFraming.dfy`, `StdoutReplies.dfy` | JSONL framing of a child's stdout, request settlement, and what each caller is told |
| `StartupClosure.dfy` | the renderer's startup import closure and size report |
| `Outcomes.dfy` | shared `Option` and `Result` |

## How the model reads

* **Objects with mutable fields are classes.** Each method is proved against a
  function of the old state, and the properties are proved about runs of those
  functions. Where the code awaits, a method is one stretch between two awaits,
  so any order of calls is one interleaving.
* **Protocols over several objects are step systems** on values: the OAuth broker
  over its journal, the evaluation coordinator over its store, the worker bridge
  with its server. An event carries every free choice: the wall clock (which may
  go back), provider and process behaviour, write failures, crashes, power
  losses. History that no program variable holds (calls made, promises settled,
  what is not yet durable, whether every admission followed the horizon) is part
  of the state.
* **Faults.** A write completes, fails before it becomes visible, or becomes
  visible without confirmed durability. A process may die between any two
  steps; one that dies inside a write is one whose write did not complete.
  Power may be lost at any time, also after any number of process deaths, and
  keeps any subset, in order, of the directory operations not yet synced. In
  `AtomicDirectory.dfy` the process dies before any primitive call, also inside
  recovery. The broker's journal syncs its directory at every recovery; the
  candidate store does so only when it removed a temporary file.
* **A completed write is durable.** This is an assumption about Windows, where the
  code does not sync directories (`src/hostd/atomic-files.ts:293-294`) and where
  alone candidate evaluation is supported (`src/hostd/candidate-evaluation.ts:901-902`):
  there a rename or link of a flushed file that returned is taken to survive a
  power loss.
* **Digests** are injective: an attempt stands for its own digest, a terminal body
  for its own terminal digest, a request's key for the digest of its identities.
  Timestamps are integers.

## Results that differ from what one might expect

* One login ever, and one storage call per attempt, hold only while the wall clock
  is not set back too far: an attempt compacted at one reading can be admitted
  again at a reading that lies at least the retention period less the maximum age
  before it. `OAuthClocks.ClockConditionIsExact` gives the exact condition on the
  readings and `OAuthClocks.TwiceRuns` the run for every pair of readings that
  breaks it. What else is proved of the broker needs no condition on the clock.
* A start of the candidate store can refuse, on every restart, what a power loss
  left: when the retirement of an operation is written but not confirmed, the next
  one may be created. `CandidateRestarts.StartAcceptsExactly` gives the exact
  condition on the events of the run and `CandidateResults.PowerLossMayRefuse` the
  run.
* Evidence convergence holds, whatever power losses take back, while the first
  settlement write that fails is also the last thing its process does. When a
  status write fails and the process lives on, the
  uncertain status written instead can be newer than the evidence, which is then
  never adopted. `CandidateConvergence.AdoptionExactly` gives the exact condition,
  `CandidateConvergence.NeverAdopted` that it is permanent, and
  `CandidateConvergence.SurvivedFailureDiverges` and
  `CandidateConvergence.PublishingIsReached` the run.
* A journal append that reports "already present" is not necessarily durable: a
  process that dies between rename and sync leaves a record that a retry accepts
  and a power loss can still take away. It stays for good exactly when the file
  was synced with it at some point of the run (`Journals.PresentIsDurable`,
  `Journals.PresentMayBeLost`).
* A recovery promise is never settled exactly when its response was malformed
  (success carrying an error, or failure without a well-formed one): the entry is
  removed before the response is checked (`SessionOwnership.LeakedExactly`).
  The host side never sends such a response.
* A live connection can be left without its client, so that closing the client no
  longer reaches it. Taking away a client's last connection takes the client away,
  also while another attach for it runs (`ConnectionCounts.DisposalDuringAttachStrands`);
  and a second request to dispose of a connection, made while the first one's upstream
  call runs, is counted twice (`ConnectionCounts.RepeatedDisposalStrands`). While no
  disposal is repeated, exactly the connections whose attach ended after their client
  had left are without one (`ConnectionCounts.LiveConnectionsHaveClients`).
* The argument quoting rule is also applied to the program name, which Windows
  splits by other rules; it survives exactly when it holds no quote and does not
  both need quotes and end with a backslash (`WindowsQuoting.ProgramRoundTrip`).
* Recovery refuses a zero-length temporary file, so a crash just after creating
  one stops it; recovery results read "when recovery completes".

## Model

| member | source | states |
|---|---|---|
| OAuthRecords.GuardsSuffice | src/hostd/oauth-attempt-store.ts:322-402 | on a coherent record, an operation's own guard decides alone: the coherence and transition checks of the written record never refuse it, and the revision grows by one |
| OAuthRecords.RestartIsLegalAndIdempotent | src/hostd/oauth-attempt-store.ts:1105-1169 | restart classification changes exactly the records that are neither terminal nor recovery-required, always by a legal transition, repeating it at any later time changes nothing, and the record is a barrier afterwards if and only if a helper may still act |
| OAuthRecords.RestartKeepsDoubt | src/hostd/oauth-attempt-store.ts:1105-1169 | after a restart a record is a barrier if and only if a login or storage helper may still act, with the reason of that helper; where none can, it says what surely did not happen; nothing else of it changes |
| OAuthRecords.RunKeepsCoherent | src/hostd/oauth-attempt-store.ts:837-1035 | every sequence of moves from a coherent record ends in a coherent record |
| OAuthRecords.ReachableIffCoherent | src/hostd/oauth-attempt-store.ts:837-1035 | a record passes the coherence, revision-table and provenance checks if and only if some history of prepare, mark, settle, acknowledge and restart moves produces it |
| OAuthRecords.DispatchIsIrrevocable | src/hostd/oauth-attempt-store.ts:1037-1123 | once credentials may have reached storage no move settles the attempt as cancelled, expired, shut down or discarded, or dispatches them again |
| OAuthAttemptStores.OAuthAttemptStore.Initialize | src/hostd/oauth-attempt-store.ts:225-249 | opens exactly when at most one record is unresolved, every record's durability is confirmed and every classification that changes one is written; otherwise each record is kept or classified, and whatever was classified is a barrier exactly where a helper may still act |
| OAuthAttemptStores.OAuthAttemptStore.Prepare | src/hostd/oauth-attempt-store.ts:251-320 | admits exactly as specified by identity, session, barrier, capacity and freshness, keeps one record per revision in each attempt's history, and freezes after an unconfirmed write |
| OAuthAttemptStores.OAuthAttemptStore.Replace | src/hostd/oauth-attempt-store.ts:605-644 | compare-and-set: the visible records and the attempt's history grow by exactly the candidate, or nothing changes |
| OAuthAttemptStores.OAuthAttemptStore.Transition | src/hostd/oauth-attempt-store.ts:322-402 | every marking and settling call is that compare-and-set when the store is writable, and otherwise answers with the store's refusal |
| OAuthAttemptStores.OAuthAttemptStore.AcknowledgeRecord | src/hostd/oauth-attempt-store.ts:404-457 | acknowledging a supplied record, or confirming one already acknowledged, changes files and history only by that acknowledgement |
| OAuthAttemptStores.OAuthAttemptStore.AcknowledgeAttempt | src/hostd/oauth-attempt-store.ts:459-530 | acknowledging by identity, revision and terminal digest |
| OAuthAttemptStores.OAuthAttemptStore.Compact | src/hostd/oauth-attempt-store.ts:554-577 | deletes exactly the acknowledged terminal records past retention; whatever it does, a record that vanishes was terminal, acknowledged and past retention, none changes, and an unconfirmed deletion freezes the store |
| OAuthAttemptStores.CompetingSuccessors | src/hostd/oauth-attempt-store.ts:605-623 | of two different successors of one record at most one is accepted, and the accepted one repeats without effect |
| OAuthAttemptStores.RevisionsOnlyGrow | src/hostd/oauth-attempt-store.ts:605-644 | over any sequence of calls an attempt's record stays or has a greater revision |
| OAuthAttemptStores.RetriesAdvanceOnce | src/hostd/oauth-attempt-store.ts:605-644 | whatever calls come between, repeating an accepted replacement writes nothing, and its answer is the same record or a conflict |
| OAuthAttemptStores.AcknowledgementsAgree | src/hostd/oauth-attempt-store.ts:404-530 | for every predecessor in the attempt's history both acknowledgement entry points accept the same calls, with the same result and files |
| OAuthAttemptStores.EligibleIsRetained | src/hostd/oauth-attempt-store.ts:1249-1256 | what compaction may delete is exactly what was acknowledged by now and final for the retention period |
| OAuthBrokerSafety.CancelCommitSafety | src/hostd/oauth-session-broker.ts:750-1008 | as long as every admission reads the clock after the horizon, credentials of an attempt go to storage at most once, and afterwards its record, also the one a power loss may restore, never ends cancelled, expired, shut down or discarded |
| OAuthBrokerSafety.SetFollowsDurableIntent | src/hostd/oauth-session-broker.ts:1257-1311 | storage is called only for the running session, whose record is durably persistence_dispatching |
| OAuthBrokerSafety.OneLoginEver | src/hostd/oauth-session-broker.ts:340-436 | in every run at most one record is unresolved and a login in progress belongs to it; as long as every admission reads the clock after the horizon, each attempt gets at most one provider login over all restarts and compactions |
| OAuthBrokerSafety.LoginFollowsDurableIntent | src/hostd/oauth-session-broker.ts:340-436 | the provider is called only by an open broker for a record that is durably login_dispatching |
| OAuthBrokerSafety.FenceHolds | src/hostd/oauth-session-broker.ts:460-480 | once a status read through a connection generation was answered absent, no start from an older generation reaches the provider in that process |
| OAuthClocks.ClockConditionIsExact | src/hostd/oauth-session-broker.ts:344-352 | runs that compact at readings up to one bound and afterwards admit at readings from another bound log in and store each attempt at most once if and only if the second bound lies above the first less retention plus maximum age |
| OAuthClocks.TwiceRuns | src/hostd/service.ts:392-395 | for every pair of readings closer than that, a run in which one attempt is logged in and its credentials stored in two sessions |
| OAuthBrokerSafety.RunKeepsInv | src/hostd/oauth-session-broker.ts:340-436 | every run, whatever the clock does, keeps the agreement of journal, session and start in progress, and, while every admission follows the horizon, of the effects made |
| OAuthBrokerSafety.EffectsOfStep | src/hostd/oauth-session-broker.ts:683-695 | exactly one step calls the provider, only past the admission check, exactly one calls storage, and the fence only rises, exactly to the generation of a status read answered absent |
| OAuthHelpers.LostHelperBarsForGood | src/hostd/oauth-session-broker.ts:845-870 | an attempt whose login or storage call was outstanding when its process ended, or came back without confirming its helper gone, stays the one barrier through every restart, power loss, cancellation and start, and no provider or storage call is ever made again |
| OAuthOutcomes.OutcomeIsCaused | src/hostd/oauth-session-broker.ts:750-1008 | in every run each outcome on record was caused: completed or failed in storage only if storage said so of credentials the provider returned, failed at login only if the provider did, cancelled, expired or shut down only if asked for, acknowledged only by a caller, interrupted before login only if none was made while admissions follow the horizon |
| OAuthOutcomes.VanishedWasAcknowledged | src/hostd/oauth-attempt-store.ts:554-577 | in every run a record vanishes only by compaction, acknowledged and past retention, or by a power loss that undoes its creation |
| OAuthSections.SectionConcludes | src/hostd/oauth-session-broker.ts:750-924 | what each section of a run writes in every run when its record can be read and the write goes through: the outcome that the provider's or storage's answer, the expiry and a cancellation meanwhile call for, and whether the provider is released |
| OAuthSections.CancellingWrites | src/hostd/oauth-session-broker.ts:926-974 | in every run cancelling writes the intent while the provider works, disposes of credentials in hand, and otherwise writes nothing |
| OAuthStarts.StartReachesProvider | src/hostd/oauth-session-broker.ts:340-436 | an undisturbed start of a fresh attempt on a healthy journal without a barrier calls the provider once, for a record that says so and lives for the granted time |
| OAuthStarts.StartGoesOnExactly | src/hostd/oauth-session-broker.ts:340-436 | a start is begun, goes on past each boundary and calls the provider exactly while the broker is open, no other start runs, its connection is not fenced off and its attempt is absent |
| OAuthStarts.AdmittedExactly | src/hostd/oauth-attempt-store.ts:251-320 | a new attempt is created exactly when it is timely, no record shares its operation or session, none bars and there is room; one on record is confirmed exactly for the same session, authority and expiry |
| OAuthStarts.WritesExactly | src/hostd/oauth-session-broker.ts:706-714 | a journal write goes through exactly when its move is allowed on the record it replaces, or was made already, and is confirmed; which failures mark the journal as failed |
| OAuthStarts.FailedJournalIsShut | src/hostd/oauth-session-broker.ts:706-714 | until its process ends a failed journal is never written again |
| OAuthStarts.ClosedCallsNoProvider | src/hostd/oauth-session-broker.ts:666-670 | once closed, a broker calls no provider for the rest of its process |
| OAuthStarts.OpensClassified | src/hostd/oauth-attempt-store.ts:225-249 | a broker serves, and records are compacted, only once the journal was recovered without failure and every record is terminal or a barrier that says why |
| OAuthStarts.ClassifyWrites | src/hostd/oauth-attempt-store.ts:1105-1169 | recovery writes the classification over the record it found: a barrier exactly where a helper may still act |
| OAuthStarts.UnstartedIsCancelled | src/hostd/oauth-session-broker.ts:482-512 | cancelling an attempt that was prepared and never went further settles it as cancelled by the user |
| AtomicDirectories.MeansUnique | src/hostd/oauth-attempt-store.ts:1286-1346 | a name space means at most one set of records |
| AtomicDirectories.PublishKeepsSafe | src/hostd/atomic-files.ts:81-109 | linking or renaming a flushed sibling leaves every name space a power loss may keep meaning the records before or after |
| AtomicDirectories.SetAsideKeepsSafe | src/hostd/oauth-attempt-store.ts:704-727 | setting a record aside changes no meaning |
| AtomicDirectories.RemovalKeepsSafe | src/hostd/oauth-attempt-store.ts:704-727 | removing a durably set-aside record is the commit point of its deletion |
| AtomicDirectories.RestoreKeepsSafe | src/hostd/oauth-attempt-store.ts:1286-1346 | restoring a set-aside record changes no meaning, in any possible name space |
| AtomicDirectories.Directory.PublishIfAbsent | src/hostd/atomic-files.ts:171-229 | creates the record or finds it present; dying anywhere leaves the records before or after, and only a dying process leaves it undone |
| AtomicDirectories.Directory.Replace | src/hostd/atomic-files.ts:81-109 | replaces the record's body; dying anywhere leaves the records before or after, and only a dying process leaves it undone |
| AtomicDirectories.Directory.DeleteDurably | src/hostd/oauth-attempt-store.ts:704-727 | deletes exactly the record; dying anywhere leaves the records before or after, and only a dying process leaves it undone |
| AtomicDirectories.Directory.RecoverTemporaryFiles | src/hostd/oauth-attempt-store.ts:1286-1346 | a completed recovery leaves only record files, durable, with the records before or after; it is refused only when a zero-length sibling is there, never completes with one, and otherwise completes unless the process dies |
| AtomicDirectories.Directory.PowerLoss | src/hostd/atomic-files.ts:81-109 | any possible name space with torn unflushed files still holds every record of before and after |
| AtomicDirectories.Directory.RecoverAtomicTemporaryFiles | src/hostd/candidate-evaluation-store.ts:676-724 | the candidate store's recovery leaves only record files, and makes them durable, as before or after the interrupted write, exactly when it removed a temporary file; otherwise nothing becomes durable |
| UnsyncedFiles.AnySubsetIsFileByFile | src/hostd/atomic-files.ts:81-109 | keeping any subset of the unsynced whole-file writes, in order, is the same as leaving each file at any one of its versions |
| AtomicDirectories.Directory.RestartUntilRecovered | src/hostd/oauth-attempt-store.ts:1286-1346 | recovery that itself crashes or loses power any number of times still ends, when it completes, in the records before or after the interrupted operation; an attempt that is given enough calls completes, unless a zero-length sibling is there |
| CandidateStores.CandidateStore.Initialize | src/hostd/candidate-evaluation-store.ts:199-264 | recovers, then accepts the files exactly when every cross-check holds and both directories are within their bound; only a directory a temporary file was removed from becomes durable |
| CandidateStores.CandidateStore.Prepare | src/hostd/candidate-evaluation-store.ts:266-325 | a new operation only when none is a barrier and there is room; an existing one only for identical inputs |
| CandidateStores.CandidateStore.ReplaceUnlocked | src/hostd/candidate-evaluation-store.ts:516-533 | compare-and-set on the whole record, success also when the new record is already there |
| CandidateStores.CandidateStore.MarkInvocationStarted | src/hostd/candidate-evaluation-store.ts:327-358 | only a prepared operation becomes running; repeating the same invocation changes nothing |
| CandidateStores.CandidateStore.MarkOuterProcess | src/hostd/candidate-evaluation-store.ts:360-386 | only a running invocation gets its outer process, once |
| CandidateStores.CandidateStore.MarkInvocationRetired | src/hostd/candidate-evaluation-store.ts:388-412 | retirement is written once, and a tree proof needs the published outer process |
| CandidateStores.CandidateStore.Settle | src/hostd/candidate-evaluation-store.ts:415-450 | a receipt is published before the status that cites it, and the status is written only if the receipt is there, durable and identical |
| CandidateStores.CandidateStore.PublishReceipt | src/hostd/candidate-evaluation-store.ts:487-514 | an existing receipt is never overwritten, is made durable before it is relied on, and must equal the new one |
| CandidateStores.AcceptedMeans | src/hostd/candidate-evaluation-store.ts:199-264 | what a start that accepts the files has made sure of, record by record: times in order, phases with their evidence and errors, receipts of the same run and status, one barrier |
| CandidateMarks.MarksAreFinal | src/hostd/candidate-evaluation-store.ts:327-412 | over any sequence of writing calls, each with any record read before and stopping anywhere, a start, an outer process and a retirement are each written at most once and never changed |
| CandidateMarks.SuccessorSays | src/hostd/candidate-evaluation-store.ts:327-450 | a writing call leaves a record that says exactly what was asked, and unsays nothing |
| CandidateMarks.RepeatsAreAccepted | src/hostd/candidate-evaluation-store.ts:327-450 | a writing call repeated on what it made is accepted and makes nothing new |
| CandidateMarks.CompetingSuccessors | src/hostd/candidate-evaluation-store.ts:516-533 | of two different successors of one record at most one is accepted, and the accepted one repeats without effect |
| CandidatePolls.PreparedExactly | src/hostd/candidate-evaluation-store.ts:266-325 | a new operation is created exactly when its key is free, none bars and there is room; an existing one is handed out exactly for the same request, workspace and run |
| CandidateVersions.AcceptsExactly | src/hostd/candidate-evaluation-store.ts:218-263 | of any store a start accepts, every power loss leaves files a start accepts if and only if no operation was created over an unsynced lifting of another barrier and no evidence is ahead of its invocation |
| CandidateSafety.RunKeepsInv | src/hostd/candidate-evaluation.ts:539-599 | from every state that agrees, every run, process deaths and power losses included, keeps the agreement of files, versions, receipts, launches and running trees; what is durable of evidence and of a status it backs never changes, and nothing visible of it while no power is lost |
| CandidateResults.LaunchIsExclusive | src/hostd/candidate-evaluation.ts:405-509 | a launch is the first of its operation, follows an invocation that every power loss keeps, while every earlier invocation has retirement evidence, even one that settled passed, and no other tree runs |
| CandidateResults.AtMostOneLaunch | src/hostd/candidate-evaluation.ts:203-263 | over starts, polls, closes, process deaths, power losses and restarts each operation launches at most once and one tree runs at a time |
| CandidateResults.EvidenceBeforeStatus | src/hostd/candidate-evaluation-store.ts:415-450 | whatever version of an operation a power loss may leave, a receipt-backed status stands over a receipt that every power loss keeps, with the same status |
| CandidateResults.EvidenceIsFinal | src/hostd/candidate-evaluation-store.ts:487-533 | a durable receipt never changes and neither does a durable status it backs; what is visible stays until power is lost |
| CandidateRestarts.StartAcceptsExactly | src/hostd/candidate-evaluation-store.ts:199-264 | after a process death a start accepts the files; after a power loss it accepts whatever was left if and only if, since the operations were last synced, no operation was created after the lifting of another one's barrier, both unconfirmed, and no published evidence belongs to an invocation written unconfirmed |
| CandidateRestarts.OpenExactly | src/hostd/atomic-files.ts:81-109 | after any run a power loss can make an operation bar others again, or lose its invocation, exactly when an unconfirmed write ended that and no completed write, swept restart or power loss synced it since |
| CandidateResults.RefusedForGood | src/hostd/candidate-evaluation-store.ts:199-264 | durable files that a start refuses are refused at every later start |
| CandidateResults.PowerLossMayRefuse | src/hostd/candidate-evaluation.ts:418-470 | a run of one process, with two writes left unconfirmed, after which a power loss brings back a retired barrier beside a new one, and no start ever accepts again |
| CandidateConvergence.AdoptionExactly | src/hostd/candidate-evaluation.ts:601-626 | reconciling adopts the receipt's status exactly when the operation was not updated after the evidence was completed, and otherwise changes nothing |
| CandidateConvergence.NeverAdopted | src/hostd/candidate-evaluation-store.ts:622-634 | an operation durably updated after its durable evidence never takes the receipt's status |
| CandidateConvergence.CrashesConverge | src/hostd/candidate-evaluation.ts:601-643 | while a process dies with its first failed settlement write, and whatever power losses take back, reconciling an evidenced operation gives it the receipt's status, for good once durable |
| CandidateConvergence.SurvivedFailureDiverges | src/hostd/candidate-evaluation.ts:539-599 | a status write that fails in a living process, followed by the uncertain status, keeps the evidence from ever being adopted |
| CandidateConvergence.PublishingIsReached | src/hostd/candidate-evaluation.ts:628-643 | a concrete run that reaches the point between the receipt and the status |
| CandidatePolls.PollWaitsForDeadline | src/hostd/candidate-evaluation.ts:585-596 | in every run, polling a running evaluation whose process is published, whose tree is not gone and which left no evidence changes nothing before its deadline, and writes the uncertain status from the deadline on |
| CandidatePolls.PollOfUnpublished | src/hostd/candidate-evaluation.ts:587-589 | in every run, polling a running evaluation whose outer process was never published gives it up at once |
| CandidatePolls.PollOfPrepared | src/hostd/candidate-evaluation.ts:564-572 | in every run, polling a prepared operation fails it as not invoked |
| CandidatePolls.PollOfEnded | src/hostd/candidate-evaluation.ts:573-586 | in every run, polling an operation whose tree is gone writes the proof first and then gives a running one up; either way it bars no other |
| CandidatePolls.PollOfEvidence | src/hostd/candidate-evaluation.ts:547-563 | in every run, evidence of this run that is not older than the record is published as it is and its status follows; anything else read as evidence makes the operation uncertain, its receipt invalid |
| CandidatePolls.StatusIsExplained | src/hostd/candidate-evaluation.ts:405-599 | in every run and every version a power loss may leave: an unknown outcome stands only where the invocation was retired, had no outer process, had passed its deadline or had its completion rejected, an invalid receipt only where something was read as one, a failed launch only with the proof that nothing started, an outer process only for a launched operation |
| CandidatePolls.ClosedLaunchesNothing | src/hostd/candidate-evaluation.ts:203-263 | once closed, a coordinator launches nothing for the rest of its process |
| CanonicalJson.ParseUndoesStringify | src/hostd/candidate-evaluation-store.ts:838-853 | parsing a printed value returns the value and whatever delimiter-led text follows it |
| CanonicalJson.StringifyIsInjective | src/hostd/candidate-evaluation-store.ts:838-853 | different values have different texts |
| CanonicalJson.CanonicalIsOrderedStringify | src/hostd/candidate-evaluation-store.ts:838-853 | the canonical text is the plain text of the value with members in key order |
| CanonicalJson.OrderKeepsValue | src/hostd/candidate-evaluation-store.ts:838-853 | ordering members changes no value |
| CanonicalJson.CanonicalIsInjective | src/hostd/candidate-evaluation-store.ts:838-853 | two values have the same canonical text if and only if they are equal up to key order |
| CanonicalJson.KeyPreimageIsInjective | src/hostd/candidate-evaluation-store.ts:652-661 | two requests share an operation key preimage if and only if their four identities agree |
| CodeUnits.SortedIsUnique | src/hostd/candidate-evaluation-store.ts:838-853 | a set of texts has one strictly sorted order, so sorting forgets insertion order |
| CodeUnits.BelowExactly | src/hostd/candidate-evaluation-store.ts:838-853 | one text comes before another exactly when it is a proper beginning of it or has the smaller unit where they first differ |
| WindowsQuoting.SplitUndoesJoin | src/hostd/candidate-evaluation.ts:1124-1128 | splitting the space-joined quoted arguments returns the list, empty strings, quotes, blanks and trailing backslashes included |
| WindowsQuoting.CommandLineRoundTrip | src/hostd/candidate-evaluation.ts:1124-1128 | a list is refused exactly when an argument is too long or holds NUL, CR or LF, and otherwise survives |
| WindowsQuoting.ProgramRoundTrip | src/hostd/candidate-evaluation.ts:1103 | a whole line with its program name survives if and only if that name holds no quote and does not both need quotes and end with a backslash |
| WindowsQuoting.ScanUndoesQuoting | src/hostd/candidate-evaluation.ts:1124-1128 | one quoted argument reads back whatever follows it |
| WindowsQuoting.QuotedExactly | src/hostd/candidate-evaluation.ts:1124-1128 | an argument is refused exactly when it is too long or holds NUL, CR or LF, and passed on as it is exactly when it is not empty and holds no quote and no white space |
| Journals.DecideAppend | src/hostd/atomic-files.ts:115-166 | the scan of the file's lines decides as specified, on any text |
| Journals.ReadJsonLines | src/hostd/atomic-files.ts:253-277 | returns every line's record in order, or exactly the first limit or parse failure that applies |
| Journals.LinesSplit | src/hostd/atomic-files.ts:143 | splitting the printed records gives one line per record |
| Journals.StringifyIsPaired | src/hostd/atomic-files.ts:125 | a printed record is well-formed UTF-16, so its bytes hold it without loss |
| Journals.PrintedAsItIs | src/hostd/atomic-files.ts:125 | a text is printed as it is exactly when it holds no quote, backslash, control unit or unpaired surrogate |
| Journals.SplitRules | src/hostd/atomic-files.ts:253-277 | a text without line feeds is one line, or none if empty, and a line feed separates the lines before it from those after |
| Journals.DecidesOnAnyText | src/hostd/atomic-files.ts:115-166 | on any text, torn or foreign ones included: exactly when an append is refused and why, finds its record present, collides, or grows the file; the first line that does not parse or carries the id decides |
| Journals.DecisionMeans | src/hostd/atomic-files.ts:115-166 | within its bounds an append finds its record present exactly when id and value are there, collides exactly when the id is there with another value, and appends exactly when the id is new and there is room |
| Journals.Journal.AppendOnce | src/hostd/atomic-files.ts:115-169 | the file grows by exactly the record or stays; true means appended and durable, false exactly that it was present |
| Journals.Journal.ReadAll | src/hostd/atomic-files.ts:253-277 | reading the journal returns exactly its records |
| Journals.JournalIsExact | src/hostd/atomic-files.ts:115-169 | after any appends, retries, crashes and power losses from an empty file, the bytes are the printed records, ids distinct, and read back as that list |
| Journals.AppendedExactlyOnce | src/hostd/atomic-files.ts:111-169 | a synced record keeps its place in every later run, and appending it again changes nothing |
| Journals.PresentIsDurable | src/hostd/atomic-files.ts:115-166 | after any run from an empty file, a record of the journal stays in place in every later run if and only if some event synced the file with it: an append that went through or a power loss |
| Journals.PresentMayBeLost | src/hostd/atomic-files.ts:146-169 | a run in which a record reported present is lost |
| WorkerBridges.GiveUpFacts | src/hostd/prime-agent-resident-worker-proxy.ts:681-734 | giving up settles exactly the requests concerned, each unknown if it is a mutation already posted and definitive otherwise, and touches no other |
| WorkerBridges.ResidentWorkerBridge.InvokeOperation | src/hostd/prime-agent-resident-worker-proxy.ts:340-407 | a request is registered with its mutation flag and next ordinal, unless the bridge is failed, closing or full |
| WorkerBridges.ResidentWorkerBridge.PostWhenReady | src/hostd/prime-agent-resident-worker-proxy.ts:408-434 | a request still pending is marked posted, or settled definitively when the post throws |
| WorkerBridges.ResidentWorkerBridge.RequestTimedOut | src/hostd/prime-agent-resident-worker-proxy.ts:372-383 | a late request is settled, unknown exactly when it is a mutation already posted and definitive otherwise |
| WorkerBridges.ResidentWorkerBridge.RejectPending | src/hostd/prime-agent-resident-worker-proxy.ts:718-734 | the loop over the pending requests settles them in order as specified |
| WorkerBridges.ResidentWorkerBridge.TransportFailed | src/hostd/prime-agent-resident-worker-proxy.ts:681-701 | the first transport failure settles everything pending; later ones do nothing |
| WorkerBridges.ResidentWorkerBridge.CloseBridge | src/hostd/prime-agent-resident-worker-proxy.ts:752-803 | closing settles everything pending once |
| WorkerBridges.ResidentWorkerBridge.Receive | src/hostd/prime-agent-resident-worker-proxy.ts:527-564 | a response settles its request, is ignored for a retired one, and otherwise fails the transport |
| WorkerProtocols.DefinitiveIsSound | src/hostd/prime-agent-resident-worker-server.ts:901-916 | in every run a mutation rejected as definitive was never started upstream and never will be, or is a prompt or stop that upstream itself answered cancelled or unsupported |
| WorkerProtocols.SettlesOnce | src/hostd/prime-agent-resident-worker-proxy.ts:340-444 | each request settles at most once and keeps its verdict, and none is pending after failure or close |
| WorkerProtocols.MarksIsMutation | src/hostd/prime-agent-resident-worker-server.ts:858-874 | whatever the server starts as a mutation the host had flagged as one |
| WorkerProtocols.ConcludedFacts | src/hostd/prime-agent-resident-worker-server.ts:486-504 | a session whose proxy gave up ownership is resident on the server, also when a promotion ends |
| WorkerProtocols.RunKeepsInv | src/hostd/prime-agent-resident-worker-server.ts:243-292 | every run of posts, executions, responses, timeouts, crashes and closes keeps bridge, channels and server in agreement |
| WorkerVerdicts.VerdictMeans | src/hostd/prime-agent-resident-worker-proxy.ts:340-444 | in every run: unknown is only said of a mutation whose post completed; fulfilled only of what upstream made succeed, or of a disposal made before; definitive only of no posted mutation, or where upstream did nothing or itself cancelled or lacked a prompt or stop |
| WorkerVerdicts.GivenUpExactly | src/hostd/prime-agent-resident-worker-proxy.ts:681-734 | in every run a timeout, close, lost transport or failed post settles exactly the pending requests it concerns, unknown exactly for mutations whose post completed |
| WorkerVerdicts.HeardExactly | src/hostd/prime-agent-resident-worker-proxy.ts:527-564 | in every run a message settles the one request it answers with the verdict it carries, or breaks the protocol, and then everything pending is given up |
| WorkerVerdicts.FlaggedExactly | src/hostd/prime-agent-resident-worker-proxy.ts:340-407 | in every run a request is taken exactly while the bridge is open, whole and not full, and flagged a mutation exactly when it is no query and no listing and, for a disposal, its connection was attached as owned and no promotion of it succeeded |
| WorkerVerdicts.LateAnswersAreIgnored | src/hostd/prime-agent-resident-worker-proxy.ts:527-564 | in every run a late answer changes nothing while its id is remembered, and all are until there are too many; an answer to a request never made fails the transport |
| WorkerExecutions.LaunchesExactly | src/hostd/prime-agent-resident-worker-server.ts:486-575 | a request goes upstream exactly when its checks pass and its connection is live, for a promotion also owned, for a disposal owned or resident |
| WorkerExecutions.AnsweredAtOnce | src/hostd/prime-agent-resident-worker-server.ts:551-575 | a request that does not go upstream is answered at once: a disposal made before succeeds, everything else is refused definitively |
| WorkerExecutions.ConcludesExactly | src/hostd/prime-agent-resident-worker-server.ts:486-575 | an upstream answer leaves a promotion resident or in doubt, removes a disposed connection, and changes no other |
| WorkerExecutions.ClosingIsSilent | src/hostd/prime-agent-resident-worker-server.ts:243-292 | a server that is closing answers no request any more |
| WorkerExecutions.FailsOnBreach | src/hostd/prime-agent-resident-worker-proxy.ts:486-564 | the transport fails exactly on a message that breaks the protocol, and after that no message changes anything |
| SessionOwnership.ResidentRuntimeWorkerServer.RejectConnectionRecoveries | src/hostd/prime-agent-resident-worker-server.ts:722-729 | rejects exactly the recoveries waiting for the given connections |
| SessionOwnership.ResidentRuntimeWorkerServer.CloseClientTransport | src/hostd/prime-agent-resident-worker-server.ts:700-720 | abandons everything attached through the client, without any upstream disposal |
| SessionOwnership.ResidentRuntimeWorkerServer.BeginAttach | src/hostd/prime-agent-resident-worker-server.ts:357-403 | an attach goes upstream only in sequence, with a live client and room |
| SessionOwnership.ResidentRuntimeWorkerServer.EndAttach | src/hostd/prime-agent-resident-worker-server.ts:402-435 | a connection becomes usable unless the attach failed or was abandoned |
| SessionOwnership.ResidentRuntimeWorkerServer.BeginPromotion | src/hostd/prime-agent-resident-worker-server.ts:486-497 | a promotion goes upstream exactly for a live owned session |
| SessionOwnership.ResidentRuntimeWorkerServer.EndPromotion | src/hostd/prime-agent-resident-worker-server.ts:496-504 | a failed promotion leaves ownership unknown |
| SessionOwnership.ResidentRuntimeWorkerServer.BeginDisposal | src/hostd/prime-agent-resident-worker-server.ts:551-575 | upstream disposal is called only for a live session owned or resident |
| SessionOwnership.ResidentRuntimeWorkerServer.CloseAllResources | src/hostd/prime-agent-resident-worker-server.ts:774-805 | closing rejects every recovery, fences every connection and disposes only of resident ones |
| SessionOwnership.ResidentRuntimeWorkerServer.RequestHostRecovery | src/hostd/prime-agent-resident-worker-server.ts:597-652 | a recovery is requested exactly for a live attach or connection whose promotion is not in doubt |
| SessionOwnership.ResidentRuntimeWorkerServer.ReceiveRecoveryResponse | src/hostd/prime-agent-resident-worker-server.ts:219-241 | a response settles its promise, and a malformed one fails the worker after dropping it |
| SessionOwnership.DisposedAtMostOnce | src/hostd/prime-agent-resident-worker-server.ts:688-825 | in every interleaving upstream disposal is called at most once per connection, never around an unconfirmed promotion, and by shutdown only on a resident session |
| SessionOwnership.RecoveriesSettleOnce | src/hostd/prime-agent-resident-worker-server.ts:597-652 | no recovery promise settles twice; each waits, settled or leaked, and none waits once the server closes |
| SessionOwnership.LeakedExactly | src/hostd/prime-agent-resident-worker-server.ts:219-241 | a recovery promise is never settled if and only if the response accepted for it was malformed |
| SessionOwnership.MalformedResponseLeaks | src/hostd/prime-agent-resident-worker-server.ts:219-241 | after such a response the promise stays unsettled in every later run |
| SessionOwnership.RecoveryIsReached | src/hostd/prime-agent-resident-worker-server.ts:597-652 | a concrete run with a recovery waiting |
| ConnectionHistories.OwnershipIsCaused | src/hostd/prime-agent-resident-worker-server.ts:357-504 | in every interleaving a connection is owned, promoting, resident or in doubt exactly by how it was attached and what upstream answered its promotion; an attach is abandoned exactly when its client was closed while it ran, and a client shut to new work exactly when a disposal of one of its connections completed |
| ConnectionHistories.RecoveriesEndExactly | src/hostd/prime-agent-resident-worker-server.ts:597-652 | in every interleaving a waiting recovery belongs to a live connection or attach and ends exactly by its own answer, its deadline, the end of that connection or attach, its client or the server |
| ConnectionHistories.RecoveryGrantedExactly | src/hostd/prime-agent-resident-worker-server.ts:597-652 | a recovery is granted exactly to a live connection whose promotion is not in doubt, or an attach still wanted, of a client there and open, while there is room |
| ConnectionCounts.LiveConnectionsHaveClients | src/hostd/prime-agent-resident-worker-server.ts:402-435 | while no disposal repeats, a client's count is the number of its connections, and a live connection is without its client exactly when its attach ended after the client had left |
| ConnectionCounts.DisposalDuringAttachStrands | src/hostd/prime-agent-resident-worker-server.ts:402-435 | a run in which a disposal completing during another attach leaves a live connection without its client |
| ConnectionCounts.RepeatedDisposalStrands | src/hostd/prime-agent-resident-worker-server.ts:551-575 | a run in which a disposal requested twice leaves another live connection without its client |
| ConnectionCounts.ClientsLeaveExactly | src/hostd/prime-agent-resident-worker-server.ts:688-720 | while no disposal repeats, a client leaves exactly when it closes, the server has closed, or a disposal completes for its last connection |
| ConnectionCounts.ConnectionsLiveExactly | src/hostd/prime-agent-resident-worker-server.ts:402-435 | in every interleaving a connection becomes live exactly when its attach ends well and wanted, stops exactly when its disposal is asked for or its client or the server closes, and upstream disposal is called exactly for a disposal asked of a live owned or resident one and, when the server closes, for every live resident one |
| ConnectionCounts.AttachesExactly | src/hostd/prime-agent-resident-worker-server.ts:357-403 | an attach starts exactly when its connection is next in order, its client is there and open, and there is room; it runs until upstream answers |
| ConnectionCounts.FailsExactly | src/hostd/prime-agent-resident-worker-server.ts:219-241 | the server fails exactly on its own failure, on a client or connection out of order or past its limit, and on a malformed recovery response |
| ConnectionCounts.RunKeepsLimits | src/hostd/prime-agent-resident-worker-server.ts:303-435 | in every interleaving the tables of clients, connections and recoveries stay within their limits |
| OwnershipLeases.OwnershipLease.WithPublicationPermit | src/hostd/ownership-lease.ts:210-224 | the permit is reserved exactly when the lease is active, unpoisoned and free |
| OwnershipLeases.OwnershipLease.ResumeBeforeCallback | src/hostd/ownership-lease.ts:156-170 | the callback runs exactly when ownership was confirmed and the lease is publishable at that instant |
| OwnershipLeases.OwnershipLease.ResumeAfterCallback | src/hostd/ownership-lease.ts:170-204 | success exactly with ownership confirmed again, a successful callback, and a lease neither lost, released nor poisoned |
| OwnershipLeases.OwnershipLease.Release | src/hostd/ownership-lease.ts:246-261 | releasing is refused exactly while a publication is active |
| OwnershipLeases.RunKeepsInv | src/hostd/ownership-lease.ts:47-263 | in every interleaving the signal is aborted exactly when the lease is inactive or poisoned, waiters exist only during a publication, and loss is announced at most once |
| OwnershipLeases.LifecycleMovesForward | src/hostd/ownership-lease.ts:89-120 | the lifecycle only moves forward and poison is never lifted |
| OwnershipLeases.SuccessIsConfirmed | src/hostd/ownership-lease.ts:156-204 | within the publication that succeeds: an ownership check before the callback, the callback's own success, and a check after; no publication settles in between |
| OwnershipLeases.CallbacksNeverOverlap | src/hostd/ownership-lease.ts:156-224 | between any two callback invocations the first publication settled |
| OwnershipLeases.AmbiguityIsFinal | src/hostd/ownership-lease.ts:176-198 | after an ambiguous publication no callback is ever invoked |
| OwnershipLeases.LossIsFinal | src/hostd/ownership-lease.ts:156-204 | after any check that found the ownership lost, no permit is granted and no callback invoked, not even for a publication already admitted |
| OwnershipLeases.LossIsNamed | src/hostd/ownership-lease.ts:89-120 | in every interleaving a lost lease names its first loss, an ambiguous publication exactly when the check after a callback found it |
| OwnershipLeases.PublishableExactly | src/hostd/ownership-lease.ts:89-120 | in every interleaving the lease may publish exactly as long as no loss, ambiguous outcome, poison, shutdown or release ended that |
| OwnershipLeases.PermitsExactly | src/hostd/ownership-lease.ts:156-224 | in every interleaving a permit is granted exactly when nothing ended publishing and none is active, and a callback invoked exactly when the first check then confirms ownership |
| OwnershipLeases.SucceedsExactly | src/hostd/ownership-lease.ts:170-204 | in every interleaving a publication succeeds exactly when its callback did, the second check confirms ownership, and nothing lost, released or poisoned the lease before; shutdown alone does not undo it |
| OwnershipLeases.AnswersMoveOn | src/hostd/ownership-lease.ts:156-204 | each answer moves the publication on, and its end returns the permit and releases whoever waits |
| DispatchLedgers.RetiredFence.HasIsFenced | src/hostd/prime-agent-resident-adapter.ts:263-267 | the bit array answers exactly whether other ids cover all eight positions, and never denies an id that was added |
| DispatchLedgers.RetiredFence.Add | src/hostd/prime-agent-resident-adapter.ts:269-274 | afterwards the bits set are exactly the positions of the ids added |
| DispatchLedgers.SetBit | src/hostd/prime-agent-resident-adapter.ts:271-273 | sets one bit and no other |
| DispatchLedgers.DispatchLedger.RetireSettledAttempts | src/hostd/prime-agent-resident-adapter.ts:2950-2964 | the eviction loop terminates and evicts as specified |
| DispatchLedgers.DispatchLedger.DispatchMutation | src/hostd/prime-agent-resident-adapter.ts:2822-2941 | the exact repeat of a remembered attempt gets that attempt's result, any other lease or payload with its id is refused, both without a change; everything else is retired, refused or remembered as specified |
| DispatchLedgers.DispatchLedger.MarkSettled | src/hostd/prime-agent-resident-adapter.ts:2942-2948 | only the remembered attempt itself is marked settled |
| DispatchLedgers.AtMostOnce | src/hostd/prime-agent-resident-adapter.ts:2822-2964 | over every sequence of dispatches and settlements no id is invoked upstream twice, the ledger stays within its limit, and what was invoked is remembered or fenced |
| DispatchLedgers.RetiredForever | src/hostd/prime-agent-resident-adapter.ts:260-284 | a retired id is refused at every later dispatch |
| DispatchLedgers.UnresolvedIsKept | src/hostd/prime-agent-resident-adapter.ts:2950-2964 | an unresolved attempt is never evicted and keeps answering with its own result |
| DispatchLedgers.RetireFacts | src/hostd/prime-agent-resident-adapter.ts:2950-2964 | eviction touches no unresolved attempt and stops only with a free slot or with nothing settled |
| DispatchLedgers.LimitExactly | src/hostd/prime-agent-resident-adapter.ts:2872-2881 | in every run a dispatch meets the identity limit exactly when its id is new and every slot holds an unresolved attempt |
| DispatchReplies.RepeatIsReplayed | src/hostd/prime-agent-resident-adapter.ts:2842-2858 | in every run a remembered lease and payload get their attempt's result until it is retired, settled or not, any other with that id is refused, and retirement comes only after the result |
| DispatchReplies.RetiredExactly | src/hostd/prime-agent-resident-adapter.ts:2950-2964 | in every run no attempt is retired while the ledger has a free slot, and when a dispatch needs one exactly the attempt that settled first is |
| DispatchReplies.RetiredInOrder | src/hostd/prime-agent-resident-adapter.ts:2950-2964 | in every run attempts are retired in the order their results came in |
| DispatchReplies.AnsweredExactly | src/hostd/prime-agent-resident-adapter.ts:2822-2941 | in every run a dispatch is a new attempt exactly when its lease is for this operation, its id neither remembered nor fenced, and a slot free or held by a settled attempt; only then upstream sees it |
| StdoutFraming.ChunkingDoesNotMatter | src/hostd/gateway.ts:504-588 | while no record spans more segments than the limit, every way of cutting the stream has the messages, settlements and first failure of the one-pass reading |
| StdoutFraming.ChunkingAgrees | src/hostd/gateway.ts:527-548 | in any case the result is the one-pass one, or giving up over fragmentation with a prefix of its effects |
| StdoutFraming.FeedReadsLines | src/hostd/gateway.ts:550-588 | the byte-wise reading is the line-wise one: blank lines dropped, CR-ended, oversize and malformed records failing |
| StdoutFraming.FeedOnlyAdds | src/hostd/gateway.ts:655-669 | effects are only added, and none after a failure |
| StdoutFraming.RunConserves | src/hostd/gateway.ts:598-669 | in every run each request settles exactly once or is still pending, and one lost with the process is always reported uncertain |
| StdoutFraming.RpcGateway.OnStdout | src/hostd/gateway.ts:504-525 | the offset loop over a chunk |
| StdoutFraming.RpcGateway.AppendStdoutSegment | src/hostd/gateway.ts:527-548 | a segment is kept exactly when it fits both bounds, the size checked first |
| StdoutFraming.RpcGateway.EmitStdoutRecord | src/hostd/gateway.ts:550-588 | the end of a record |
| StdoutFraming.RpcGateway.OnRpcMessage | src/hostd/gateway.ts:599-643 | a well-formed response to a pending command settles it, admitted exactly on success true and rejected exactly on success false; one with another command or no success fails the process, one to no pending command is ignored, and every other message is passed on |
| StdoutFraming.RpcGateway.FailProcess | src/hostd/gateway.ts:655-669 | failing rejects everything pending and forgets the partial record |
| StdoutFraming.RpcGateway.SubmitRequest | src/hostd/gateway.ts:300-364 | a request is admitted exactly when the gateway is open, live, has room and the id is free |
| StdoutReplies.LogIsExact | src/hostd/gateway.ts:598-669 | in every run the log holds one effect for each thing that happened, in order: admitted exactly for a well-formed response to the pending command with success true, accepted for a prompt, queued for steering and following up, handled for an abort; rejected exactly for one with success false; every failure with the code of its cause |
| StdoutReplies.CommandIsSubmitted | src/hostd/gateway.ts:300-364 | in every run the command pending under an id is the one it was last submitted with |
| StdoutReplies.ClosedHasNoChild | src/hostd/gateway.ts:366-382 | whatever the events, a closed gateway has no child and never gets one again |
| StdoutReplies.ChildrenExactly | src/hostd/gateway.ts:403-416 | a child starts exactly when the gateway is open and has none, with an empty record, and is lost exactly when something broke it |
| StartupClosures.FollowImports | renderer-startup-budget.ts:63-73 | on every graph, cycles and repeated imports included, the worklist stops with exactly the reachable chunks, or names a reachable one that is missing |
| StartupClosures.ClosedHoldsReachable | renderer-startup-budget.ts:63-73 | what is reachable lies in every set that holds the roots and is closed under imports |
| StartupClosures.SortedNames | renderer-startup-budget.ts:77 | the included names, sorted, each once |
| StartupClosures.StartupClosure | renderer-startup-budget.ts:49-91 | one chunk per reachable name in order, or an error exactly when the native chunks or a reachable non-empty import are missing |
| StartupClosures.BudgetReport | renderer-startup-budget.ts:97-153 | the totals are the sums over that closure and the eager styles, refused exactly above the budget |
| StartupClosures.ClosureIgnoresTheRest | renderer-startup-budget.ts:43-91 | the closure depends only on the roots and the reachable chunks, not on other outputs or their order |

## Left out

- OAuthBrokers.Step: models the broker on values, so updates in place of its session and provider tables are not captured; it admits one provider, so at most one session.
- CandidateCoordinators.Step: models the coordinator on values; which directory scan removed a temporary file, and so was synced, is a free choice. It admits a start as soon as the files are accepted, where the code first reconciles every record, so its runs include those of the code.
- CandidateResults.LaunchIsExclusive: takes a completed write to be durable, also on Windows, where the code does not sync directories.
- CandidateResults.EvidenceBeforeStatus: takes a completed write to be durable, also on Windows, where the code does not sync directories.
- CandidateRestarts.StartAcceptsExactly: takes a completed write to be durable, also on Windows, where the code does not sync directories.
- WorkerProtocols.Execute: models request execution on values; attach is one event, and protocol violations found inside an operation are the event of a failing server.
- Journals.ParseLine: reads what the printers write (no white space, integer numbers), where the original accepts any JSON text.
- CanonicalJson.ParseUndoesStringify: numbers are the integers JavaScript holds exactly; fractions and exponents are not printed.
- AtomicDirectories.Directory.RecoverTemporaryFiles: does not model the bound on directory entries, file permissions, file kinds or file sizes other than zero.
- StdoutFraming.RpcGateway.OnRpcMessage: an observer of events that calls back into the gateway is not modelled; a rejected command's error text is dropped.
- StartupClosures.BudgetReport: byte lengths and gzip sizes are given with each output, and the locale order of the style assets is not modelled.
- OwnershipLeases.OwnershipLease.ResumeAfterCallback: error causes and messages are not modelled, only which error it is.
- Challenges, prompts and other user interaction of OAuth sessions, and the legacy sessions without a journal.
- Workspace review, preflight and launch mechanics of candidate evaluation: they are free choices of the environment, as is the process observation, which is taken to report a tree as gone only when it is.
- The digest functions, random identifiers, schema details of requests and reviews, and date parsing.
- Connection events, client state and result size bounds of the resident worker.
- Prompt admission order and abort signalling in the dispatch ledger: whether a remembered attempt was queued upstream is a free choice.
