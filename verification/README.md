# Corelay Code: models and proofs

A Dafny model of the parts of Corelay Code whose correctness is easiest to lose: the checkpoint and
undo transaction, the write-ahead execution journal, the completion contract, the line diff, the
ACP connection (framing, inbound and outbound requests, the JSON token walk), turn recovery, the
compound-command splitter, and the attach/shutdown protocol of the managed chat server.

    dafny verify dfyconfig.toml

Code that changes state step by step is modelled by methods and classes, and proved against
specification functions. Whole runs are sequences of atomic steps of a state machine over the same
functions. Such a step is one section that the program runs under its lock, one operation of the
session store, or one check-and-rename on a file. Everything outside the program is a parameter of
a step or of a method: what the network yields, which writes fail and how, what other processes do
to a file or to a session meanwhile, the time, the hash functions.

## How the modules fit

| module | models |
|---|---|
| `Wrappers`, `Sequences`, `Text` | option and result types, cutting at a separator, Go's trimming, decimal printing and string order |
| `LineDiff` | `unifiedLineDiff`: table, walk, printed script |
| `CompoundCommand` | `SplitCompoundCommand` |
| `Framing` | `readFrame` over arbitrary reader fragments, and the frames of `send` |
| `JsonWalk` | the bounded and the unbounded token walk, against a reference parser |
| `OutboundCalls` | identifiers, pending table and responses of calls to the client |
| `InboundRequests` | slots, in-flight table, sessions and the active prompt |
| `CompletionContract` | construction, validation and the three phases of `ApplyClaims` |
| `ExecutionMarker`, `SessionStore`, `ExecutionJournal` | the interruption marker and its aggregate, the session as a compare-and-swap register, the journal and the prompts over it |
| `CheckpointStore`, `CheckpointRun` | capture, record and settle; whole runs of batches with their rollback |
| `CheckpointUndo`, `CheckpointSelection`, `CheckpointUndoCommand` | the undo transaction with failures and outside writes; selective undo; the loops of the code |
| `CheckpointReconciliation`, `SessionReconciliation` | the second classifier of the same manifest; the assessment of an interrupted session and the receipts for it |
| `TurnRecovery` | repeated POSTs and completion from the durable receipt |
| `ManagedServer` | leases, startup lock, idle shutdown |

## Where the code does not keep what one would expect

In each of these places the code was kept as it is, an input is given, and the exact condition is proved.

- `send` accepts a payload of exactly the frame limit, but `readFrame` counts the newline against the
  same limit and rejects the frame (`Framing.SendThenRead`, `Framing.FullSizePayloadIsLost`).
- "One active prompt per session" holds per registered session object. Closing a session whose prompt
  has not returned, with a back end that does not wait for it, and opening the same id again admits a
  second prompt under that id (`InboundRequests.SecondPromptAdmitted`, `InboundRequests.TwoPromptsUnderOneId`).
  While no id is removed under a running prompt, there is one prompt per id (`InboundRequests.OnePromptPerId`).
- Deleting a session checks only its revision. The marker of a tool that may have run disappears with
  the session, without a commit or a reconciliation (`ExecutionJournal.DeletionIgnoresMarkers`,
  `ExecutionJournal.DeletionDropsMarker`). Apart from commits and releases it is the only way
  (`ExecutionJournal.MarkerEndsExactly`, `ExecutionJournal.StartedToolIsCovered`).
- A session that is created again under its identifier starts at revision one, so that a journal of the
  deleted session can find the revision it expects and write on a session that is not its own
  (`ExecutionJournal.RecreatedSessionIsMarked`; the condition is in `ExecutionJournal.JournalWritesItsOwn`).
- A session with a standing marker should admit no load, but a load reads the session before it takes
  the lock, and whether it is admitted depends only on the entry of this process by then
  (`ExecutionJournal.LoadAdmitted`, `ExecutionJournal.StaleLoadIsInstalled`). In every run what a load
  installs was stored, and usable, at some earlier step; if the session needs recovery by now, a step
  since that read made it so (`ExecutionJournal.LoadedWasUsable`). No prompt begins on it
  (`ExecutionJournal.MarkedAdmitsNothing`).
- A load whose history cannot be replayed puts the earlier entry back. A quarantine that was set
  meanwhile is lost with it, and prompts are admitted again (`ExecutionJournal.QuarantineIsLifted`). Besides
  the end of the process this is the only way out (`ExecutionJournal.QuarantineEndsExactly`).
- A closed session accepts a change of its title, and its deletion (`SessionStore.ClosedIsFinal`).
- After the 64-bit identifiers wrapped, a late second answer to an old call can reach a new one
  (`OutboundCalls.AnswerReaches`, `OutboundCalls.LateAnswerAfterWrap`).
- An edit that was given up after its preimage was captured leaves an entry. When the entry's
  directory does not exist, or the path has become a directory, the undo of the whole run is refused
  (`CheckpointRun.WholeRunUndo`, `CheckpointRun.AbandonedEditBlocksUndo`).
- Reconciliation compares revisions without looking at existence, so it differs from undo for files
  whose content is the mark that stands for absence (`CheckpointReconciliation.AgreeUnlessAliased`,
  `CheckpointReconciliation.RunAgrees`, `CheckpointReconciliation.MarkRunDisagrees`).
- Rolling back an edit of a file without permission bits leaves it with the default ones
  (`CheckpointRun.RestoredExactly`, `CheckpointRun.EmptyModeIsLost`).
- After an unmatched `)` the splitter takes a balanced group for top level and cuts in it
  (`CompoundCommand.NegativeDepthCuts`); otherwise it never does (`CompoundCommand.EnclosedIsQuiet`).
- A lease that cannot be inspected counts as absent, so the final check of an idle server can
  stop it under an attached client (`ManagedServer.UnreadableLeasesStrand`,
  `ManagedServer.AttachedClientIsStranded`).

## Model

| member | source | states |
|---|---|---|
| `LineDiff.UnifiedLineDiff` | internal/agent/diff.go:60-119 | the diff is empty exactly for equal texts; what is printed parses back to a script from which both texts are rebuilt, also in the large-input fallback; below the guard the kept lines are a longest common subsequence, no script changes fewer lines, and the printed script precedes every other such script; beyond the guard all old lines are removed and then all new ones added |
| `LineDiff.FillTable` | internal/agent/diff.go:81-96 | the bottom-up table holds the subsequence length for every pair of suffixes |
| `LineDiff.WalkTable` | internal/agent/diff.go:98-118 | the walk prints a script between the two texts that keeps as many lines as the table's first cell says, taking at every step the first of keep, remove and add that can still lead there |
| `LineDiff.PrintRest` | internal/agent/diff.go:113-118 | the remaining old lines become removals, the remaining new lines additions |
| `LineDiff.OptimalScript` | internal/agent/diff.go:81-118 | a script that keeps that many lines is optimal against every common subsequence and every other script |
| `LineDiff.GreedyPrecedes` | internal/agent/diff.go:98-118 | among all optimal scripts the printed one is the first in the order keep, remove, add; so it is determined by the two texts |
| `LineDiff.LcsIsUpperBound` | internal/agent/diff.go:85-95 | no common subsequence is longer than the recurrence of the table |
| `LineDiff.PrintParse` | internal/agent/diff.go:98-118 | the printed text determines the script |
| `LineDiff.PrintedTexts` | internal/agent/diff.go:57-118 | a reader finds the old text in the printed lines that do not start with a plus, and the new text in those that do not start with a minus |
| `CompoundCommand.SplitCompoundCommand` | internal/agent/bash_allowlist.go:348-447 | the scanner returns the non-empty trimmed segments in order; splitting any of them again returns just that one; and a line of commands joined by operators is split into exactly these commands |
| `CompoundCommand.CutLosesNothing` | internal/agent/bash_allowlist.go:348-447 | the segments with the operators between them are the command |
| `CompoundCommand.OperatorsAreTopLevel` | internal/agent/bash_allowlist.go:357-402 | every cut is one of the four operators, met outside quotes, escapes and open parentheses |
| `CompoundCommand.OperatorCuts` | internal/agent/bash_allowlist.go:404-438 | every operator met at top level does cut, and what follows is cut as if alone; it only must not be part of a longer operator |
| `CompoundCommand.LineIsCut` | internal/agent/bash_allowlist.go:348-447 | a line of commands without top-level operators of their own, with escapes, quotes and balanced groups, joined by operators, is cut exactly between its commands |
| `CompoundCommand.WordsKeepScan` | internal/agent/bash_allowlist.go:357-402 | plain text, escapes, quotes and balanced groups leave the scanner where it was, at any depth outside quotes |
| `CompoundCommand.CommandsInOrder` | internal/agent/bash_allowlist.go:404-447 | every segment gives its trimmed text or, when it is blank, nothing, in order |
| `CompoundCommand.EnclosedIsQuiet` | internal/agent/bash_allowlist.go:357-402 | an escaped character, quoted text, or a balanced group with anything nested in it is one segment, and the scanner goes on as before, wherever it stands outside quotes; a group needs a depth that is not negative |
| `CompoundCommand.HiddenIsQuiet` | internal/agent/bash_allowlist.go:357-402 | text that keeps the scanner hidden throughout is never cut, from any state |
| `CompoundCommand.NegativeDepthCuts` | internal/agent/bash_allowlist.go:389-402 | below an unmatched parenthesis a balanced group is cut |
| `CompoundCommand.SplitIsFixpoint` | internal/agent/bash_allowlist.go:348-447 | splitting a returned command again returns just it, although unmatched parentheses can make the depth negative |
| `CompoundCommand.QuietDeeper` | internal/agent/bash_allowlist.go:389-402 | a deeper parenthesis level hides at least as many operators: the simulation behind the fixpoint |
| `Framing.ReadFrame` | internal/acp/connection.go:257-291 | for any fragments of the reader, one call yields the next frame and consumes exactly it; the buffer never exceeds the limit by more than one byte |
| `Framing.ReadAll` | internal/acp/connection.go:257-291 | repeated calls yield exactly the lines of the stream, each judged by its length with its newline |
| `Framing.FramesAreLines` | internal/acp/connection.go:257-291 | an oversized line is reported once and the line after it is in sync |
| `Framing.SendThenRead` | internal/acp/connection.go:293-321 | a written payload reads back unchanged if and only if it is shorter than the limit, has no newline and does not end in a carriage return |
| `Framing.FullSizePayloadIsLost` | internal/acp/connection.go:301-304 | a payload of exactly the limit is sent but not readable |
| `Framing.ConversationRoundTrip` | internal/acp/connection.go:257-321 | a whole conversation of such payloads comes out as it went in |
| `JsonWalk.ConsumeJson` | internal/acp/validation.go:40-93 | the walk succeeds exactly on one well-formed value of bounded height without repeated keys, and leaves what follows it |
| `JsonWalk.ConsumeFields` | internal/acp/validation.go:56-77 | the object branch: string keys, none repeated, each with an acceptable value |
| `JsonWalk.ConsumeItems` | internal/acp/validation.go:78-88 | the array branch |
| `JsonWalk.ValidateJson` | internal/acp/validation.go:28-38 | accepted exactly when the tokens are those of one such value with the required root, and nothing follows |
| `JsonWalk.BoundedIsOneValue` | internal/acp/validation.go:40-93 | acceptance leaving a rest is the existence of a value whose tokens come before that rest |
| `JsonWalk.ScanCheckpointValue` | internal/agent/checkpoint.go:930-977 | the manifest's walk: one value without repeated keys at any depth |
| `JsonWalk.UnboundedIsAnyBound` | internal/agent/checkpoint.go:930-977 | it accepts exactly what the bounded walk accepts under some bound, and leaves the same rest |
| `JsonWalk.FlattenUnambiguous` | internal/acp/validation.go:40-93 | a token sequence determines its value and what follows it |
| `OutboundCalls.KeyInjective` | internal/acp/jsonrpc.go:37-46 | different request identifiers have different table keys |
| `OutboundCalls.AllocatedIsFresh` | internal/acp/client.go:301-310 | with fewer calls pending than attempts, the loop settles on an unused identifier, across the wrap |
| `OutboundCalls.Calls.AllocateId` | internal/acp/client.go:300-310 | the loop computes that identifier and it is not pending |
| `OutboundCalls.Calls.BeginCall` | internal/acp/client.go:288-313 | a call is admitted exactly while fewer than the limit are pending, and adds one entry under a new key |
| `OutboundCalls.Calls.ResolveResponse` | internal/acp/connection.go:427-440 | any response goes, with its content, to the entry under its key; a second one, and one to something that was never asked, is dropped; every other entry is as before |
| `OutboundCalls.Calls.FinishCall` | internal/acp/client.go:314-319 | the cleanup removes the call's own entry and no other |
| `OutboundCalls.ConnectionIsSafe` | internal/acp/client.go:283-341 | over every run: each active call has its own entry and identifier, no call receives two responses or one to something that was never asked, what a call reads is the content of the one delivery to it, and until the identifiers wrap every response reaches the call it answers |
| `OutboundCalls.FirstAnswerIsRead` | internal/acp/connection.go:427-440 | the peer's first answer to a call is what the call reads, whatever happens until it returns |
| `OutboundCalls.AnswerIsHeld` | internal/acp/connection.go:427-440 | that answer changes what this call reads and nothing else |
| `OutboundCalls.ReadWasAnswered` | internal/acp/client.go:320-341 | in every run, what a call reads was sent by the peer as an answer, and until the identifiers wrap as an answer to that very call |
| `OutboundCalls.BegunUnanswered` | internal/acp/client.go:288-313 | a call that begins has read nothing and disturbs no other; it does not begin when too many are pending |
| `OutboundCalls.CleanupIsOwn` | internal/acp/client.go:314-319 | a returning call leaves every other active call's entry alone |
| `OutboundCalls.StrayIsDropped` | internal/acp/connection.go:427-434 | a response to an identifier that was never sent finds no entry |
| `OutboundCalls.AnswerReaches` | internal/acp/connection.go:427-440 | an answer reaches exactly the active call that now carries the identifier and has no response yet |
| `OutboundCalls.LateAnswerAfterWrap` | internal/acp/client.go:301-310 | after the wrap a late second answer can reach another call |
| `InboundRequests.SlotsAreAccountedFor` | internal/acp/connection.go:347-400 | over every interleaving the slots held are the in-flight entries plus the requests just entering or leaving, at most the limit, and no slot is released twice |
| `InboundRequests.SlotGivenIff` | internal/acp/connection.go:347-353 | a slot is given exactly while fewer requests than the limit hold one |
| `InboundRequests.SlotsComeBack` | internal/acp/connection.go:376-400 | a refused or finished request gives its slot back in one step, and its key is free once it has finished, which it does not while its prompt runs |
| `InboundRequests.AcceptedUnlessDuplicate` | internal/acp/connection.go:356-372 | in every reachable state a request is accepted exactly when the connection is open and no request in flight has its key |
| `InboundRequests.FinishIsOwn` | internal/acp/connection.go:376-388 | finishing removes the request's own entry, and a later cleanup of it changes nothing even if the key was reused |
| `InboundRequests.OnePromptPerSession` | internal/acp/router.go:392-405 | no session object has two running prompts |
| `InboundRequests.OnePromptPerId` | internal/acp/router.go:323-415 | if no session id is removed while a prompt runs under it, no two prompts ever run under one id |
| `InboundRequests.CleanupIsOwn` | internal/acp/router.go:407-415 | a prompt's cleanup frees its own session and clears no other registration |
| `InboundRequests.SecondPromptAdmitted` | internal/acp/router.go:392-405 | while a prompt runs under an id, another is admitted exactly when the id was registered again for an idle object |
| `InboundRequests.PromptAdmittedIff` | internal/acp/router.go:392-405 | in every reachable state a request begins its prompt exactly when its session is registered and no running prompt was started on the registered object |
| `InboundRequests.TwoPromptsUnderOneId` | internal/acp/router.go:323-347 | a run in which that happens |
| `InboundRequests.SessionsChange` | internal/acp/router.go:323-347 | opening a session registers an idle object unless there is one, closing it unregisters that id, and neither touches another session or a running prompt |
| `InboundRequests.Connection.TakeSlot` | internal/acp/connection.go:348-353 | a slot is taken without waiting, while one is free |
| `InboundRequests.Connection.RegisterLocked` | internal/acp/connection.go:356-372 | closed connections and duplicate identifiers are refused, others enter the table |
| `InboundRequests.Connection.FinishLocked` | internal/acp/connection.go:378-385 | the entry is removed once |
| `InboundRequests.Connection.ReleaseSlot` | internal/acp/connection.go:384-386 | the slot is given back, and there is one to give back |
| `InboundRequests.Connection.ReserveSession` | internal/acp/router.go:436-448 | a session with an active prompt is refused, a missing one is created |
| `InboundRequests.Connection.BeginPromptLocked` | internal/acp/router.go:392-405 | a prompt starts exactly on a registered idle session |
| `InboundRequests.Connection.EndPromptLocked` | internal/acp/router.go:407-415 | the deferred cleanup |
| `CompletionContract.NewCompletionContract` | internal/agent/completion_contract.go:158-234 | accepted exactly for usable specifications, and otherwise refused for the first thing that is wrong; the criteria are those of the definition of done in order, all pending, evidence required unless named optional |
| `CompletionContract.OptionalTexts` | internal/agent/completion_contract.go:181-198 | the optional criteria name known texts, each once; the error is that of the first one that does not |
| `CompletionContract.BuildCriteria` | internal/agent/completion_contract.go:206-232 | the criteria have pairwise different identifiers, and the index is exact; the error is that of the first text that makes no criterion |
| `CompletionContract.PreparedIffAcceptable` | internal/agent/completion_contract.go:369-459 | a claim passes validation exactly when its own fields name a criterion, claim another state for it and carry what goes with that state, and what is prepared holds these very fields |
| `CompletionContract.ClaimsByState` | internal/agent/completion_contract.go:407-442 | the ordinary claims of each state: a blocked claim is accepted for a summary and nothing else, a pending one for nothing, a satisfied one for a digest or, if no evidence is required, for an assertion |
| `CompletionContract.RefusedForFault` | internal/agent/completion_contract.go:369-459 | a refused claim is refused for its first fault, with the code, the field and the identifier that belong to it |
| `CompletionContract.BatchIffAcceptable` | internal/agent/completion_contract.go:342-367 | a batch passes exactly when it is neither empty nor too long, every claim passes, and no criterion is claimed twice |
| `CompletionContract.BatchFault` | internal/agent/completion_contract.go:342-367 | a refused batch is refused for its first claim with a fault, or the first that repeats a criterion, and says whether the repetition is the same claim |
| `CompletionContract.CommitChangesClaimed` | internal/agent/completion_contract.go:324-339 | a commit changes the state of every claimed criterion, stamps it, and leaves all others and every identity alone |
| `CompletionContract.CommitApplies` | internal/agent/completion_contract.go:324-339 | after a commit each claimed criterion holds the state, the digest and the redacted summary and assertion of its claim, and every other criterion is untouched |
| `CompletionContract.Linearizable` | internal/agent/completion_contract.go:283-340 | over every interleaving of phases the commits form one sequence whose replay is the contract, each validated against exactly what it replaced, no two on one revision; each finished call ended as it would have alone on the contract at a point of that sequence between its begin and its end; the commits are those of the successful calls, and each returned the contract after its own |
| `CompletionContract.ReachableCriteria` | internal/agent/completion_contract.go:416-457 | in every reachable state a criterion carries only what its state allows, with evidence that was confirmed for this run and a claim revision the contract reached |
| `CompletionContract.ConfirmedWasFound` | internal/agent/completion_contract.go:305-321 | a digest is confirmed only when the resolver found it |
| `CompletionContract.FailingCallChangesNothing` | internal/agent/completion_contract.go:280-282 | a step that ends a call with an error leaves the contract alone |
| `CompletionContract.CompletionStatus` | internal/agent/completion_contract.go:501-519 | complete exactly when all criteria are satisfied and there are some, blocked exactly when one is blocked |
| `CompletionContract.CompletionContract.PrepareClaimsLocked` | internal/agent/completion_contract.go:342-367 | the loop computes the validated batch or its first error |
| `CompletionContract.CompletionContract.ResolveEvidence` | internal/agent/completion_contract.go:305-321 | the first refused piece of evidence, or none |
| `CompletionContract.CompletionContract.CommitClaims` | internal/agent/completion_contract.go:323-339 | the whole batch at the expected revision, or nothing |
| `CompletionContract.CompletionContract.ApplyClaims` | internal/agent/completion_contract.go:283-340 | undisturbed, a call succeeds exactly when its revision is current, every claim is acceptable, no criterion is claimed twice and every digest is confirmed; then each claimed criterion holds what its claim says; an error is for the first fault and leaves the contract as it was |
| `CompletionContract.CallMeans` | internal/agent/completion_contract.go:283-340 | the three phases together, in terms of the claims and of what the resolver finds |
| `ExecutionMarker.AggregateToolExecutionJournal` | internal/agent/sessions.go:188-261 | the loop and the sort compute the aggregate marker, or report its errors |
| `ExecutionMarker.ScheduleIndependent` | internal/agent/sessions.go:184-241 | the aggregate does not depend on the order in which executions were journalled |
| `ExecutionMarker.AggregateNames` | internal/agent/sessions.go:236-257 | one execution is named exactly, several are not named and may have been applied; all are of the marker's run |
| `ExecutionMarker.AggregateSucceedsIff` | internal/agent/sessions.go:188-235 | a journal is aggregated exactly if it is not empty, all executions are complete and of one run, and the texts fit |
| `ExecutionMarker.AggregateDescribes` | internal/agent/sessions.go:236-257 | the marker carries the trimmed reason, the digest of the one execution or of all of them sorted, and the summary with their number |
| `ExecutionMarker.AggregateIdentifies` | internal/agent/sessions.go:242-257 | two aggregates are equal exactly for the same run and the same executions, unless their digests collide |
| `SessionStore.OperationsKeepNormal` | internal/agent/sessions.go:1750-1804 | every successful write replaces exactly the revision it insisted on, by the next one, with a session that normalization accepts |
| `SessionStore.SucceedsIff` | internal/agent/sessions.go:1330-1804 | which operations succeed on a session, by its lifecycle, its revision and its marker |
| `SessionStore.SuccessLeaves` | internal/agent/sessions.go:1330-1804 | the lifecycle, marker, transcript and terminal that a successful operation leaves |
| `SessionStore.RefusedFor` | internal/agent/sessions.go:1750-1804 | a caller that is behind gets a conflict, and one that is up to date is told to reconcile exactly when the session, or the marker it holds, stands in the way |
| `SessionStore.CreatedOnlyBySave` | internal/agent/sessions.go:1330-1337 | only a save creates a session, active and at revision one |
| `SessionStore.RemovalIs` | internal/agent/sessions.go:2264-2303 | a deletion succeeds on every session unless its caller is behind |
| `SessionStore.GuardedStays` | internal/agent/sessions.go:2049-2111 | among writes, an interrupted session is released only by the commit of exactly its marker, which writes the transcript in the same step, or by a current reconciliation of its run; every other write keeps a marker of the run |
| `SessionStore.MarkerGoesBy` | internal/agent/sessions.go:2264-2303 | the marker of a run goes away exactly by that commit, by that reconciliation, or by the deletion of the session |
| `SessionStore.ClosedIsFinal` | internal/agent/sessions.go:1736-1748 | closing keeps what was said; on a closed session exactly a deletion and a change of title succeed, and the latter leaves it closed |
| `SessionStore.CommittedIsLastStable` | internal/agent/sessions.go:1750-1804 | the last committed revision is the newest one that was not awaiting reconciliation; only transcript writes change what was said |
| `ExecutionJournal.StartedToolIsCovered` | internal/acpbridge/backend.go:226-306 | when a tool may start, a durable marker of its run stands; over all later steps of journals, prompts, loads, deletions, foreign writers and crashes it stands throughout exactly as long as no step commits that marker, releases it, or deletes the session |
| `ExecutionJournal.MarkerEndsExactly` | internal/agent/sessions.go:1586-1617 | a single step of anybody takes a run's marker away exactly when it is one of these three |
| `ExecutionJournal.DeletionIgnoresMarkers` | internal/acpbridge/backend.go:796-838 | exactly when the back end's deletion succeeds: existence, an idle and current cached copy if there is one, and nothing about a marker |
| `ExecutionJournal.DeletionDropsMarker` | internal/acpbridge/backend.go:796-838 | a run in which a started tool's marked session is deleted, and nothing is left |
| `ExecutionJournal.DeletionUnloads` | internal/acpbridge/backend.go:796-838 | a deletion begins a new generation and unloads the session; one that fails changes nothing |
| `ExecutionJournal.MarkerIsAggregate` | internal/acpbridge/backend.go:268-306 | until enrichment the marker of a working journal is the aggregate of exactly the tools it let start; unless the session was deleted since its last write, it is what the store holds, or somebody wrote later |
| `ExecutionJournal.JournalWritesItsOwn` | internal/acpbridge/backend.go:245-306 | a journal writes only on a session at the revision it wrote last, which is its own last write unless the session was deleted since; a failed one does not write |
| `ExecutionJournal.RecreatedSessionIsMarked` | internal/acpbridge/backend.go:245-271 | a run in which the session was deleted and created again, and the journal marks the new one |
| `ExecutionJournal.FailedIsFinal` | internal/acpbridge/backend.go:336-346 | a failed journal never writes and never lets a tool start again |
| `ExecutionJournal.EndedPromptIsFinal` | internal/acpbridge/backend.go:308-314 | over every run: once its prompt has ended a journal never writes again and lets no tool start, not under a later prompt and not after the session was loaded again |
| `ExecutionJournal.PromptEndsExactly` | internal/acpbridge/backend.go:308-314 | a prompt ends by its own end, the end of the process and the unloading of its session, and by nothing else |
| `ExecutionJournal.RecordSucceeds` | internal/acpbridge/backend.go:226-306 | exactly when a record lets its tool start |
| `ExecutionJournal.CommitSucceeds` | internal/acpbridge/backend.go:1213-1275 | exactly when a run's messages are committed |
| `ExecutionJournal.EnrichSucceeds` | internal/acpbridge/backend.go:369-410 | exactly when a marker is enriched |
| `ExecutionJournal.CommitTells` | internal/acpbridge/backend.go:316-346 | a commit that fails quarantines the journal's own object and changes nothing else of the process; one that succeeds shows it the session as written |
| `ExecutionJournal.RecordTells` | internal/acpbridge/backend.go:316-346 | the same for a record |
| `ExecutionJournal.RecordKeeps` | internal/acpbridge/backend.go:226-306 | a record that reports success leaves a durable aggregate marker of the tool's run, whatever failed before |
| `ExecutionJournal.CommitKeeps` | internal/acpbridge/backend.go:1213-1275 | the transcript is appended in the step that clears the journal's own marker |
| `ExecutionJournal.MarkedAdmitsNothing` | internal/acpbridge/backend.go:968-973 | while the stored session needs recovery, no load reads it and no step begins a prompt, even from a stale copy |
| `ExecutionJournal.StaleLoadIsInstalled` | internal/acpbridge/backend.go:510-598 | a run in which a load that read before the marker installs its copy afterwards |
| `ExecutionJournal.LoadAdmitted` | internal/acpbridge/backend.go:560-602 | a load that has read the session is admitted exactly when it has not been used and the entry of this process is absent, or idle, not loading and not quarantined; it caches what was read |
| `ExecutionJournal.LoadedWasUsable` | internal/acpbridge/backend.go:510-602 | in every run what a load installs was the stored session at an earlier step and usable then; if the stored session needs recovery by now, a step since that read made it so |
| `ExecutionJournal.PromptBegins` | internal/acpbridge/backend.go:962-1095 | a prompt that begins saved its message on a session that needs no recovery, or created it, and has a fresh journal for that revision |
| `ExecutionJournal.NoPromptBeforeLoad` | internal/acpbridge/backend.go:950-975 | after the end of the process no prompt begins until the stored session was read again |
| `ExecutionJournal.SettingIsSaved` | internal/acpbridge/backend.go:636-716 | exactly when a setting is saved, what is stored then, and that the process sees the new revision |
| `ExecutionJournal.QuarantineLasts` | internal/acpbridge/backend.go:336-346 | a session stays quarantined throughout a run exactly when no step lifts that, and begins no prompt in it |
| `ExecutionJournal.QuarantineEndsExactly` | internal/acpbridge/backend.go:603-613 | exactly two steps lift a quarantine: the end of the process, and the failed end of a load in progress, which puts the earlier entry back |
| `ExecutionJournal.IdleQuarantineLasts` | internal/acpbridge/backend.go:336-346 | if no load was in progress, only the end of the process lifts a quarantine |
| `ExecutionJournal.QuarantineIsLifted` | internal/acpbridge/backend.go:603-613 | a run in which a failed load lifts a quarantine and another prompt is admitted |
| `ExecutionJournal.PromptExecutionJournal.Record` | internal/acpbridge/backend.go:226-306 | the fields and the store after a record, for every fault |
| `ExecutionJournal.PromptExecutionJournal.RecordFirst` | internal/acpbridge/backend.go:249-271 | the first record marks the session |
| `ExecutionJournal.PromptExecutionJournal.RecordNext` | internal/acpbridge/backend.go:273-305 | a further record replaces exactly the journal's marker by the larger aggregate |
| `ExecutionJournal.PromptExecutionJournal.EnrichReconciliation` | internal/acpbridge/backend.go:369-410 | the marker is replaced by a richer one of the same run |
| `ExecutionJournal.PromptExecutionJournal.CommitObservedRun` | internal/acpbridge/backend.go:1213-1275 | the commit and its refusals |
| `ExecutionJournal.PromptExecutionJournal.FailLocked` | internal/acpbridge/backend.go:336-346 | failing quarantines the journal's own runtime object |
| `ExecutionJournal.Backend.MarkInterrupted` | internal/acpbridge/backend.go:1878-1913 | the loop leaves the store, the table entry and the result of three attempts against other writers, each with its own outside changes and fault |
| `ExecutionJournal.MarkRoundsOutcome` | internal/acpbridge/backend.go:1878-1913 | what the attempts mean: found in need of recovery, marked for this run, or failed; they are used up exactly when in each of them the session was readable and usable and others left it at another revision before the write |
| `ExecutionJournal.RoundsAreSteps` | internal/acpbridge/backend.go:1878-1913 | whatever others do meanwhile, the attempts have the effect of their changes followed by one marking step of the state machine |
| `ExecutionJournal.UndisturbedRound` | internal/acpbridge/backend.go:1878-1913 | undisturbed, the attempts are that one step |
| `CheckpointStore.OthersCannotWrite` | internal/agent/checkpoint.go:103-108 | another owner fails without a change, or starts an empty manifest of its own |
| `CheckpointStore.ReplacedOwnerCannotWrite` | internal/agent/checkpoint_scope.go:41-81 | an owner whose manifest was replaced cannot write into the new one |
| `CheckpointStore.CapturedOnce` | internal/agent/checkpoint.go:190-222 | nothing within a generation changes a captured preimage or its backup |
| `CheckpointStore.CheckpointScope.CaptureBeforeMutation` | internal/agent/checkpoint_scope.go:41-57 | the first capture starts the generation, each path is captured once |
| `CheckpointStore.CheckpointScope.RecordPostimages` | internal/agent/checkpoint.go:239-327 | all mutated paths are recorded with their last revision, or nothing is |
| `CheckpointStore.CheckpointScope.SettleFailedBatch` | internal/agent/checkpoint.go:332-405 | all unrecorded paths are settled at their preimage, or nothing is; without a valid owner or a captured file there is nothing to settle |
| `CheckpointStore.ApplyFinals` | internal/agent/checkpoint.go:288-322 | succeeds exactly when every final postimage is what the file holds |
| `CheckpointStore.RecordedIff` | internal/agent/checkpoint.go:239-327 | postimages are recorded exactly if every mutated file is in the manifest and still has the content that its last mutation left |
| `CheckpointStore.RecordLeaves` | internal/agent/checkpoint.go:288-322 | the mutated files have their present revision as their postimage, and nothing else changes |
| `CheckpointStore.SettledIff` | internal/agent/checkpoint.go:332-405 | paths are settled exactly if each can be read and has a postimage or is back at its preimage; these then have their present state as postimage |
| `CheckpointRun.WholeRunUndo` | internal/agent/checkpoint_undo.go:123-202 | after any batches a full undo succeeds exactly when no entry is obstructed; then every file is the one from the start of the run, mode included unless its content was found restored, directories are as before the undo and the checkpoint is gone; otherwise nothing changes |
| `CheckpointRun.ExactRunUndo` | internal/agent/checkpoint_undo.go:123-202 | when no edit changes the mode of a file that was there at the start, as the tools do not, and none is to a file without permission bits, a successful undo leaves exactly the files of the start, contents and modes |
| `CheckpointRun.BatchesKeep` | internal/agent/tool_dispatch.go:330-452 | over any batches each entry holds the start of the run as preimage and the current state as postimage, and files outside the manifest never changed |
| `CheckpointRun.PerformTakesBack` | internal/agent/file_mutation_batch.go:151-216 | however far a batch came, taking its mutations back in reverse succeeds and leaves every file as before the batch, those that were written with the mode that staging gives them |
| `CheckpointRun.ChangedIsKept` | internal/agent/file_mutation_batch.go:151-216 | a file that somebody changed since, so that it has the content of none of its mutations, stays as it is, and the rollback reports that it was not complete |
| `CheckpointRun.DeathKeeps` | internal/agent/tool_dispatch.go:330-452 | what the manifest says when the process dies within a batch: preimages from the start of the run, postimages from the finished batches, none for what only the last batch captured |
| `CheckpointRun.RestoredExactly` | internal/agent/file_mutation.go:333-336 | exactly which files are then as before: all but those without permission bits that were written |
| `CheckpointRun.EmptyModeIsLost` | internal/agent/file_mutation.go:333-336 | a failed batch that leaves such a file with the default bits |
| `CheckpointRun.RecordKeeps` | internal/agent/checkpoint.go:239-327 | recording a batch that succeeded cannot fail |
| `CheckpointRun.FailKeeps` | internal/agent/checkpoint.go:332-405 | settling a failed batch that was restored cannot fail |
| `CheckpointRun.WrittenIsClear` | internal/agent/checkpoint_undo.go:334-361 | a file that the run left in place never obstructs the undo |
| `CheckpointRun.AbandonedEditBlocksUndo` | internal/agent/checkpoint_undo.go:354-361 | an abandoned edit below a missing directory makes every full undo fail |
| `CheckpointUndo.AllOrNothing` | internal/agent/checkpoint_undo.go:154-202 | without outside writes: a refused undo and one with a complete rollback leave files with modes, manifest and backups as they were; the rollback after any single failure is complete; a finished undo leaves exactly the described disk, or a checkpoint without entries if only its directory could not be removed |
| `CheckpointUndo.OnlyRecognisedStates` | internal/agent/checkpoint_undo.go:441-557 | under arbitrary outside writes the files are explained by those writes and by own steps that each replaced a recognised postimage or, in the rollback, preimage, in a directory that was there |
| `CheckpointUndo.CompleteRollback` | internal/agent/checkpoint_undo.go:441-463 | under arbitrary outside writes: when an undo fails and reports a complete rollback, every path it had changed was afterwards met at its postimage or put back as the undo had found it |
| `CheckpointUndo.PreflightTells` | internal/agent/checkpoint_undo.go:302-420 | exactly which entries are blocked, restored already, restorable or in conflict |
| `CheckpointUndo.RollbackUndoes` | internal/agent/checkpoint_undo.go:441-463 | the reverse rollback restores what was applied, and is incomplete only if one of its own steps failed |
| `CheckpointUndo.ApplyPureIsUndone` | internal/agent/checkpoint_undo.go:165-189 | applying the actions in turn is the pointwise description of the undone files |
| `CheckpointSelection.SelectKeys` | internal/agent/checkpoint_undo.go:216-239 | a selection is accepted exactly when its identifiers are known, distinct and unambiguous, and denotes exactly their entries |
| `CheckpointSelection.IndexIds` | internal/agent/checkpoint_undo.go:204-214 | the index exists exactly without collisions, and is exact |
| `CheckpointSelection.UndoneExactly` | internal/agent/checkpoint_undo.go:145-202 | undisturbed, undo succeeds exactly when every selected entry is fit on its own, and leaves the undone disk in any order |
| `CheckpointSelection.RevertedAre` | internal/agent/checkpoint_undo.go:165-202 | a finished undo reports exactly the selected entries that were not at their preimage already |
| `CheckpointSelection.SelectionsCompose` | internal/agent/checkpoint_undo.go:145-202 | undoing disjoint selections one after another succeeds exactly when undoing them at once does, with the same files and manifest |
| `CheckpointSelection.OrderDoesNotMatter` | internal/agent/checkpoint_undo.go:266-290 | what undo leaves depends only on which entries were selected |
| `CheckpointUndoCommand.UndoCheckpointSelected` | internal/agent/checkpoint_undo.go:123-202 | the command: nothing without a checkpoint, refusal of bad selections, otherwise the transaction |
| `CheckpointUndoCommand.PreflightSelected` | internal/agent/checkpoint_undo.go:266-420 | the loop classifies every selected entry or refuses |
| `CheckpointUndoCommand.ApplyActions` | internal/agent/checkpoint_undo.go:165-189 | the apply loop, with the reverted paths and the remaining entries |
| `CheckpointUndoCommand.RollbackUndoActions` | internal/agent/checkpoint_undo.go:441-463 | the rollback loop goes on after a failure and reports it |
| `CheckpointUndoCommand.PublishRemaining` | internal/agent/checkpoint_undo.go:191-201 | the manifest is published, or the restored files are rolled back; the directory goes with the last entry |
| `CheckpointReconciliation.AgreeUnlessAliased` | internal/agent/checkpoint_reconciliation.go:206-276 | undo and reconciliation agree on an entry exactly when its state is not aliased |
| `CheckpointReconciliation.RunAgrees` | internal/agent/checkpoint_reconciliation.go:206-276 | after any batches reconciliation finds every unobstructed entry in a recorded state, and agrees with undo exactly when it is not aliased |
| `CheckpointReconciliation.OrdinaryContentsAgree` | internal/agent/checkpoint_reconciliation.go:206-276 | they agree for all contents other than the absence mark |
| `CheckpointReconciliation.MarkContentDisagrees` | internal/agent/checkpoint.go:224-229 | a file with the absence mark as its content on which they differ |
| `CheckpointReconciliation.MarkRunDisagrees` | internal/agent/checkpoint.go:224-229 | a batch that creates such a file makes them differ on it |
| `CheckpointReconciliation.DeathAssessed` | internal/agent/checkpoint_reconciliation.go:206-276 | when a run died within a batch, and whatever happened to files and backups since: each file is assessed by comparing it with the start of the run and with the end of the finished batches; one that only the last batch captured is unrecorded if it changed |
| `CheckpointReconciliation.ChangedIsUnrecorded` | internal/agent/checkpoint_reconciliation.go:266-268 | on the disk of a run that died within a batch, every file that differs from the start and that no finished batch captured is assessed as unrecorded |
| `CheckpointReconciliation.StatusMeans` | internal/agent/checkpoint_reconciliation.go:206-276 | which of the five statuses an entry gets, by its images and the current revision |
| `SessionReconciliation.AssessSession` | internal/agent/checkpoint_reconciliation.go:110-195 | refused unless the session awaits reconciliation; otherwise the evidence of every file with its digests, the counters, the reason and the evidence digest |
| `SessionReconciliation.CountsAddUp` | internal/agent/checkpoint_reconciliation.go:157-168 | the counters count every file once |
| `SessionReconciliation.NoReasonIff` | internal/agent/checkpoint_reconciliation.go:129-191 | no confirmation is asked exactly when the checkpoint is the interrupted run's, the tool only writes files, and every file is in a recorded state |
| `SessionReconciliation.DeathIsConfirmedUnless` | internal/agent/checkpoint_reconciliation.go:110-191 | a session whose run died within a batch is resumed without confirmation exactly if the tool only writes files, and every file can be judged and is as at the start of the run or, if a finished batch captured it, at the end of the finished batches |
| `SessionReconciliation.UnrecordedNeedsConfirmation` | internal/agent/checkpoint_reconciliation.go:178-191 | if the last batch changed a file that no finished batch captured, the assessment counts an unrecorded file and asks for a confirmation |
| `SessionReconciliation.DeathCounts` | internal/agent/checkpoint_reconciliation.go:146-169 | the five counters after such a death, in terms of the files at the start, at the end of the finished batches, and now |
| `SessionReconciliation.DeathEvidence` | internal/agent/checkpoint_reconciliation.go:206-276 | the whole evidence on a file after such a death: its name unless it is outside the workspace, the three digests as far as the evidence is complete, and the status |
| `SessionReconciliation.DeathIsAvailableIff` | internal/agent/checkpoint_reconciliation.go:134-138 | the evidence counts for the session exactly if the marker names the run that died, the run began at the last committed revision, and it touched at most 256 files |
| `SessionReconciliation.ReasonIs` | internal/agent/checkpoint_reconciliation.go:178-191 | the reason that is given is the weightiest finding that the counters show |
| `SessionReconciliation.ReceiptSays` | internal/agent/checkpoint_reconciliation.go:70-98 | a receipt is given unless a required confirmation is missing; it repeats the findings, and records an acknowledgement only where one was required |
| `SessionReconciliation.CurrentFindings` | internal/agent/sessions.go:1692-1733 | even where digests collide, a receipt is accepted only if every finding it repeats is found again |
| `SessionReconciliation.ReceiptBindsEvidence` | internal/agent/sessions.go:1692-1733 | unless digests collide, a receipt is still accepted exactly when the same session awaits reconciliation at the same revision for the same execution, with every file found in the same state with the same digests |
| `SessionReconciliation.ReconciledFilesUnchanged` | internal/agent/sessions.go:1692-1733 | a reconciliation that succeeds with a receipt happens on the contents that were assessed |
| `SessionReconciliation.AssessFiles` | internal/agent/checkpoint_reconciliation.go:146-169 | the loop over the entries, with its counters |
| `TurnRecovery.StartRecoverableTurn` | cmd/proxy/chat_transport.go:638-716 | at most three POSTs of one body, a further one only when nothing material was delivered, the session that was read does not complete the turn and its revision had not moved, and fewer than three only for a stated ending, read failure or event; a recovered session completes the turn and was read after the last POST or by the first usable poll; every event once, and one terminal item at the end, the last ending or a cancellation |
| `TurnRecovery.PollReceipt` | cmd/proxy/chat_transport.go:694-715 | the polling loop completes the turn from the first session that completes it; otherwise no session it read did, and it stopped for a stated reason |
| `TurnRecovery.TextIsConserved` | cmd/proxy/chat_transport.go:757-794 | a recovered turn delivers exactly the committed assistant text over all its attempts |
| `TurnRecovery.DeliveredOnce` | cmd/proxy/chat_transport.go:638-716 | at most the last POST delivered anything material, so nothing is delivered twice |
| `TurnRecovery.RecoveryIs` | cmd/proxy/chat_transport.go:757-794 | what is emitted completes a prefix of the committed text |
| `TurnRecovery.RecoveredIff` | cmd/proxy/chat_transport.go:757-794 | a turn is recovered exactly from a session with the receipt of this request at its current revision whose committed text fits and continues the delivered text, whatever else was delivered |
| `TurnRecovery.SavedIff` | cmd/proxy/chat_transport.go:769-776 | the committed text is replayed exactly when it fits |
| `TurnRecovery.ObservedIs` | cmd/proxy/chat_transport.go:613-636 | what is remembered of the delivered events, in terms of these events |
| `TurnRecovery.RetryableIff` | cmd/proxy/chat_transport.go:718-755 | which endings end a turn at once |
| `TurnRecovery.AgentTurnRecoveryState.Observe` | cmd/proxy/chat_transport.go:613-636 | the observed state after an event |
| `TurnRecovery.ForwardAttempt` | cmd/proxy/chat_transport.go:654-661 | all events of a POST are observed and forwarded in order |
| `ManagedServer.HasLiveLease` | cmd/proxy/managed_server.go:104-122 | true exactly when the directory is readable and holds a fresh lease file |
| `ManagedServer.WaitForIdleLock` | cmd/proxy/managed_server.go:137-165 | the lock is returned at the first look at which the server was idle long enough without interruption, the lock could be had and a last look found no lease; otherwise the context ended, or the lock could not be had, before such a look |
| `ManagedServer.IdleStopStrandsNobody` | cmd/proxy/main.go:216-306 | while live clients refresh in time, a server that decided to stop for idleness has no client until it released the startup lock |
| `ManagedServer.LeasedUnderTheLock` | cmd/proxy/managed_server.go:208-222 | a client that probed a server obtains its lease under the same lock, and the server is not on its way to stop |
| `ManagedServer.StopsOnlyWhenIdle` | cmd/proxy/managed_server.go:137-165 | over every run a server stops for idleness only after two looks at least the timeout apart, between which no look saw a live lease |
| `ManagedServer.LeasesFollowClients` | cmd/proxy/managed_server.go:43-102 | a heartbeat makes a lease last for another expiry, leaving removes it, dying leaves it to expire; both give up the startup lock |
| `ManagedServer.UnreadableLeasesStrand` | cmd/proxy/managed_server.go:104-122 | the final check lets a server stop under a client exactly when it can inspect no fresh lease, of a client or left behind by one |
| `ManagedServer.AttachedClientIsStranded` | cmd/proxy/managed_server.go:137-165 | for every expiry and timeout a lawful run from nothing to a final check under which a client with a fresh lease is attached; the server stops exactly if that check cannot inspect the lease |

## Left out

- Capping of the diff (`capDiff`), which cuts the printed text at 4000 bytes: the round trip is about the text before it.
- Invalid UTF-8: texts are sequences of characters, and the checks on encoding are not modelled.
- Hashing, redaction and white-space normalization of anchors are parameters; where two digests have to differ, that is a stated condition.
- The real file system: symbolic links, protected state directories, case folding, temporary files and the identity of a replaced parent directory. A guarded write is one check-and-rename step.
- The strict decoding of the manifest file, and damage to it by others.
- Directories that were created for new files: the code does not remove these.
- `inspectCheckpointUndo`, which only lists statuses.
- What an executor itself does to a file before it reports an error: a failing edit leaves at most new directories. In whole runs nobody else changes files during a batch.
- The form of a reconciliation receipt (`ValidateSessionReconciliationReceipt`): its version, time and number ranges.
- The decisions of `Prompt` on when to commit, enrich or mark: those steps may come in any order here, which covers more runs than the code has.
- The values that `SetSessionConfigOption` and `SetSessionMode` set; their save is a step. A fork, which creates another identifier, and `NewSession`, which loads what it has just created.
- The title that `Rename` writes.
- A session that is deleted, created again and brought to the expected revision between the read of a transcript commit and its write: the two are one step here.
- `ExecutionJournal.Backend.Attempt`: a store operation is one atomic step that may be refused, fail, or be written and reported as failed.
- Shutdown and cancellation of single requests in the ACP connection, the envelope decoder and the initialization handshake.
- The write queue of the connection: frames are taken in the order in which they were queued.
- `readAgentSSELine` and the parsing of server-sent events: an attempt is the sequence of its decoded events and its ending.
- The kind and the terminal that the done event of a recovered turn repeats from the receipt.
- TurnRecovery.StartRecoverableTurn: the error of an expired recovery deadline and of a cancelled caller are one ending.
- `ParseCommand`, `splitCommandArgs`, the read-only allowlist and the command validators.
- A managed server that is stopped by a signal rather than for idleness takes no lock; the protocol results are about the idle path.
- The HTTP probe of the managed server: a probe finds the server ready exactly while it accepts requests.
