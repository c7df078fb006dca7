# Superlily: a verified model of its durability and delivery core

Superlily's bridges sit between a chat platform and Core. They must not lose an event, must
not answer for a message another bot was told to handle, must not send one answer twice, and
must stay within stated limits when they walk foreign data. Core keeps its own records behind
database triggers that only admit evidenced changes. This project models those mechanisms in
Dafny and proves what they are for.

| module | what it models |
|---|---|
| `Spool`, `SpoolRuns`, `SpoolLaws` | the durable ingress outbox, alone and in whole runs against Core and an unreliable network |
| `TriggerTracker` | the four-slot mirror of the task scheduler that attributes responses |
| `SuppressionTracker`, `SuppressionLaws`, `DenyGuard` | the bounded table of suppressions, and the hooks that certify an enforced deny |
| `EvidenceLedger`, `GuardedTables`, `GuardedLives` | the trigger pattern of Core's guarded tables, once for any table, five tables, and the lives they allow |
| `ToolLoop`, `LoopLaws` | the bounded tool loop of an agent run against its trigger, its budget and its provider route |
| `Recovery`, `RecoveryLaws` | paginating history recovery with its checkpoint and report protocol |
| `MediaWalk`, `MediaLaws` | the recursive expansion of forwards and nodes within item, depth and text limits |
| `TextDelivery` | leasing, sending and completing an agent's text under a fence |

How it is built. What the source updates in place is a class whose methods are proved against
a specification of the new state; facts about whole runs are lemmas about those
specifications. Core, the network, the platform and the disk are an environment: it may lose,
delay, repeat or refuse wherever the program meets it, and where a property needs it to keep a
promise (an honest receipt, an honest page) the promise is a named predicate. SHA-256 is
symbolic and injective: a digest holds the material it hashes. Clocks, random tokens, sizes,
quota answers and the moment a process dies are parameters.

The modules named after laws and lives say what the operations are for in terms a user can check,
without the functions the operations are specified by: when an event is replayed, what a budget
sums up, which places of a message are collected, when a job ends as what, whose claim an entry
carries.

Four results say where the code stops short of what one might expect of it.

- Recovery stops at the first page whose oldest message is not newer than the window's start,
  so a message in the very second at which the window starts can be missed although the job
  ends as `scanned`. `Recovery.WindowStartCanBeMissed` is such a history;
  `Recovery.ScannedMeansCovered` is what holds of every history: all messages strictly after
  the start, and of those at the start the ones that lay on a page that was taken, which are
  all of them once an older message has been read. Nothing is claimed in the other direction:
  a message below the last page may still have reached the outbox in an attempt that failed.
- The recovery walk can stall before it reaches its window's start, and
  `Recovery.HonestPageIsTaken` says exactly when: on an honest platform a page is taken if and
  only if the first of its oldest entries has not been a cursor before. A stalling page lies
  wholly in one second, but such a page need not stall. In particular a peer whose whole
  history is younger than the window's start stalls at its first message at the latest
  (`Recovery.FirstMessageStalls`), so its job ends as `partial` and never as `scanned`
  (`Recovery.YoungHistoryIsNeverScanned`) even when everything was captured
  (`Recovery.CompleteWalkStalls`).
- An acknowledgement is two writes: the row is committed, then the success counter is
  incremented. `highest = pending + quarantined + successes` therefore holds exactly up to the
  number of processes that died in between (`SpoolRuns.SequencesAreConserved`).
- Verification of a stored row covers the body, the spool id, the sequence, the digest and the
  capture time, and nothing else (`SpoolRuns.VerificationIsExact`): the envelope's
  `schema_version` and any further envelope field may change unnoticed.

## Model

| member | source | states |
|---|---|---|
| Spool.DurableIngressSpool.constructor | bridges/lily_nonebot/lily_core_bridge/spool.py:150-205 | A new database starts at sequence 1 with no identities, rows or counts, and satisfies the invariant |
| Spool.DurableIngressSpool.Reopen | bridges/lily_nonebot/lily_core_bridge/spool.py:150-205 | Opening a database gives every row the identity it implies, changes no identity it finds and invents none; a missing sequence counter starts behind the last row, missing health counters at zero, and what is there stays |
| Spool.NothingToBackfill | bridges/lily_nonebot/lily_core_bridge/spool.py:186-189 | A database whose rows all have their identities is left exactly as it was |
| Spool.DurableIngressSpool.AppendEvent | bridges/lily_nonebot/lily_core_bridge/spool.py:270-394 | A missing key is refused, a known key recalls or conflicts, an unknown one is sized, admitted and written; the caller's payload is rewritten in place exactly on success |
| Spool.DurableIngressSpool.RecallRow | bridges/lily_nonebot/lily_core_bridge/spool.py:279-304 | A key whose row is still there answers with sequence, digest, capture time and, on a sound disk, the payload first sealed |
| Spool.DurableIngressSpool.RecallIdentity | bridges/lily_nonebot/lily_core_bridge/spool.py:305-332 | A key whose row was compacted away answers the same as if it were still there |
| Spool.DurableIngressSpool.Insert | bridges/lily_nonebot/lily_core_bridge/spool.py:346-394 | The write transaction takes the next sequence and writes identity, row and counter, or, wherever it fails, leaves no trace |
| Spool.DurableIngressSpool.NextPending | bridges/lily_nonebot/lily_core_bridge/spool.py:413-454 | Answers the lowest pending row once it is due and verified, having quarantined only due rows in front of it that fail verification; the loop ends because each round leaves one pending row fewer |
| Spool.DurableIngressSpool.Acknowledge | bridges/lily_nonebot/lily_core_bridge/spool.py:456-490 | A receipt settles the pending row it names and only that; a second receipt is accepted if the record is committed or was compacted away under the same identity, and refused otherwise |
| Spool.DurableIngressSpool.Retry | bridges/lily_nonebot/lily_core_bridge/spool.py:492-506 | A pending row is postponed by the capped doubling delay, counting from the attempts in the caller's copy; nothing else moves |
| Spool.DurableIngressSpool.Quarantine | bridges/lily_nonebot/lily_core_bridge/spool.py:508-519 | A pending row is quarantined with a bounded reason; settled rows are left alone |
| Spool.DelayGrowsToAMinute | bridges/lily_nonebot/lily_core_bridge/spool.py:492-506 | Each retry waits at least as long as the one before, at least a tenth of a second and the base, at most a minute |
| Spool.DurableIngressSpool.Compact | bridges/lily_nonebot/lily_core_bridge/spool.py:530-542 | Removes exactly the committed rows past retention, at most once a minute unless forced, and no identity |
| Spool.DurableIngressSpool.Status | bridges/lily_nonebot/lily_core_bridge/spool.py:544-606 | The reported counts add up: every sequence issued is pending, quarantined, a replay success, or lost by a crash to that count |
| Spool.CompactionKeepsInvariant | bridges/lily_nonebot/lily_core_bridge/spool.py:530-542 | Compaction keeps identities dense, rows in agreement and the conservation law |
| Spool.FreshAppendKeepsInvariant | bridges/lily_nonebot/lily_core_bridge/spool.py:347-383 | An admitted append keeps identities dense and distinct, its row in agreement, and the conservation law |
| Spool.HonestRowVerifies | bridges/lily_nonebot/lily_core_bridge/spool.py:434-454 | A row that still holds what the append wrote always passes verification |
| Spool.DenseSequences | bridges/lily_nonebot/lily_core_bridge/spool.py:347-383 | Identities and the sequences 1 to next - 1 are in bijection: none is skipped |
| SpoolRuns.SpoolStepKeeps | bridges/lily_nonebot/lily_core_bridge/spool.py:270-542 | Every operation, crash, restart or decay of a payload keeps the spool's invariant, forgets no identity and never makes a settled row pending or quarantined |
| SpoolRuns.RunKeepsSysInvariant | bridges/lily_nonebot/lily_core_bridge/reporter.py:316-474 | In every state of every run: spool invariant, held records known, receipts backed by Core, and every settled record stored at Core |
| SpoolRuns.NothingIsLost | bridges/lily_nonebot/lily_core_bridge/reporter.py:245-474 | No loss end to end: after an append answered, in every later state of every run its record is pending, quarantined, or stored at Core under that sequence and digest |
| SpoolRuns.CoreHoldsWhatWasAppended | bridges/lily_nonebot/lily_core_bridge/reporter.py:430-474 | Without decay on disk, what Core stored for a settled sequence is exactly the envelope the append sealed |
| SpoolRuns.ReplayIsOrdered | bridges/lily_nonebot/lily_core_bridge/spool.py:413-432 | Over a whole run with appends and claim receipts in between, the sequences handed to the replay worker never decrease |
| SpoolRuns.ReplayAnswersHead | bridges/lily_nonebot/lily_core_bridge/spool.py:413-454 | Each record handed out is verified and no lower row is pending |
| SpoolRuns.ReplayNeverQuarantinesHonestRows | bridges/lily_nonebot/lily_core_bridge/spool.py:413-454 | Without decay on disk replay leaves every pending row pending |
| SpoolRuns.SpoolRefinesLedger | bridges/lily_nonebot/lily_core_bridge/spool.py:279-394 | Compaction is invisible: every step of the spool is an append to a map that never forgets, with that map's answer, or does not touch the map |
| SpoolRuns.AppendIsWriteOnce | bridges/lily_nonebot/lily_core_bridge/spool.py:279-332 | Over any run, a later append of a key answers with the first envelope if the payloads agree on every field but the envelope and conflicts if they do not, however often the row was retried, settled or deleted |
| SpoolRuns.RewrittenPayloadIsTheSame | bridges/lily_nonebot/lily_core_bridge/spool.py:270-332 | Appending the payload an append has rewritten in place is the same append |
| SpoolRuns.SequencesAreConserved | bridges/lily_nonebot/lily_core_bridge/spool.py:456-490 | Identities issued = unsettled rows + replay successes + crashes between commit and count, in every state of every run |
| SpoolRuns.VerificationIsExact | bridges/lily_nonebot/lily_core_bridge/spool.py:434-454 | A stored payload passes verification if and only if its body is the appended one and its envelope names this spool, sequence, digest and capture time |
| SpoolLaws.NeverRetriedIsDue | bridges/lily_nonebot/lily_core_bridge/spool.py:159-173 | In every reachable state a pending row that was never retried is due at any clock past zero |
| SpoolLaws.AppendedEventIsReplayed | bridges/lily_nonebot/lily_core_bridge/spool.py:346-432 | As long as nobody postponed it, an appended event is handed out at the next look at a queue it heads, as exactly the record its append answered with |
| SpoolLaws.RetryDecidesTheWait | bridges/lily_nonebot/lily_core_bridge/spool.py:492-506 | A pending row waits until exactly the time its last retry set, whatever else happened since |
| SpoolLaws.HeadIsHandedOut | bridges/lily_nonebot/lily_core_bridge/spool.py:413-432 | The head of the queue is handed out as soon as it is due, if it verifies |
| SpoolLaws.DelayDoublesToAMinute | bridges/lily_nonebot/lily_core_bridge/spool.py:492-506 | The first wait is the base, at least a tenth of a second; ten more double it; a minute is the most |
| SpoolLaws.OnlyItsOwnReceiptSettles | bridges/lily_nonebot/lily_core_bridge/spool.py:456-490 | A pending record is settled exactly by a named receipt with its spool, sequence and digest and an outcome of committed or duplicate |
| SpoolLaws.AnswerIsTakenUnlessQuarantined | bridges/lily_nonebot/lily_core_bridge/spool.py:456-490 | Over any run a matching receipt for a record in hand is taken, first or repeated, before or after compaction, unless the row is quarantined |
| SpoolLaws.SettledRowAgesOut | bridges/lily_nonebot/lily_core_bridge/spool.py:456-542 | A settled row carries its receipt and time, is kept for the retention time and goes a second after it |
| SpoolLaws.CompactionKeepsTheYoung | bridges/lily_nonebot/lily_core_bridge/spool.py:530-542 | No compaction deletes or changes what is unsettled or younger than the retention time |
| SpoolLaws.CompactionIsThrottled | bridges/lily_nonebot/lily_core_bridge/spool.py:530-542 | An unforced compaction takes what is old enough exactly if a minute has passed since the last |
| SpoolLaws.SealedSays | bridges/lily_nonebot/lily_core_bridge/spool.py:347-372 | A sealed payload has every appended field and beside them only the envelope, with its five fields |
| TriggerTracker.TriggerState.TransitionTask | bridges/nekro/superlily_bridge/identity.py:256-274 | Presenting a task to the four slots is presenting it to the three-field machine |
| TriggerTracker.TriggerState.Remember | bridges/nekro/superlily_bridge/identity.py:276-325 | Remembering a source in the four slots is remembering it in the three-field machine |
| TriggerTracker.TriggerState.Forget | bridges/nekro/superlily_bridge/identity.py:368-396 | Forgetting a source clears it wherever the machine holds it |
| TriggerTracker.ResponseTriggerTracker.State | bridges/nekro/superlily_bridge/identity.py:208-254 | Finds or creates a conversation's entry, never exceeding the limit; every other entry is untouched, expired, or the oldest of a full table |
| TriggerTracker.ResponseTriggerTracker.Remember | bridges/nekro/superlily_bridge/identity.py:276-325 | The conversation moves as the machine does from what survived of it; an empty source changes nothing |
| TriggerTracker.ResponseTriggerTracker.ObserveTask | bridges/nekro/superlily_bridge/identity.py:327-353 | Answers the source bound to the presented task; idle closes the task and never creates an entry |
| TriggerTracker.ResponseTriggerTracker.SourceForResponse | bridges/nekro/superlily_bridge/identity.py:355-366 | A response without a task has no source and changes nothing; with one it gets the bound source |
| TriggerTracker.ResponseTriggerTracker.Forget | bridges/nekro/superlily_bridge/identity.py:368-396 | The source is gone from the conversation, and an entry left empty is dropped |
| TriggerTracker.LastBinding | bridges/nekro/superlily_bridge/identity.py:256-274 | Finds the latest operation that presented a new task token |
| TriggerTracker.LastDiffering | bridges/nekro/superlily_bridge/identity.py:276-325 | Finds the last source remembered in a stretch of history that differed from the one in force |
| TriggerTracker.AttributionIsHistory | bridges/nekro/superlily_bridge/identity.py:176-366 | A newly presented task gets the last source remembered since the previous binding that differed from the one then in force, and keeps it until another token or idle is presented |
| TriggerTracker.ResponseTriggerTracker.AttributedByHistory | bridges/nekro/superlily_bridge/identity.py:176-366 | What a conversation is attributed to follows from all that reached it since its entry was made, expiry and eviction included |
| TriggerTracker.ResponseTriggerTracker.LivesForItsTime | bridges/nekro/superlily_bridge/identity.py:208-226 | An entry lives for the time to live after its last use and for its running task however long that takes, and not longer |
| TriggerTracker.ForgottenIsGone | bridges/nekro/superlily_bridge/identity.py:368-396 | A forgotten source is bound to nothing and waits for nothing, and nothing else is lost |
| SuppressionTracker.OutboundSuppressionTracker.Install | bridges/nekro/superlily_bridge/identity.py:57-86 | Keeps the first claim of a living entry, refreshes it, and displaces the oldest only for a new key in a full table; the answer is that of the full history for every key that was never evicted |
| SuppressionTracker.OutboundSuppressionTracker.SetAcknowledged | bridges/nekro/superlily_bridge/identity.py:88-105 | Acknowledges the living entry without refreshing it and answers what the full history would of a key never evicted |
| SuppressionTracker.OutboundSuppressionTracker.Match | bridges/nekro/superlily_bridge/identity.py:107-123 | Refreshes and answers the living entry, exactly as a search of the full history would for a key never evicted |
| SuppressionTracker.LivingEntryKeepsItsClaim | bridges/nekro/superlily_bridge/identity.py:57-105 | While an entry lives its claim id and reason stay and an acknowledgement is never taken back |
| SuppressionTracker.ActingKeepsAgreement | bridges/nekro/superlily_bridge/identity.py:48-123 | Key by key, an operation on the pruned table and the same operation on the history give the same entry |
| SuppressionTracker.DisplacingKeepsAgreement | bridges/nekro/superlily_bridge/identity.py:76-86 | An eviction leaves every key but the displaced one in agreement with the history |
| SuppressionTracker.StaysInStep | bridges/nekro/superlily_bridge/identity.py:48-123 | Every operation keeps the size limit, the agreement with the history on every key never evicted, and the bound that evictions need more distinct keys than the table holds |
| SuppressionTracker.LeavesExpiredOrDisplaced | bridges/nekro/superlily_bridge/identity.py:48-86 | An entry leaves the table if and only if it was displaced as the oldest or had expired and was not installed anew |
| SuppressionLaws.RecallIsHistory | bridges/nekro/superlily_bridge/identity.py:48-123 | The search of the history answers exactly if some install has kept the key alive by installs and look-ups in time, with the claim of the first such install, the time of the last refresh, and whether anyone acknowledged it since |
| SuppressionLaws.TableTellsTheHistory | bridges/nekro/superlily_bridge/identity.py:107-123 | The table's answer for a key never evicted is that of the history, both ways |
| SuppressionLaws.TableIsBounded | bridges/nekro/superlily_bridge/identity.py:57-86 | The table stays within its limit, every entry carries the claim of an install of its key, and an eviction needs more distinct keys than it holds |
| DenyGuard.Guard.StartEvent | bridges/nekro/superlily_bridge/__init__.py:952-955 | Only message events become active |
| DenyGuard.Guard.ClearEvent | bridges/nekro/superlily_bridge/__init__.py:957-961 | The end of an event removes every trace of it and nothing else |
| DenyGuard.Guard.InstallClaimSuppression | bridges/nekro/superlily_bridge/__init__.py:831-864 | Authoritative if and only if the current event is the running message event of that conversation and has attempted no send there; the claim answered is the one that stands, else this call's own id and reason, unacknowledged; its suppression is in the table and no send of it has escaped |
| DenyGuard.Guard.MatchClaimSuppression | bridges/nekro/superlily_bridge/__init__.py:867-880 | A send falls under the running event's suppression or the running task's; a certified event whose own suppression has not expired or been evicted always finds it |
| DenyGuard.Guard.ActiveEventSuppression | bridges/nekro/superlily_bridge/__init__.py:867-872 | The running event's suppression is found exactly if it has one that lives for this conversation |
| DenyGuard.Guard.SuppressDeniedSend | bridges/nekro/superlily_bridge/__init__.py:1126-1143 | A send is blocked if and only if the running event or the running task is under a living suppression, and answered with the event's own record first, then the task's; every send of a running event is noted, blocked or not |
| DenyGuard.Guard.CertifiedDenyIsTruthful | bridges/nekro/superlily_bridge/__init__.py:755-770 | In every reachable state a certified event has had no unblocked send to its conversation, before or after installation, unless its own suppression expired or was evicted |
| DenyGuard.KeyNamesOneSource | bridges/nekro/superlily_bridge/identity.py:40-46 | A suppression is for one source in one conversation and no other |
| DenyGuard.Guard.NoteAcknowledgement | bridges/nekro/superlily_bridge/__init__.py:762-770 | The acknowledgement, arriving after any interleaving, is recorded on a living entry and makes nothing expire |
| DenyGuard.LivingIsNotMissed | bridges/nekro/superlily_bridge/__init__.py:831-880 | A certified event's living suppression outlasts every look-up, acknowledgement and install that does not displace that very entry |
| DenyGuard.EscapingIsSound | bridges/nekro/superlily_bridge/__init__.py:1126-1143 | An unblocked send keeps the guarantee if its event is not certified for the conversation or its own suppression is gone |
| DenyGuard.CertifyingIsSound | bridges/nekro/superlily_bridge/__init__.py:855-864 | Without an attempt so far nothing escaped, so the deny can be certified |
| DenyGuard.SuppressingIsSound | bridges/nekro/superlily_bridge/__init__.py:855-860 | Putting a running event under a suppression that is in the table makes no certified event lapse |
| DenyGuard.ClearingIsSound | bridges/nekro/superlily_bridge/__init__.py:957-961 | The end of one event leaves the guarantee for all others |
| DenyGuard.ActingKeepsLiving | bridges/nekro/superlily_bridge/identity.py:88-123 | A look-up or acknowledgement succeeds exactly on what lives, and leaves the set of what lives as it is |
| EvidenceLedger.GuardedTable.Append | apps/core/migrations/versions/0016_confirm_artifacts.py:508-519 | An event is accepted exactly under a free positive number; no event ever changes |
| EvidenceLedger.GuardedTable.Update | apps/core/migrations/versions/0016_confirm_artifacts.py:344-375 | The trigger admits an update exactly with version + 1, a matching event and the table's own rule |
| EvidenceLedger.RunIsEvidenced | apps/core/migrations/versions/0022_agent_tool_loops.py:176-201 | In every reachable state there is a history of the row, one version each, every step admitted by an event that is still there |
| EvidenceLedger.EvidenceIsAChain | apps/core/migrations/versions/0024_agent_product_flow.py:148-181 | For any transition relation: events 1 to version are all there, each previous state is the state before it, and the row's state is that of the event at its version |
| EvidenceLedger.LedgerInduction | apps/core/migrations/versions/0022_agent_tool_loops.py:176-201 | What holds of a fresh row and survives every admitted update holds of every reachable row |
| GuardedTables.ConfirmationIsDecidedOnce | apps/core/migrations/versions/0016_confirm_artifacts.py:344-375 | A confirmation is decided at most once, by one event, at that event's effective time, under the column that names its state |
| GuardedTables.ArtifactLifeIsBounded | apps/core/migrations/versions/0016_confirm_artifacts.py:393-505 | An artifact reserved at version 1 never passes version 6, and a finalized one has an earlier upload_complete event |
| GuardedTables.ArtifactContentIsWriteOnce | apps/core/migrations/versions/0016_confirm_artifacts.py:393-505 | Once set, the content hash is the same in every later state |
| GuardedTables.RunVersionCountsAttempts | apps/core/migrations/versions/0020_agent_runs.py:390-422 | A run started at version 1 without attempts always has version = 2 * attempts + (0 if model_running else 1) |
| GuardedTables.InteractionLifeIsBounded | apps/core/migrations/versions/0024_agent_product_flow.py:148-181 | An interaction takes at most six versions and can only succeed or turn ambiguous out of delivery_pending |
| GuardedTables.TerminalInteractionIsFinal | apps/core/migrations/versions/0024_agent_product_flow.py:148-181 | A terminal interaction never changes again |
| GuardedTables.RolloutLifecycleIsParity | apps/core/migrations/versions/0015d_rollout_plans.py:231-255 | Over unbounded runs a plan is reviewed exactly at version 1 and active exactly at even versions |
| GuardedLives.LawfulIsReached | apps/core/migrations/versions/0022_agent_tool_loops.py:176-201 | Any sequence of numbered rows that satisfies a table's rule step by step is reached by a run of statements |
| GuardedLives.EveryDecisionIsPossible | apps/core/migrations/versions/0016_confirm_artifacts.py:344-375 | A confirmation can be consumed, rejected and expired |
| GuardedLives.SixVersionsOfAnArtifact | apps/core/migrations/versions/0016_confirm_artifacts.py:393-505 | The bound of six versions is met: upload, completion, finalization, reference and cleanup are all let through |
| GuardedLives.UploadsCanBeAbandoned | apps/core/migrations/versions/0016_confirm_artifacts.py:393-505 | An artifact can be rejected or expire, before its upload started or after |
| GuardedLives.SixVersionsOfAnInteraction | apps/core/migrations/versions/0024_agent_product_flow.py:148-181 | An interaction can pass planning, tool, continuation and delivery and succeed at version six |
| GuardedLives.InteractionMovesOn | apps/core/migrations/versions/0024_agent_product_flow.py:157-171 | Which moves the interaction trigger allows: to fail or expire until terminal, to succeed or turn ambiguous out of delivery, to delivery from past acceptance, and else one step on |
| GuardedLives.AnyNumberOfAttempts | apps/core/migrations/versions/0020_agent_runs.py:390-422 | A run can make any number of attempts and end in any state |
| GuardedLives.AnyVersionOfAPlan | apps/core/migrations/versions/0015d_rollout_plans.py:231-255 | A plan can be paused and resumed for ever |
| ToolLoop.Exhausted | apps/core/src/superlily_core/agent_tool_loop_service.py:443-470 | No reason is listed if and only if all seven totals, the turns, the attempts and the deadline are within budget |
| ToolLoop.FallbackClosedForm | apps/core/src/superlily_core/agent_tool_loop_service.py:51-90 | The k-th continuation came from route[min(i0 + k, length - 1)] where i0 is the place of the last successful planner's provider, with attempt number planner attempts + k + 1 |
| ToolLoop.NextOnRoute | apps/core/src/superlily_core/agent_tool_loop_service.py:79-86 | After a retryable failure the next provider in line has the turn |
| ToolLoop.LastOnRoute | apps/core/src/superlily_core/agent_tool_loop_service.py:79-90 | The last provider in line keeps the turn |
| ToolLoop.TurnIs | apps/core/src/superlily_core/agent_tool_loop_service.py:51-90 | On a distinct route the turn after k continuations is that of the provider k places after the last successful planner's, or of the last in line |
| ToolLoop.AgentToolLoop.constructor | apps/core/src/superlily_core/agent_tool_loop_service.py:195-243 | Promotion starts the row at version 1 with its event, pending or failed, and establishes the loop's invariant |
| ToolLoop.AgentToolLoop.Event | apps/core/src/superlily_core/agent_tool_loop_service.py:93-129 | On the current version the update is accepted with version + 1 and its event; on an outdated read the event's number is taken and nothing changes; a captured result is kept |
| ToolLoop.AgentToolLoop.Refresh | apps/core/src/superlily_core/agent_tool_loop_service.py:256-345 | A pending loop captures the result if it fits, exhausts its budget if not, fails with a terminal invocation, and otherwise stays; a refresh on an outdated read changes nothing |
| ToolLoop.AgentToolLoop.ContinuationRouteProfile | apps/core/src/superlily_core/agent_tool_loop_service.py:51-90 | Finds the provider whose turn it is, and none exactly if the last successful planner is not on the route |
| ToolLoop.AgentToolLoop.RecordContinuation | apps/core/src/superlily_core/agent_tool_loop_service.py:348-534 | A known key replays or conflicts and changes nothing; an unknown one is recorded if and only if a result waits, it is that provider's turn and the report is acceptable; the invariant kept includes usage within all seven limits, at most max(1, attempts left) continuations, and a result that never changes |
| ToolLoop.AgentToolLoop.RecordReady | apps/core/src/superlily_core/agent_tool_loop_service.py:385-534 | However calls race, a report is recorded exactly on the last version of the row, under a key nobody used meanwhile, by the provider whose turn it is; in every other case nothing changes |
| ToolLoop.ConcludingIsSound | apps/core/src/superlily_core/agent_tool_loop_service.py:426-534 | A due continuation under a new key leads from one state within budget, attribution and unique keys to the next |
| LoopLaws.BudgetIsCumulative | apps/core/src/superlily_core/agent_tool_loop_service.py:426-470 | In every reachable state with a continuation and not budget_exhausted, the sum over all planner attempts plus the sum over all continuations is within the limit in each of the seven dimensions |
| LoopLaws.ReportDecides | apps/core/src/superlily_core/agent_tool_loop_service.py:443-534 | A report that takes any such sum over its limit, or comes past turns, attempts or deadline, ends budget_exhausted; else success completes, a retryable failure with attempts left waits, and all else fails, each if and only if |
| LoopLaws.RefreshDecides | apps/core/src/superlily_core/agent_tool_loop_service.py:256-345 | A pending loop captures a result exactly if it succeeded, has an output and fits, exhausts if it does not fit, fails if the tool ended otherwise |
| LoopLaws.ContinuationsAreFew | apps/core/src/superlily_core/agent_tool_loop_service.py:471-482 | At most max(1, attempts left) continuations, with consecutive attempt numbers |
| LoopLaws.WaitingMeansRetryable | apps/core/src/superlily_core/agent_tool_loop_service.py:502-508 | While a result waits every stored continuation was a provider error, invalid output or timeout |
| LoopLaws.TerminalLoopIsFinal | apps/core/migrations/versions/0022_agent_tool_loops.py:176-201 | A terminal loop never changes again and none goes back to tool_pending |
| LoopLaws.LoopHistoryIsChecked | apps/core/migrations/versions/0022_agent_tool_loops.py:66-74 | At every version: no result while pending, one while it waits, a terminal time exactly when terminal, and a captured result never altered and within max_result_bytes |
| LoopLaws.KeysAreUsedOnce | apps/core/migrations/versions/0022_agent_tool_loops.py:131-135 | No provider's idempotency key is recorded twice |
| ToolLoop.AgentToolLoop.Decide | apps/core/src/superlily_core/agent_tool_loop_service.py:443-512 | An exhausted budget decides before the outcome, success before a retry, and a retry only while attempts remain; each with its event and reason |
| ToolLoop.AgentToolLoop.Conclude | apps/core/src/superlily_core/agent_tool_loop_service.py:426-534 | On a current read and a new key the row and its one event follow from cumulative usage, attempts, deadline and outcome of the extended list of continuations, the captured result staying; on an outdated read or a used key neither row nor continuation appears |
| Recovery.OldestAt | bridges/lily_nonebot/lily_core_bridge/history_recovery.py:265-270 | The first of the oldest entries of a page |
| Recovery.TakenPage | bridges/lily_nonebot/lily_core_bridge/history_recovery.py:253-276 | A page is taken only if its oldest entry is a new cursor and no younger than any entry or any earlier page |
| Recovery.Rejections | bridges/lily_nonebot/lily_core_bridge/history_recovery.py:277-285 | Nothing is rejected if and only if every message of the page inside the window can be verified |
| Recovery.EveryMessageIsCounted | bridges/lily_nonebot/lily_core_bridge/history_recovery.py:277-291 | Every message of a page inside the window is counted exactly once, as captured or as rejected |
| RecoveryLaws.PageDecides | bridges/lily_nonebot/lily_core_bridge/history_recovery.py:290-302 | A taken page ends a job scanned if and only if it reaches the start, the job has no reason and nothing was ever rejected; it goes on exactly while the start is ahead and pages are left; each other end has its reason |
| RecoveryLaws.PageCounts | bridges/lily_nonebot/lily_core_bridge/history_recovery.py:277-294 | A taken page adds its verifiable entries in the window to captured and the others to rejected, one page, its cursor and its oldest time |
| RecoveryLaws.OnlyTheWindowIsCaptured | bridges/lily_nonebot/lily_core_bridge/history_recovery.py:278-289 | Nothing reaches the outbox that did not lie in the window and verify |
| RecoveryLaws.PageIsJudged | bridges/lily_nonebot/lily_core_bridge/history_recovery.py:257-267 | A page is invalid if too long, exhausted if empty, refused if any entry lacks a time, and otherwise eligible |
| RecoveryLaws.EligiblePageIsJudged | bridges/lily_nonebot/lily_core_bridge/history_recovery.py:268-276 | An eligible page stalls exactly on an empty, zero or used cursor, and turns back exactly on an oldest time past the last |
| RecoveryLaws.ScannedHasNoReason | bridges/lily_nonebot/lily_core_bridge/history_recovery.py:295-298 | Over every run of turns a scanned job has no reason and no rejection, a partial one has a reason, and a job created with a reason never ends scanned |
| RecoveryLaws.NewJobIsDue | bridges/lily_nonebot/lily_core_bridge/history_recovery.py:121-129 | A new job is due at once, for the window and reason it was created with, with all figures zero |
| RecoveryLaws.ThirdFailureEnds | bridges/lily_nonebot/lily_core_bridge/history_recovery.py:320-324 | A failed turn counts one attempt and touches no other figure; the third ends the job, the first two only make it wait |
| RecoveryLaws.FailureWaitsAMinute | bridges/lily_nonebot/lily_core_bridge/history_recovery.py:310-322 | After a failure a job is tried again exactly from a minute later on |
| RecoveryLaws.ReportTellsTheJob | bridges/lily_nonebot/lily_core_bridge/history_recovery.py:131-142 | A report carries the revision and every figure of the job it was made from |
| RecoveryLaws.CursorsAreUsedOnce | bridges/lily_nonebot/lily_core_bridge/history_recovery.py:265-301 | Over every run cursors are distinct, as many as pages, the current one last; pages stay within max_pages and failures within three |
| Recovery.CaptureOf | bridges/lily_nonebot/lily_core_bridge/history_recovery.py:278-289 | Every verifiable message of a page inside the window is handed over |
| Recovery.PageKeepsCoverage | bridges/lily_nonebot/lily_core_bridge/history_recovery.py:253-302 | A taken page extends the covered part of the history downwards without a gap, across overlaps and ties |
| Recovery.CoverageStays | bridges/lily_nonebot/lily_core_bridge/history_recovery.py:304-330 | Coverage survives failed and repeated pages, whatever else reaches the outbox, and messages that arrive later |
| Recovery.WorkKeepsWalk | bridges/lily_nonebot/lily_core_bridge/history_recovery.py:253-327 | On an honest platform every attempt, taken, failed or stopped, keeps coverage and keeps every past cursor a message no older than the oldest time |
| Recovery.ScannedMeansCovered | bridges/lily_nonebot/lily_core_bridge/history_recovery.py:290-302 | A job that ends as scanned has enqueued every message with start < time <= end that was there when its first page was taken, and of those at start the ones on its pages, which are all once an older message was read |
| Recovery.RecoveryJob.ScannedJobHandedAllOver | bridges/lily_nonebot/lily_core_bridge/history_recovery.py:253-330 | End to end, across pages, overlaps, failures, repeats and crashes: a job that reports itself scanned has handed over every message after its start, up to its end, that was there when it was created |
| Recovery.HonestPageIsTaken | bridges/lily_nonebot/lily_core_bridge/history_recovery.py:265-276 | A non-empty honest page is taken if and only if the first of its oldest entries has not been a cursor before; otherwise the walk stalls, never for paging forwards, and only on a page within one second |
| Recovery.FirstMessageStalls | bridges/lily_nonebot/lily_core_bridge/history_recovery.py:268-273 | A walk whose cursor has come to the first message of the history stalls at the next page |
| Recovery.YoungHistoryIsNeverScanned | bridges/lily_nonebot/lily_core_bridge/history_recovery.py:290-302 | If all messages are younger than the window's start the job never ends as scanned |
| Recovery.CompleteWalkStalls | bridges/lily_nonebot/lily_core_bridge/history_recovery.py:265-302 | A history, and two honest turns over it, after which everything was captured and the job is partial with pagination_stalled |
| Recovery.WindowStartCanBeMissed | bridges/lily_nonebot/lily_core_bridge/history_recovery.py:295-298 | A history and a page after which the job is scanned although a message at the window's start was not captured |
| Recovery.WorkKeepsMeasure | bridges/lily_nonebot/lily_core_bridge/history_recovery.py:265-327 | A turn keeps cursors distinct and as many as pages, the last one current, pages and attempts below their limits |
| Recovery.TurnAdvances | bridges/lily_nonebot/lily_core_bridge/history_recovery.py:304-327 | Cursors are only added, the oldest time never rises, an ended job stays ended, and a turn adds one revision exactly if it comes as far as its checkpoint |
| Recovery.EveryJobStops | bridges/lily_nonebot/lily_core_bridge/history_recovery.py:304-330 | Over any run of turns, crashes and refusals a job is worked on at most max_pages + 2 times (max_pages at least 1), once for each revision, and an active job has taken a page or noted a failure each time |
| Recovery.OneReportPerRevision | bridges/lily_nonebot/lily_core_bridge/history_recovery.py:131-142 | Two reports in the outbox with one revision are one report, across crashes |
| Recovery.LastReportIsTrue | bridges/lily_nonebot/lily_core_bridge/history_recovery.py:131-142 | Once no report waits, the outbox holds one with the current revision and the job's present figures |
| Recovery.CheckpointKeepsDelivery | bridges/lily_nonebot/lily_core_bridge/history_recovery.py:131-142 | A checkpoint taken when no report waits leaves every earlier revision in the outbox |
| Recovery.ReportKeepsDelivery | bridges/lily_nonebot/lily_core_bridge/history_recovery.py:207-215 | Handing a report over is safe whether or not the process lives to note it |
| Recovery.RecoveryJob.constructor | bridges/lily_nonebot/lily_core_bridge/history_recovery.py:121-129 | A created job is pending, has no cursor and satisfies the invariant |
| Recovery.RecoveryJob.Report | bridges/lily_nonebot/lily_core_bridge/history_recovery.py:207-215 | A waiting report is forgotten only once the outbox has it; after a crash in between it is sent again |
| Recovery.RecoveryJob.Page | bridges/lily_nonebot/lily_core_bridge/history_recovery.py:253-302 | A page raises and leaves the job alone, stops it with a reason, or is captured in full and advances it |
| Recovery.RecoveryJob.Capture | bridges/lily_nonebot/lily_core_bridge/history_recovery.py:277-289 | Hands over exactly the verifiable messages inside the window, in order, until the outbox refuses |
| Recovery.RecoveryJob.Checkpoint | bridges/lily_nonebot/lily_core_bridge/history_recovery.py:131-142 | The stored row and its next progress revision change together and no revision is overwritten unsent |
| Recovery.RecoveryJob.Turn | bridges/lily_nonebot/lily_core_bridge/history_recovery.py:304-330 | The stored row after a turn, wherever the process died; measure, reports and coverage of all that was there when the job was created are kept, and what reached the outbox stays |
| MediaWalk.PartsAreTidy | bridges/lily_nonebot/lily_core_bridge/media_archive.py:184-253 | For every nesting of messages, even one that answers an id differently each time: distinct paths, none longer than 2 * max_depth + 1, and no forward opened inside itself |
| MediaWalk.Join | bridges/lily_nonebot/lily_core_bridge/media_archive.py:187-195 | Listings of different branches share no path and enclose none of each other's items |
| MediaWalk.Crown | bridges/lily_nonebot/lily_core_bridge/media_archive.py:219-252 | An item in front of what lies below it keeps paths distinct and ids from enclosing themselves |
| MediaWalk.KeptIsABeginning | bridges/lily_nonebot/lily_core_bridge/media_archive.py:231-235 | The texts kept, run together, are the beginning of the texts given, and kept plus left is the budget |
| MediaWalk.TextIsABeginning | bridges/lily_nonebot/lily_core_bridge/media_archive.py:231-253 | Over a whole walk kept text plus remaining budget is 65536, and the kept text is the beginning of all text listed |
| MediaWalk.MarkKeeps | bridges/lily_nonebot/lily_core_bridge/media_archive.py:188-190 | Marking a full list keeps it the beginning of the full listing, now visibly cut |
| MediaWalk.WalkedIsTidy | bridges/lily_nonebot/lily_core_bridge/media_archive.py:172-286 | At most max_items items, with distinct paths of at most 2 * max_depth + 1 positions, and no cycle opened |
| MediaWalk.MediaArchive.Collect | bridges/lily_nonebot/lily_core_bridge/media_archive.py:182-286 | The items are the first max_items of what an unlimited walk would list, in order, and if any are missing an item says so |
| MediaLaws.CollectedIsTheTree | bridges/lily_nonebot/lily_core_bridge/media_archive.py:172-286 | The items are the parts and nodes that stand in the tree of the message, opened within depth and outside cycles, each once, of its kind and in its state, in path order; a place that is missing comes after all items, the list is full and says so |
| MediaLaws.ListedIsThere | bridges/lily_nonebot/lily_core_bridge/media_archive.py:184-253 | Whatever is listed is a place of the tree, shown with its kind, state, reason and texts |
| MediaLaws.PlaceIsListed | bridges/lily_nonebot/lily_core_bridge/media_archive.py:184-253 | Every media part and every node that stands in the tree is listed, however deep |
| MediaLaws.PartsAreSorted | bridges/lily_nonebot/lily_core_bridge/media_archive.py:187-252 | The listing is in path order: an item before what it encloses, lower positions before higher ones |
| MediaWalk.MediaArchive.Walk | bridges/lily_nonebot/lily_core_bridge/media_archive.py:184-194 | Terminates at every depth and extends the listing by exactly the listing of these parts |
| MediaWalk.MediaArchive.Visit | bridges/lily_nonebot/lily_core_bridge/media_archive.py:191-218 | One part is skipped, listed plainly, limited by depth or cycle, or opened, as the unlimited walk would |
| MediaWalk.MediaArchive.ListNodes | bridges/lily_nonebot/lily_core_bridge/media_archive.py:219-253 | The nodes of an opened item are listed in order, invalid ones limit the item, a full list stops it with a mark |
| MediaWalk.MediaArchive.AddEntry | bridges/lily_nonebot/lily_core_bridge/media_archive.py:229-251 | A node is listed with its texts cut to the budget left, and the budget shrinks by what it had |
| TextDelivery.UpdateKeepsRows | apps/core/migrations/versions/0024_agent_product_flow.py:199-223 | An update past the trigger keeps the fence 0 or 1 and telling whether the intent was ever leased, events in order, and one intent for each interaction |
| TextDelivery.AtMostOneSend | bridges/nekro/superlily_bridge/__init__.py:1301-1382 | In every reachable state at most one platform call was made for an interaction, with its intent's own text and conversation |
| TextDelivery.FinalStatesAreTrue | apps/core/src/superlily_core/agent_product_service.py:683-733 | A succeeded intent had exactly the platform call whose message id it stores, a failed one was reported failed by a bridge with that error, a pending or expired one had no call |
| TextDelivery.Outcome | bridges/nekro/superlily_bridge/__init__.py:1162-1196 | Success exactly for an answer with a message id, which it carries; ambiguous exactly when the text may have arrived unseen; failed exactly when blocked or refused by the platform |
| TextDelivery.Reported | bridges/nekro/superlily_bridge/__init__.py:1301-1355 | A bridge reports success only for a platform call it made, with that call's message id, and failure whenever it made none |
| TextDelivery.LeasedTextIsSent | bridges/nekro/superlily_bridge/__init__.py:1301-1335 | A leased text is sent exactly if the bridge lives, has a bot, a text, a known kind of conversation and is not blocked |
| TextDelivery.AgentTextDelivery.Create | apps/core/src/superlily_core/agent_product_service.py:380-443 | An intent is created pending with fence 0 exactly if its interaction has none |
| TextDelivery.AgentTextDelivery.Transact | apps/core/migrations/versions/0024_agent_product_flow.py:199-223 | A transaction on a stale read commits exactly if the row is still where the read saw it; otherwise nothing of it remains |
| TextDelivery.AgentTextDelivery.LeaseIntent | apps/core/src/superlily_core/agent_product_service.py:621-680 | However many requests race, an intent is granted exactly while its row is pending, taking the fence from 0 to 1 |
| TextDelivery.AgentTextDelivery.Reap | apps/core/src/superlily_core/agent_product_service.py:589-618 | A lease past its expiry ends ambiguous and an unleased intent past its deadline expires, unless the row has moved |
| TextDelivery.AgentTextDelivery.Finish | apps/core/src/superlily_core/agent_product_service.py:683-733 | An intent ends exactly if it is still where it was read and its interaction moves along |
| TextDelivery.AgentTextDelivery.Deliver | bridges/nekro/superlily_bridge/__init__.py:1301-1367 | A received lease leads to at most one platform call and at most one completion, wherever the bridge dies |
| TextDelivery.AgentTextDelivery.Complete | apps/core/src/superlily_core/agent_product_service.py:736-777 | A completion is accepted if and only if it repeats the terminal receipt or completes the lease in force with its fence and token; a lost or repeated one changes nothing more |

## Left out

- HTTP, asyncio supervision, plugin registration, logging and heartbeats: only the outcomes of requests appear.
- Spool.DurableIngressSpool.AppendEvent: record size and byte quota are decided by a parameter, because they measure SQLite pages.
- Spool.DurableIngressSpool.Reopen: one database epoch; setting a corrupt database file aside (spool.py:90-106) and starting a new one is not modelled, and identities of rows an older version deleted are not reconstructed.
- Spool.DurableIngressSpool.Retry: the `last_attempt_at` column and `next_retry_delay` are not modelled; nothing but sleep times depends on them.
- SpoolRuns.CoreHoldsWhatWasAppended: assumes that no stored payload decays, because the claim path posts a record without verifying it and Core does not recompute `record_sha256`.
- SpoolRuns.NothingIsLost: Core is an environment that answers only for bindings it has stored; Core's own ingestion and watermark are not modelled.
- TriggerTracker.ResponseTriggerTracker.State: which of several equally old entries is evicted is left open, where the source takes the first in dictionary order.
- TriggerTracker.ResponseTriggerTracker.AttributedByHistory: reads off the operations since an entry was made, up to the first forgotten source; what forgetting does is `TriggerTracker.ForgottenIsGone` and the contract of Forget.
- SuppressionTracker.OutboundSuppressionTracker.Install: refused arguments answer with nothing instead of raising; of a key that was evicted no agreement with the full history is claimed, since the history still holds its first claim when the table takes a second.
- DenyGuard.Guard.InstallClaimSuppression: assumes that an event's identity belongs to one event until it is cleared, which Python's `id` grants while the event object lives.
- DenyGuard.Guard.SuppressDeniedSend: the guarantee is about the running event and excepts, once it has happened, the expiry or eviction of that event's own suppression; a send after the event's end is guarded only through its task trigger, which is a parameter here.
- `NativeIdentityCache` and the conversation helpers of identity.py: one-branch facts.
- EvidenceLedger.GuardedTable.Update: the SQLite triggers only; triggers guard UPDATE and DELETE, so rows are assumed to be inserted at version 1 with their first event, as the services do.
- GuardedTables.RolloutLifecycleIsParity: the guard on rollout counters is not modelled; it would add only that each counter rises by one.
- GuardedTables.RunVersionCountsAttempts: the columns of a run other than state, version and attempt count are not modelled.
- ToolLoop.AgentToolLoop.constructor: how a proposal and its run are looked up, and two promotions at once, are not modelled; planner attempts are fixed once the run is complete, and providers on a route are assumed distinct.
- ToolLoop.AgentToolLoop.RecordContinuation: states a call without interference; racing calls are its transactions, Refresh and RecordReady, which take what they read. Each reads one version of row and continuations, as a SQLite transaction does. Expected cost, deadline and whether another loop used the key are parameters; a missing row and result hashing are errors or parameters.
- Recovery.RecoveryJob.Turn: one job; jobs share only the outbox and the loop over them. Discovery of peers (history_recovery.py:217-251) reads no pages and is not modelled.
- Recovery.ScannedMeansCovered: assumes a time-ordered history with distinct message ids that only grows at its new end (ids other than "" and "0" for `HonestPageIsTaken`); whether a message is verifiable is decided by `history_message`, which is a parameter.
- MediaWalk.MediaArchive.Visit: what becomes of a single image, audio, video or file (lines 254-284) is a parameter; so are the cleaning of segments, sender and time of a node, and the joined text of an entry.
- MediaWalk.MediaArchive.Collect: item limits of at least 1, as configured; with a limit of 0 the source raises an index error. Decimal path strings are lists of positions. The 90-second timeout, the report size limit, `scan` and the job retries are not modelled.
- TextDelivery.AgentTextDelivery.LeaseIntent: which pending intent is chosen is a parameter; row locks are not used, the proof rests on the event's unique number and the trigger alone.
- TextDelivery.AgentTextDelivery.Complete: the move of the interaction inside the same transaction is a parameter that may refuse; the interaction's own table is `GuardedTables`.
- Rendering, platform actions, directory snapshots, payload normalisation, audit and scoring scripts: large but shallow.
