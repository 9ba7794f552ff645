# Ouroboros: durable-state protocols and transcript algorithms, verified

Ouroboros is a self-modifying agent that runs for months, restarts itself, and keeps its state in
files that several processes and threads write. This project models the parts of it whose
correctness is about whole runs, interleavings or unbounded inputs, and proves what the source
promises of them. `dafny verify dfyconfig.toml` checks everything.

Each stateful component is modelled twice: as a class or a method with the loops, branches and field
updates of the source, and as a function on values that says what one call does. The method's
`ensures` equates the two, and says besides what the call does without naming the function; the
lemmas are about the function, over every input, every run of a step machine, or every interleaving. Each step machine starts from the state the process starts in.

| file | what it models |
|---|---|
| `Wrappers.dfy`, `Sequences.dfy`, `Text.dfy` | optional values; ordered and nested lists; `splitlines`, `strip`, `join`, decimal numbers |
| `SummaryProtocol.dfy` | parsing the `[round:N]` summary protocol |
| `ToolHistory.dfy`, `CompactionLaws.dfy` | tool-history compaction; what a pass keeps, and what a second pass does |
| `RestartVerification.dfy` | verifying a self-evolution restart while many workers boot |
| `RootSynthesis.dfy` | the paid synthesis after a root task, across crashes |
| `FollowUpTarget.dfy`, `OwnerAdmission.dfy` | choosing the target of an owner follow-up, and delivering it into a running turn |
| `RestartDrain.dfy` | a restart deferred until running tasks drain |
| `CrashWindow.dfy` | the launcher's crash limit |
| `ChatConsolidation.dfy`, `ScratchpadMerge.dfy` | consolidation of the two memories |
| `CapabilityEvidence.dfy` | the cache of context-window evidence |
| `CodeSearch.dfy` | ripgrep-backed search under caps |
| `ImportImpact.dfy` | files affected by a change, through imports |
| `NavigationMap.dfy` | the section index of a markdown document |

## Where the code does less than it says

Five promises made by comments or docstrings do not hold of the code on every input. The code is
modelled as it is, and for each the exact condition is proved.

- **Restart verification.** The comment at `ouroboros/agent_startup_checks.py:703-711` says that the
  unlocked marker and the locked reconcilers agree when the reviewed commit is HEAD. `StaleWinner`
  shows the rest: at any point of any run at which the transaction has been absorbed, a step undoes
  that if and only if it is the write of a marker that had read the file before, and claim, observed
  HEAD and reviewed commit are not one and the same; the old generation stamp comes back with it.
  `AbsorptionLasts` carries this over runs, and `StaleWinnerRun` is the shortest such run.
- **Root synthesis.** `running` is meant to stop a second paid run
  (`ouroboros/agent_task_pipeline.py:533-540`). Two steps of a finalizer defeat it: a store that takes
  the marker back, because the result it builds on was read at line 1008, long before the write at
  line 1118, or because its own checkpoint replaces a live `running` marker (lines 1106-1107); and a
  claim on a marker that has become terminal since the gate at line 962. Runs without these two steps
  start the body at most once, and `ExactlyUnsafeStepsStartTwice` says that of all steps of the machine
  (finalizers, synthesis, cost refresh, crash and recovery of one process) no other opens the way to a
  second start, and that each of these does, unless it finds a terminal marker of a task whose body was
  never started (a failed launch).
  `MovesBackMeans` lists the stores in question; `StaleStoreStartsTwice`, `CheckpointStoreStartsTwice` and `StaleClaimStartsTwice` are runs from an
  empty server that start it twice.
- **Owner follow-ups.** The comment at `ouroboros/agent.py:105-108` says a follow-up is never silently
  stranded. That holds of turns that end through the closing drain; a turn that leaves its loop by
  an error or through forced finalization reaches only the `finally` at lines 863-869, which closes
  admission without draining. `StepSettles` says that exactly such an end over an undrained mailbox
  strands something, and `StrandedFollowUp` is a run that does.
- **Scratchpad merge.** An appended or uncompressed block that shares time stamp and source with a
  compressed one is dropped. `PassKeepsTheRest` is the equivalence for a whole pass, and `SameKeyIsLost`
  a pass over three blocks that loses one.
- **Capability evidence.** "Never erases a prior confirmed record"
  (`ouroboros/capability_evidence.py:645-649`) fails on the generative path at lines 634-638, where
  `ErasesExactly` is the equivalence and `GenerativeTimeoutErases` a concrete call; and it fails when
  probes overlap, where `OverlappingProbe` is the equivalence and `OverlappingOutageErases` an instance
  without any generative probe.

`BackwardClockForgets` shows why the crash window needs a clock that does not step back.

## Model

| member | source | states |
|---|---|---|
| SummaryProtocol.ParseTextProtocol | ouroboros/context_compaction.py:288-308 | the loop computes the fold over trimmed lines whose meaning the lemmas below give |
| SummaryProtocol.ParseRenderedBlocks | ouroboros/context_compaction.py:293-308 | any list of framed bodies without header lines parses to each body's trimmed lines joined by blanks, blank ones dropped, a later block of the same id winning |
| SummaryProtocol.LastBlockDecides | ouroboros/context_compaction.py:293-308 | a block appended to any framed blocks decides its own id: its trimmed lines joined by blanks, and no entry when that is blank |
| SummaryProtocol.MalformedBlockIsIgnored | ouroboros/context_compaction.py:299-308 | among framed blocks, one whose header holds no number is as if it were not there |
| SummaryProtocol.PreambleIsIgnored | ouroboros/context_compaction.py:293-306 | lines before the first header count for nothing |
| SummaryProtocol.HeaderMeans | ouroboros/context_compaction.py:295-302 | a line between `[round:` and `]` is a header, and its id is the number in between, if it is one |
| SummaryProtocol.HeaderReads | ouroboros/context_compaction.py:294-300 | the header rendered for a round id is recognised as a header and yields that id |
| SummaryProtocol.RoundTrip | ouroboros/context_compaction.py:288-308 | parsing the rendered text of any map of plain one-line summaries, ids in any order, gives back that map |
| ToolHistory.Split | ouroboros/context_compaction.py:82-95 | a transcript is a prefix without round starts followed by rounds that each begin at their only round start; put together they are the transcript |
| ToolHistory.ToolRoundSpans | ouroboros/context_compaction.py:89-95 | the index spans are exactly the first and last indices of those rounds, in order |
| ToolHistory.FindToolNameForResult | ouroboros/context_compaction.py:59-79 | finds the name the nearest earlier assistant message gives to the result's call id, or the empty name |
| ToolHistory.ResultWithinRound | ouroboros/context_compaction.py:70-79 | the name found by searching the whole transcript is the one found in the result's own round, so protection is a property of the round alone |
| ToolHistory.ToolIsNamedByNearest | ouroboros/context_compaction.py:59-79 | the nearest earlier assistant message alone decides: its first call with the result's id names the tool, and without one the name is empty |
| ToolHistory.ProtectedWarningInHead | ouroboros/context_compaction.py:98-119 | the first warning among the first two non-blank lines decides, and a shell exit error does not protect |
| ToolHistory.WarningMeans | ouroboros/context_compaction.py:98-119 | a result warns if and only if one of its lines begins with the warning sign but is no shell exit error, no earlier line begins with the sign, and at most one earlier line is not blank |
| ToolHistory.RoundHasProtectedContent | ouroboros/context_compaction.py:122-132 | true exactly when some tool result of the round comes from a protected tool or carries a protected warning |
| ToolHistory.ProtectedMeans | ouroboros/context_compaction.py:122-132 | a round is protected if and only if some tool result of it has one of the seven protected names or warns |
| ToolHistory.CompactableSpans | ouroboros/context_compaction.py:438-444 | picks exactly the spans of the unprotected rounds among the older ones, in order |
| ToolHistory.SliceKeeps | ouroboros/context_compaction.py:438-444 | which rounds the slice `[:-keep_recent]` holds: for positive values those with `keep_recent` more after them, for the others the first `-keep_recent` |
| ToolHistory.SummarizeInBatches | ouroboros/context_compaction.py:460-478 | the batch loop collects, for each round, the non-empty text its own batch gave its own id |
| ToolHistory.CollectedKeys | ouroboros/context_compaction.py:475-478 | no id outside the compactable rounds enters the summaries, whatever the answers contain |
| ToolHistory.RewriteTranscript | ouroboros/context_compaction.py:490-503 | the copy loop equals the recursive jump from index to index |
| ToolHistory.JumpIsRewrite | ouroboros/context_compaction.py:484-503 | jumping over summarized spans equals rewriting round by round, for any rounds and summaries |
| ToolHistory.BlocksAreRounds | ouroboros/context_compaction.py:484-488 | the map from start index to end and summary holds exactly the summarized rounds |
| ToolHistory.ShrinkMarked | ouroboros/context_compaction.py:235-250 | changes exactly the marked round starts, and of those only call arguments |
| ToolHistory.CompactToolHistory | ouroboros/context_compaction.py:227-250 | the loop over indices computes the fallback that `CompactionLaws.FallbackMeans` describes message by message |
| ToolHistory.CompactToolHistoryLlm | ouroboros/context_compaction.py:424-505 | the whole pass, for every sign of `keep_recent`, equals the rewrite stated by rounds, which `CompactionLaws.KeptVerbatim` describes |
| CompactionLaws.OwnBatchDecides | ouroboros/context_compaction.py:455-478 | batch isolation: a round is summarized exactly when the answer to its own batch of eight holds a non-empty text under its id, and by that text |
| CompactionLaws.RewriteIsSegments | ouroboros/context_compaction.py:490-503 | a rewritten transcript is one segment per round, in order: the round's summary message, or the round itself |
| CompactionLaws.KeptVerbatim | ouroboros/context_compaction.py:424-505 | for `keep_recent >= 1`: exactly the older unprotected rounds that their own batch of eight answered with a non-empty text become one message each; prefix, protected rounds, the last `keep_recent` rounds and all others stay verbatim in order; without any summary exactly the first messages of older rounds are shortened |
| CompactionLaws.FallbackMeans | ouroboros/context_compaction.py:227-250 | for `keep_recent >= 1`: the first message of each round before the last `keep_recent` has its non-empty call arguments shortened, with everything else of it kept, and every other message is unchanged |
| CompactionLaws.FallbackKeepsRecent | ouroboros/context_compaction.py:231-250 | so the prefix and everything from the first of the last `keep_recent` rounds on is unchanged, and with no more rounds than that everything is |
| CompactionLaws.PairingKept | ouroboros/context_compaction.py:484-505 | if every result sat in its call's round before, none is orphaned after; and likewise for calls |
| CompactionLaws.ShrinkKeepsPairing | ouroboros/context_compaction.py:227-250 | the fallback orphans no call and no result either |
| CompactionLaws.SplitOfRewrite | ouroboros/context_compaction.py:82-95 | a summary is no round start: cutting a rewritten transcript into rounds swallows each summary into the round before it |
| CompactionLaws.ProtectedWithTail | ouroboros/context_compaction.py:122-132 | swallowing summaries never unprotects a round |
| CompactionLaws.OlderAreProtected | ouroboros/context_compaction.py:438-447 | after a pass that answered every compactable round, only protected rounds precede the last `keep_recent` |
| CompactionLaws.Fixpoint | ouroboros/context_compaction.py:431-505 | then a second pass with the same `keep_recent` returns the transcript unchanged, whatever the summarizer would answer |
| RestartVerification.CampaignDoc.AppendUniqueTransaction | ouroboros/agent_startup_checks.py:545-555 | appends unless the non-empty id is listed, and keeps the last fifty either way |
| RestartVerification.HistoryKeepsNewest | ouroboros/agent_startup_checks.py:545-555 | the history keeps the fifty newest, with the transaction last unless its id was listed |
| RestartVerification.CampaignDoc.ClearRepeatCount | supervisor/evolution_lifecycle.py:241-256 | clears only the objective's own tally and dropped flag |
| RestartVerification.CampaignDoc.BumpRepeatCount | supervisor/evolution_lifecycle.py:218-238 | counts one more for the objective and marks it dropped, never under the empty key |
| RestartVerification.CampaignDoc.Reconcile | ouroboros/agent_startup_checks.py:618-686 | the locked mutator, field by field, does what the reconcile step of the interleavings does; without a write nothing changes |
| RestartVerification.CampaignDoc.MarkRestartVerified | ouroboros/agent_startup_checks.py:702-810 | the unlocked marker, on the version it read, does what the winner's write does, whose four outcomes `MarkEffects` states; its verdict is true exactly when the claim is HEAD and no other commit is in flight |
| RestartVerification.ReconcileConsistent | ouroboros/agent_startup_checks.py:618-686 | a reconcile keeps the file one of three shapes (in flight, absorbed, left unabsorbed), and an open gate on a dangling transaction settles it by reachability |
| RestartVerification.MarkConsistent | ouroboros/agent_startup_checks.py:702-810 | a marker's write from any such version is one of them too, and absorbs when claim, HEAD and commit agree |
| RestartVerification.MarkEffects | ouroboros/agent_startup_checks.py:723-798 | the marker's outcomes in every field: another commit, or a claim that HEAD does not match, only blocks the cycle; a matching claim absorbs a reviewed commit, counts and reports it and clears the objective's tally; without a commit it adds to the tally and counts and reports nothing |
| RestartVerification.MarkWithoutCommit | ouroboros/agent_startup_checks.py:771-790 | without a commit the campaign is left, uncounted, if and only if claim and HEAD agree, and otherwise stays in flight |
| RestartVerification.ReconcileEffects | ouroboros/agent_startup_checks.py:636-686 | an open gate over a dangling transaction, in every field: reachable, it is counted once, reported absorbed and its tally cleared; unreachable, reported abandoned and its tally raised; the generation is stamped either way |
| RestartVerification.RunsConsistent | ouroboros/agent_startup_checks.py:587-820 | every interleaving of stale winners and reconcilers keeps the file, and every version read from it, in one of the three shapes |
| RestartVerification.AbsorbedAtMostOnce | ouroboros/agent_startup_checks.py:545-798 | in every interleaving the cycle is counted at most once, its id listed at most once, and shown absorbed exactly when the counter has risen and it is no longer active |
| RestartVerification.CountedHasCommit | ouroboros/agent_startup_checks.py:750-798 | over any interleaving from a boot, a cycle is counted only if it carried a reviewed commit |
| RestartVerification.HeadAlwaysAbsorbs | ouroboros/agent_startup_checks.py:702-711 | when the reviewed commit is HEAD and matches the claim, every interleaving in which anyone settles ends absorbed and counted once |
| RestartVerification.StaleWinner | ouroboros/agent_startup_checks.py:707-711 | the known limitation as an equivalence, from any point of any run after the absorption: a step undoes it if and only if it is a stale marker's write with claim, HEAD and commit not all the same; the file then has the old stamp |
| RestartVerification.AbsorptionLasts | ouroboros/agent_startup_checks.py:702-711 | over any run from there the transaction stays absorbed at every point if and only if no step is such a write |
| RestartVerification.StaleWinnerRun | ouroboros/agent_startup_checks.py:702-711 | a run from a boot: read, absorption, stale write, and the transaction is in flight again |
| RestartVerification.StampedGenerationRests | ouroboros/agent_startup_checks.py:590-622 | once a generation is stamped its later boots decide nothing and change nothing, so a commit landing later waits for a new generation |
| RestartVerification.OneDecisionPerGeneration | ouroboros/agent_startup_checks.py:605-613 | however many workers boot or respawn, at most one decision per non-empty generation, and any boot leaves it stamped |
| RestartVerification.ReconcilerVerdict | ouroboros/agent_startup_checks.py:618-676 | a reconciler absorbs if and only if the gate is open, the transaction dangles and the commit is reachable; otherwise an open gate abandons it and reports that |
| RootSynthesis.Pipeline.StoreTaskResult | ouroboros/agent_task_pipeline.py:1100-1118 | a terminal marker read by the finalizer is written again; any other gives `pending_once` when a checkpoint comes in or there was none, and else is repeated, whatever was written since |
| RootSynthesis.Pipeline.RefreshCheckpoint | ouroboros/post_task_checkpoint.py:65-120 | a cost refresh repeats the marker it finds, and writes the word `refresh` when there is none |
| RootSynthesis.Pipeline.RunPostTaskProcessing | ouroboros/agent_task_pipeline.py:436-449 | starts exactly when the task is not in flight, and then `running` is durable and the claim taken before the worker |
| RootSynthesis.Pipeline.FinishSynthesis | ouroboros/agent_task_pipeline.py:506-510 | leaves a terminal marker and releases the claim |
| RootSynthesis.Pipeline.EmitTaskResults | ouroboros/agent_task_pipeline.py:957-983 | over a terminal marker an undisturbed finalizer starts nothing and changes nothing; with one in flight it starts none; over no marker or `pending_once` it starts exactly one, with `running` stored |
| RootSynthesis.Pipeline.RecoverPending | ouroboros/agent_task_pipeline.py:530-595 | over any listing: replays exactly the `pending_once` rows not in flight, in order, degrades every `running` row, leaves all other markers alone, and counts the open rows |
| RootSynthesis.ReplayedExactly | ouroboros/agent_task_pipeline.py:550-594 | the replayed rows are those at increasing positions of the listing that are `pending_once` and not in flight, and no others |
| RootSynthesis.OpenRowsCount | ouroboros/agent_task_pipeline.py:549-595 | the count returned is the number of listed tasks that are `pending_once` or `running` |
| RootSynthesis.EndRuns | ouroboros/agent_task_pipeline.py:506-510 | the synthesis that ends marks and then releases: the task is completed or degraded, with no claim left |
| RootSynthesis.FailedLaunchRuns | ouroboros/agent_task_pipeline.py:519-526 | a thread that cannot start leaves a degraded marker, no claim and no start |
| RootSynthesis.StepKeepsInv | ouroboros/agent_task_pipeline.py:436-595 | the invariant tying marker, stage, readers' views and number of starts is kept by every step but the two unsafe ones, for any number of finalizers per task |
| RootSynthesis.MarkersMoveForward | ouroboros/agent_task_pipeline.py:1100-1116 | without an unsafe step no marker ever goes back from over to running or not begun, or from running to not begun |
| RootSynthesis.MovesBackMeans | ouroboros/agent_task_pipeline.py:1100-1118 | which store takes a marker back: one whose finalizer read no terminal marker, over a terminal one, or over `running` with an incoming checkpoint or when it had not read `running` |
| RootSynthesis.BodyStartsAtMostOnce | ouroboros/agent_task_pipeline.py:533-540 | over every run of finalizers that read, store, pass the gate and claim in any interleaving, of refreshes, crashes and recoveries, without an unsafe step, the paid body starts at most once per task and never before `running` is durable |
| RootSynthesis.ExactlyUnsafeStepsStartTwice | ouroboros/agent_task_pipeline.py:1008-1118 | from every state a safe run reaches, a step opens the way to a second start by safe steps alone if and only if it stores a marker back or claims a terminal one, and the marker it finds is not the terminal one of a body that never started |
| RootSynthesis.NeverBegunIsHarmless | ouroboros/agent_task_pipeline.py:519-526 | after a failed launch, a terminal marker whose body never started, even an unsafe step leaves at most one start |
| RootSynthesis.StaleStoreStartsTwice | ouroboros/agent_task_pipeline.py:1008-1118 | a run from an empty server in which a finalizer that read no marker stores over a live `running` one, and the body starts twice |
| RootSynthesis.CheckpointStoreStartsTwice | ouroboros/agent_task_pipeline.py:1106-1107 | such a run in which a finalizer's own checkpoint replaces `running` |
| RootSynthesis.StaleClaimStartsTwice | ouroboros/agent_task_pipeline.py:962-974 | such a run in which a finalizer passes the gate before another's synthesis is over and claims after |
| RootSynthesis.RecoveryStep | ouroboros/agent_task_pipeline.py:550-595 | recovery never reopens a terminal marker, never starts the body itself, claims only `pending_once`, and ends with no `running` marker of the dead process |
| RootSynthesis.EmitIsFiveSteps | ouroboros/agent_task_pipeline.py:436-449 | a finalizer's call and five undisturbed steps of the machine end in the same marker, claim and count of starts |
| RootSynthesis.RecoverIsItsSteps | ouroboros/agent_task_pipeline.py:550-595 | the recovery loop and the machine's recovery steps leave the same markers, over any listing |
| FollowUpTarget.AddressableRootTasks | server.py:260-299 | lists each addressable root of the chat once, from the tables first; the direct turn only when no table lists it |
| FollowUpTarget.RootsMean | server.py:260-299 | an id is listed if and only if it is the chat's direct turn or that of a row of the chat which is neither a direct chat nor a subagent |
| FollowUpTarget.SoleTarget | server.py:376-390 | there is a target if and only if the chat has exactly one root, and the lane follows from where it is listed |
| OwnerAdmission.DirectAgent.RouteDirect | server.py:418-462 | one locked pass delivers exactly when the agent is busy, accepting and on that task, puts the message at the end of the mailbox and raises the generation by one, else changes nothing |
| OwnerAdmission.DirectAgent.BeginTurn | ouroboros/agent.py:601-611 | opening a turn resets identity and acceptance together |
| OwnerAdmission.DirectAgent.CloseDrainReopen | ouroboros/loop.py:3861-3890 | returns exactly what the mailbox received since the last drain, adds it to what the turn was handed, and leaves the mailbox; reopens exactly when that is something, for the same turn |
| OwnerAdmission.DirectAgent.FinishTurn | ouroboros/agent.py:863-869 | the final reset |
| OwnerAdmission.RouteIsFiveSteps | server.py:418-462 | the router's critical section is what five undisturbed lock-level steps do |
| OwnerAdmission.StepKeepsInv | server.py:414-462 | the lock, generation, fence and mailbox invariant is kept by every step of any number of routers, the turn and the supervisor |
| OwnerAdmission.MailboxesGrow | ouroboros/owner_mailbox.py:35-47 | every step of the machine leaves each mailbox as it was or extends it at the end, and adds at most one message to the two lanes together |
| OwnerAdmission.DrainsReadInOrder | ouroboros/owner_mailbox.py:50-75 | in every reachable state what a turn's drains returned, put together, is the initial part of its mailbox it has drained: nothing is skipped, repeated or reordered |
| OwnerAdmission.FenceSteps | supervisor/task_lifecycle.py:143-202 | a new fence is open and counts from zero, an existing one is left alone, a revision removes it and an end without an expectation seals it |
| OwnerAdmission.AdmissionIsSafe | server.py:414-462 | in every reachable state: a direct append happens only under the admission lock to the turn still accepting; the generation equals the number of deliveries; a queue append only under the queue lock, to a live task behind no sealed fence; no router holds both locks |
| OwnerAdmission.FenceCountsFollowUps | supervisor/task_lifecycle.py:132-229 | a fence's generation is the number of follow-ups its root received since it was opened |
| OwnerAdmission.SealedFenceIsQuiet | server.py:443-446 | a step from a sealed fence delivers nothing to its root |
| OwnerAdmission.SealMissesNone | supervisor/task_lifecycle.py:194-227 | after any run, ending a fence with an inspected generation seals it if and only if exactly that many follow-ups came since it was opened, and over any further run that does not release it none is added |
| OwnerAdmission.StepSettles | ouroboros/agent.py:105-108 | a step leaves a task's deliveries live or fully drained if and only if it does not end that task's turn from its loop over a mailbox that holds more than was drained |
| OwnerAdmission.StrandingRun | ouroboros/agent.py:863-869 | every run with such an end reaches a state in which a turn is over and its mailbox is not drained |
| OwnerAdmission.StrandedFollowUp | ouroboros/agent.py:863-869 | a run from the start: one follow-up is delivered, the turn fails, nobody drains it |
| OwnerAdmission.DeliveredIsDrained | ouroboros/agent.py:105-108 | when no turn ends over an undrained mailbox, every delivered follow-up is in its task's mailbox and, once that turn is not live, what its drains returned, put together, is exactly that mailbox, in order |
| OwnerAdmission.RefusedIsFinal | server.py:421-428 | a refused router never appended and stays refused |
| RestartDrain.Supervisor.HandleRestart | server.py:1789-1817 | a request is deferred or attempted as the drain machine's step says, a newer one replacing the older |
| RestartDrain.RequestDecides | server.py:1800-1817 | a request waits the configured time, at most 1800 s, exactly when that is positive and some task sent a heartbeat within the last 120 s; else it is attempted at once |
| RestartDrain.Supervisor.CheckPendingRestartDrain | server.py:1820-1835 | reports draining exactly when a restart was pending, and attempts it when due |
| RestartDrain.Supervisor.LoopTick | server.py:1676-1729 | one pass of the loop, also when it raises before the drain check, in the attempted restart, or between the check and the assignment |
| RestartDrain.NoAssignmentWhileDeferred | server.py:1709-1721 | from the tick that defers a restart until it is attempted no task is assigned, over any number of ticks, requests and loop crashes |
| RestartDrain.DeferringTickAssignsNothing | server.py:1709-1721 | already the deferring tick assigns nothing, and the deferral outlasts it unless a restart is attempted |
| RestartDrain.PlainPassAssigns | server.py:1709-1721 | a pass without a request and without a pending restart assigns tasks |
| RestartDrain.AttemptExactlyWhenDue | server.py:1824-1835 | a tick's check attempts the restart if and only if no task is live or the deadline has passed, and starts no work then either |
| RestartDrain.DrainIsBounded | server.py:1802-1809 | a restart still pending after a check was requested less than 1800 s before it, and only a newer request changes the deadline |
| CrashWindow.Launcher.LifecycleLoop | launcher.py:663-728 | the loop stops at the first exit that ends it, for the right reason (also a shutdown requested while it waits to restart), with the pruned list of exactly the exits served |
| CrashWindow.EndingMeans | launcher.py:695-728 | after any exits: a shutdown ends the loop, the panic code panics, a requested restart never meets the crash limit, and every other code is a crash |
| CrashWindow.KeptIsWindow | launcher.py:719-721 | with a non-decreasing clock the pruned list is the whole crash history cut to the trailing 120 s |
| CrashWindow.WindowCount | launcher.py:721-722 | the window holds `k` crashes or more exactly when the `k`-th last one is inside |
| CrashWindow.StopsExactlyAtFiveInWindow | launcher.py:719-724 | the launcher gives up at a crash if and only if it and the four before it fall within less than 120 s |
| CrashWindow.FiveCrashesAreSpread | launcher.py:719-728 | while it goes on, any five consecutive crashes span 120 s or more |
| CrashWindow.RestartsDoNotCount | launcher.py:712-717 | requested restarts neither count nor reset: removing them changes nothing |
| CrashWindow.BackwardClockForgets | launcher.py:719-721 | with a clock that steps back the list forgets a crash that would be in the window |
| ChatConsolidation.ChatMemory.SummarizeChunks | ouroboros/consolidator.py:111-156 | one block per hundred entries up to the first empty summary, each with its own chunk's reply and entries |
| ChatConsolidation.ChunkBlocksMean | ouroboros/consolidator.py:111-156 | block `i` is the trimmed reply to chunk `i` and covers the hundred entries of that chunk |
| ChatConsolidation.ChatMemory.CompressBlocksToEra | ouroboros/consolidator.py:246-285 | an era carries the sum of its blocks' counts; an empty reply yields none |
| ChatConsolidation.ChatMemory.RunBlockConsolidation | ouroboros/consolidator.py:89-191 | one pass, including a crash between its two writes, is the pass of the coverage theorems |
| ChatConsolidation.OldestFourAreCompressed | ouroboros/consolidator.py:167-173 | with more than ten blocks and an answer, the four oldest become one era of their entries and counts, and the rest follow unchanged |
| ChatConsolidation.ShortLogWaits | ouroboros/consolidator.py:104-106 | fewer than a hundred new entries: nothing happens |
| ChatConsolidation.RotationRestarts | ouroboros/consolidator.py:99-102 | a log shorter than the offset is consolidated as from offset zero |
| ChatConsolidation.CompressionKeepsCoverage | ouroboros/consolidator.py:167-180 | era compression, successful or failed, covers the same entries in the same order and count |
| ChatConsolidation.PassCovers | ouroboros/consolidator.py:99-187 | a pass adds to the coverage exactly the entries from the old offset to the new, in order, each once |
| ChatConsolidation.BlocksCoverExactly | ouroboros/consolidator.py:89-191 | while the log only grows and no pass is cut off, blocks cover exactly the first offset entries in order and their counts sum to it |
| ChatConsolidation.NeverSkipped | ouroboros/consolidator.py:182-187 | with crashes between the writes no entry below the offset is skipped, and none is covered more often than once plus once per crash |
| ScratchpadMerge.Scratchpad.AppendBlock | ouroboros/memory.py:124-139 | an append keeps the last ten blocks |
| ScratchpadMerge.Scratchpad.MergeSurvivors | ouroboros/consolidator.py:541-548 | the merge puts the summary before the blocks it finds under the lock whose key is not compressed |
| ScratchpadMerge.Scratchpad.ConsolidateBlocks | ouroboros/consolidator.py:458-548 | a pass with any appends during its slow call, its thresholds and its empty-answer exit |
| ScratchpadMerge.WindowIsOlderHalf | ouroboros/consolidator.py:469-470 | the pass compresses the older half, at least two, and the rest is what remains |
| ScratchpadMerge.SmallScratchpadIsLeft | ouroboros/consolidator.py:453-467 | fewer than three blocks or at most 30000 characters: nothing is merged; a blank answer leaves what the appends leave |
| ScratchpadMerge.AppendsKeepLastTen | ouroboros/memory.py:124-139 | whatever the store held, evicting append by append keeps the last ten of everything, and no append changes nothing |
| ScratchpadMerge.MergeKeepsTheRest | ouroboros/consolidator.py:533-548 | for snapshots of any size, what appends leave of the uncompressed and appended blocks all survives in order if and only if none of it shares a key with a compressed block |
| ScratchpadMerge.PassKeepsTheRest | ouroboros/consolidator.py:469-548 | the same of a whole pass and the window it compresses |
| ScratchpadMerge.SameKeyIsLost | ouroboros/consolidator.py:465-546 | a concrete pass over three blocks above the threshold, during which an append stamped like the first is dropped without trace |
| ScratchpadMerge.FreshAppendSurvives | ouroboros/consolidator.py:533-536 | a block appended during the call under a fresh key is never lost, whatever the snapshot, unless ten later ones evict it |
| ScratchpadMerge.AtMostEleven | ouroboros/consolidator.py:541-548 | over any run of appends and passes the store holds at most one block more than appends leave |
| ScratchpadMerge.TenAppendsLeaveEleven | ouroboros/consolidator.py:541-548 | ten fresh appends during the call reach that bound |
| CapabilityEvidence.EvidenceStore.Probe | ouroboros/capability_evidence.py:556-665 | the probe answers and writes as the two functions of file and call say that the theorems are about |
| CapabilityEvidence.FreshRecordIsServed | ouroboros/capability_evidence.py:587-602 | a record no older than its own status allows is answered without a write, unless the probe is forced or generative over an unconfirmed one |
| CapabilityEvidence.FirstWindowIsConfirmed | ouroboros/capability_evidence.py:615-643 | a live probe confirms the first window found: local health, then provider metadata, then the oversized request |
| CapabilityEvidence.NothingFound | ouroboros/capability_evidence.py:630-665 | a live probe that finds none records a failure after a lost oversized request, keeps a known record as stale, and otherwise records an outage or that the route cannot be probed |
| CapabilityEvidence.EvidenceStore.RecordOwnerAck | ouroboros/capability_evidence.py:369-398 | an acknowledgement is stored for its route and touches nothing else |
| CapabilityEvidence.EvidenceStore.RevokeOwnerAck | ouroboros/capability_evidence.py:405-412 | a revocation removes exactly that route's acknowledgement and says whether there was one |
| CapabilityEvidence.ErasesExactly | ouroboros/capability_evidence.py:630-649 | a step loses a confirmed record if and only if it is a generative probe let through that finds no window and fails in transit |
| CapabilityEvidence.ConfirmedForever | ouroboros/capability_evidence.py:645-657 | over every sequence of non-generative probes, acknowledgements, clocks, forced refreshes and outages a confirmed route keeps a confirmed record with a positive window |
| CapabilityEvidence.ConfirmedUnlessErased | ouroboros/capability_evidence.py:630-657 | the same over every sequence without an erasing probe |
| CapabilityEvidence.GenerativeTimeoutErases | ouroboros/capability_evidence.py:634-638 | a concrete forced probe that erases a confirmed record |
| CapabilityEvidence.WhatProbesLeaveAlone | ouroboros/capability_evidence.py:578-613 | with an acknowledgement the probe returns it and writes nothing; without fetching it writes nothing; it never touches another route |
| CapabilityEvidence.HotPathGate | ouroboros/capability_evidence.py:154-160 | exactly what passes the window gate without fetching: an acknowledgement or a known record, however old |
| CapabilityEvidence.OverlappingProbe | ouroboros/capability_evidence.py:576-664 | a probe that overlaps others loses a record confirmed meanwhile if and only if it may fetch, the version it read neither acknowledges nor serves the route, it finds no window, and the oversized request failed or that version had no known record |
| CapabilityEvidence.OverlappingOutageErases | ouroboros/capability_evidence.py:658-664 | a concrete outage after a read of an empty file overwrites what another probe confirmed |
| CapabilityEvidence.OutageAfterStaleRead | ouroboros/capability_evidence.py:576-664 | an outage after a stale read spares a record confirmed meanwhile exactly when the version read was known already |
| CodeSearch.Enumerate | ouroboros/code_search_rg.py:151-177 | the targets are a prefix of the permitted files, all of them unless the cap or the deadline flag is set; the cap means exactly the maximum, and the deadline that the budget had expired at some directory |
| CodeSearch.PermittedMeans | ouroboros/code_search_rg.py:151-177 | the permitted files are those at increasing positions of the listing that the path check, and in a walk the include pattern, let through, and no others |
| CodeSearch.PackBatches | ouroboros/code_search_rg.py:184-195 | batches are an order-preserving partition into non-empty command lines within budget unless a single path, and no partition has fewer |
| CodeSearch.GreedyIsMinimal | ouroboros/code_search_rg.py:184-195 | a packing without room for the next path needs no more batches than any other packing |
| CodeSearch.Collect | ouroboros/code_search_rg.py:197-239 | the bounded loop returns a prefix of all allowed matches, and all of them unless a flag is set; truncation means the cap was reached, lateness that some batch met an expired budget, neither that every batch ran in time; and it fails only if ripgrep did |
| CodeSearch.CollectBatch | ouroboros/code_search_rg.py:214-236 | one batch's output adds its allowed matches in order up to the cap, and is complete unless the cap was reached |
| CodeSearch.HitsMean | ouroboros/code_search_rg.py:209-236 | of ripgrep's events the collector keeps the matches with an allowed path, in order, and skips all else |
| CodeSearch.SearchWithRg | ouroboros/code_search_rg.py:120-239 | flags are honest both ways: never more than the cap or outside the permitted paths; with no flag set the result is each match of each permitted file exactly once, in order when ripgrep reports in order; and a set flag names what happened: the permitted files reach the file cap, the matches reach the result cap, or the budget expired; it fails only if ripgrep did |
| CodeSearch.BatchingIsInvisible | ouroboros/code_search_rg.py:184-239 | whatever the packing, the batches report each match of each file once, and in file order when each batch does |
| ImportImpact.SymbolDefinitions | ouroboros/code_intelligence.py:667-682 | finds exactly the symbols of indexed files that pass the name, path and kind filters, a path filter naming a file or a directory |
| ImportImpact.FilterMeans | ouroboros/code_intelligence.py:672-676 | a path filter, with or without a trailing slash, lets a file of that name and every file under it through, and nothing else |
| ImportImpact.StartMeans | ouroboros/code_intelligence.py:742-745 | a target with a slash or a source suffix starts from that path alone, any other from the indexed files that define it |
| ImportImpact.ClampMeans | ouroboros/code_intelligence.py:738 | depths are clamped to one through five |
| ImportImpact.OneReason | ouroboros/code_intelligence.py:750-757 | a file is labelled by the first listed fact of its path that is hit, as an import before a reference |
| ImportImpact.ImpactFiles | ouroboros/code_intelligence.py:737-763 | the bounded walk gives the reasons of all levels up to the clamped depth: its early exit, its closing default label and its filter of unknown paths change nothing |
| ImportImpact.LevelsAreChains | ouroboros/code_intelligence.py:747-759 | a file is at a level if and only if an import chain of that length leads to the start, or a shorter one to a referring file; cycles included |
| ImportImpact.EmptyLevelEnds | ouroboros/code_intelligence.py:758-760 | stopping at an empty frontier loses nothing |
| ImportImpact.ReasonIsFirstMeeting | ouroboros/code_intelligence.py:753-757 | an import reason names the depth at which the file is first met, a references reason a referring file, and no file is ever labelled target |
| ImportImpact.ImpactIsExplained | ouroboros/code_intelligence.py:737-763 | for any target a file is reported if and only if a chain explains it within the depth, and an import label carries the least such depth |
| ImportImpact.ImpactIsReachability | ouroboros/code_intelligence.py:737-763 | for a path nobody refers to by name: exactly the files with an import chain of length one to the depth, each labelled with its shortest |
| ImportImpact.ReferencesExactly | ouroboros/code_intelligence.py:756-757 | the references label is given exactly to referring files that import no start file |
| NavigationMap.CollectHeadings | ouroboros/context_layout.py:61-74 | the fence toggle finds exactly the heading lines with an even number of fence lines before them, in order |
| NavigationMap.ListedMeans | ouroboros/context_layout.py:64-74 | a line is listed exactly when it begins with a mark and the number of fence lines before it is even |
| NavigationMap.FenceMeans | ouroboros/context_layout.py:65-67 | a fence line is blanks followed by three backticks |
| NavigationMap.TitleMeans | ouroboros/context_layout.py:70-73 | level and title of a heading are its mark and the trimmed rest of its line |
| NavigationMap.RenderedEntryShows | ouroboros/context_layout.py:84-88 | an entry shows its title, indented at level three only, and ends with its first and last line in that order |
| NavigationMap.BuildEntries | ouroboros/context_layout.py:61-88 | a line is listed if and only if it starts with a level two or three mark and an even number of fence lines precede it; sections are adjacent up to the last line |
| NavigationMap.MapIsUnique | ouroboros/context_layout.py:61-88 | a document has exactly one such list of entries |
| NavigationMap.GenerateDocNavMap | ouroboros/context_layout.py:51-89 | the text returned is the rendering of that list |
| NavigationMap.SectionsCoverDocument | ouroboros/context_layout.py:84-88 | every line from the first listed heading on is in exactly one section, and a section's only listed line is its first |

## Left out

- Models, subprocesses, network, git and ripgrep: they appear as inputs (summary texts, reachability, match events, probe outcomes), any value of which is allowed.
- Time stamps, progress notes, receipts, event logs, usage and cost accounting: fields that no modelled branch reads.
- Structured summaries (the tool-call form, `ouroboros/context_compaction.py:262-285`) and JSON parsing: an answer is the map they produce.
- Identity of messages: the source finds a result by object identity, the model by index; multipart message content is text.
- The limits inside argument shortening (`ouroboros/context_compaction.py:142-181`): any function of name and arguments.
- Digits outside ASCII, which Python's `int` accepts in a header.
- SummaryProtocol.ParseRenderedBlocks: summaries that hold a header line of their own, which start a new block, and are excluded by its precondition.
- Failures to write that the source swallows: a checkpoint, a mailbox append, a lock that times out; writes are atomic and succeed.
- RootSynthesis.BodyStartsAtMostOnce: assumes that finalizers start only after startup recovery has ended, and that a crash ends the one process whose in-flight set it is; workers that fail one by one are not modelled, nor is the copy of a child drive's result over the canonical one (`ouroboros/headless.py:404-459`), which follows a reaped worker (`supervisor/task_reaper.py:318`) and may write the child's `pending_once` over a canonical `running`.
- RestartVerification.CampaignDoc.Reconcile: closing the promoted backlog item is only the clearing of its link.
- OwnerAdmission.DirectAgent.RouteDirect: mailbox deduplication by message id; each delivery is a new entry.
- OwnerAdmission.AdmissionIsSafe: its lock claim is about routers; the turn itself ends an acceptance fence while it holds the admission lock (`ouroboros/loop.py:685-734`), and so may hold both.
- Whether a chat is a project's, and whether a task belongs to a chat: a flag on each row.
- RestartDrain.Supervisor.HandleRestart: reads the clock once where the source reads it twice.
- ChatConsolidation.BlocksCoverExactly: a log that shrinks (rotation) restarts at zero; the pass models it, the coverage theorems are about logs that grow.
- The trigger that decides when consolidation runs, and quarantine of corrupt files.
- Reasoning-effort ceilings and rejected parameters kept in the evidence file; parsing limits out of provider texts.
- CodeSearch.Collect: a failing and a timed-out ripgrep are one error outcome.
- The order of directories in a walk: the walk is given as its pruned, sorted listing.
- ImportImpact.ImpactFiles: the result is a map, so its sorting by path is left out; callers, callees and relevance ranking would add easy members.
- ImportImpact.SymbolDefinitions: the order of the definitions found.
