# Velune: the parts that keep promises

Velune is a terminal assistant that puts a request before a council of language-model seats, assembles the context
they see, and keeps the transcript, the sessions and the workspaces of its user. This project models the parts of it
that carry an algorithm or a protocol, and proves what they promise for every input, every run and every interleaving.

| file | what it models |
|---|---|
| `TranscriptSpec.dfy`, `Transcript.dfy` | the capped transcript buffer of the full-screen UI, its stream block, scroll anchor and tool cards, as a refinement of an unbounded transcript |
| `BusProtocol.dfy`, `BusStops.dfy`, `EventBus.dfy` | the event bus as a state machine over its suspension points, starts and stops that overlap, and the class whose methods take those steps |
| `TraceTree.dfy`, `ExecutionTrace.dfy`, `TraceScopes.dfy` | the ledger of provider calls, the graph of phases, nested scopes, and both renderers |
| `CouncilLedger.dfy`, `Debate.dfy`, `CouncilRun.dfy` | a tiered council run: seats, contracts, the debate loop, and what the run writes into the ledger |
| `Consensus.dfy`, `Arbitrator.dfy` | measured confidence over exact reals, and the ruling made of it when judges are missing |
| `ContextTrim.dfy`, `Deduplicate.dfy`, `Snapshot.dfy`, `Assembler.dfy` | context assembly: deduplication, three budget trims, rendering, accounting |
| `SessionDisk.dfy`, `Sessions.dfy` | the session store one file-system step at a time, crashes included |
| `Workspaces.dfy` | the workspace registry as a move-to-front list |
| `Manifest.dfy` | the checksum manifest: printing and checking |
| `Matching.dfy`, `Palette.dfy` | fuzzy scores, recently used commands, the command palette |
| `StableSort.dfy`, `Text.dfy`, `Optional.dfy` | Python's `sorted`, its string operations, optional values |

Model replies, failures, timeouts, interleavings, clocks, minted ids and file contents are inputs, so a theorem that
quantifies over them speaks of every run. Code that works step by step is a class or a method with loops, proved
equal to a function; the laws are proved of the functions and of runs built from them.

Some claims the code invites are false of it. Each is shown false by a concrete input or a whole family, and the exact
condition under which it holds is proved:

- Re-rendering a stream longer than the 4000-line cap moves a scroll anchor inside it (`LongStreamDrifts`); when it
  does not is `RerenderAnchorDrift`.
- Events emitted while the bus is not running overtake queued ones (`OvertakingRun`); deliveries are in order exactly
  when that has never happened (`InOrderIffNeverOvertaken`).
- A start while a stop is under way, or a second stop while the first has two events to deliver, lets two events be in
  delivery at once (`OverlappingRun`, `SecondStopRun`). Those are exactly the steps that do (`OverlapIff`, `OrderlyIff`);
  without them there is one in delivery at most (`OnlyOneInFlight`) and a stop cuts short no other event
  (`StopOutcome`). What holds of every run is `StopDrains` and `CutByAStop`.
- Raising one judge's score can lower confidence (`HigherScoreCanLower`); it does not exactly when
  `HigherScoreRaisesIff` says so.
- Confidence after the cap can lie below the threshold without a human being asked (`BelowThresholdExample`); exactly
  when is `BelowThresholdWithoutReview`.
- The challenger's objection is dropped by the first revision that is heard, without asking the challenger
  (`ChallengerNotAskedAgain`); the exact condition for convergence is `ConvergedIff`.
- The assembly report's token total is the one before the emergency drop, and what is sent may still be over budget
  (`StillOverBudget`, and with a model's counter `StillOverBudgetCounted`); exactly when is `SentFitsIff`, and without
  a model `SentTokensFitIff`.
- A trim fits its allocation only if the allocation is not negative (`TrimsFit`).
- A query can score nothing although its letters are there, in candidates of more than 250 characters
  (`LongCandidate`); exactly when is `PositiveIff`.
- A recovery can overwrite a newer session by an older sidecar, left by a crash between a save and the removal of the
  sidecar (`OlderSidecarWins`); exactly when the session is kept is `RecoveryKeepsSessionIff`.

## Model

| member | source | states |
|---|---|---|
| TranscriptSpec.StepRefines | velune/cli/fullscreen.py:918-1046 | each append, stream opening, re-rendering, card, clear or scroll keeps the buffer a suffix of the ideal transcript, at most 4000 lines, with the stream start shifted by what is missing |
| TranscriptSpec.RunRefines | velune/cli/fullscreen.py:1202-1292 | the same over every run from an empty screen |
| TranscriptSpec.NothingMissingBelowCap | velune/cli/fullscreen.py:1274-1292 | nothing is missing while the ideal transcript has never exceeded the cap |
| TranscriptSpec.AnchorFollowsLine | velune/cli/fullscreen.py:1274-1292 | the pinned view stays on the same line, or on the oldest survivor once that line is evicted |
| TranscriptSpec.RerenderAnchorDrift | velune/cli/fullscreen.py:1202-1231 | exactly when a re-rendering leaves the anchor on the same line of the ideal transcript |
| TranscriptSpec.LongStreamDrifts | velune/cli/fullscreen.py:1287-1292 | on a stream longer than the cap an unchanged re-rendering moves the anchor by the whole overflow |
| TranscriptSpec.RerenderKeepsCards | velune/cli/fullscreen.py:1085-1109 | no stream update deletes a tool card's title line that the cap has not evicted |
| Transcript.Screen.AppendUser | velune/cli/fullscreen.py:918-937 | the user's turn is appended with its gap and first-line glyph, and trimmed |
| Transcript.Screen.AppendConsoleLine | velune/cli/fullscreen.py:939-952 | a console line, blank ones included, is appended as the code decides |
| Transcript.Screen.AppendSystem | velune/cli/fullscreen.py:954-958 | a system note is appended and trimmed |
| Transcript.Screen.AppendFragmentLines | velune/cli/fullscreen.py:1127-1134 | styled rows are appended and trimmed |
| Transcript.Screen.SetThinkingLine | velune/cli/fullscreen.py:1250-1264 | the stream block becomes the one thinking line |
| Transcript.Screen.BeginAssistant | velune/cli/fullscreen.py:960-1005 | a stream opens behind a gap, showing text or the thinking line |
| Transcript.Screen.RenderStreamMarkdown | velune/cli/fullscreen.py:1202-1231 | the stream block, and nothing before it, is replaced by the rendering |
| Transcript.Screen.UpdateAssistant | velune/cli/fullscreen.py:1007-1032 | an update re-renders the stream unless throttled; with none open it opens one first, behind the gap and with the thinking line, unless the text is blank |
| Transcript.Screen.FinishAssistant | velune/cli/fullscreen.py:1034-1046 | the stream is rendered a last time and closed |
| Transcript.Screen.AddToolCard | velune/cli/fullscreen.py:1085-1125 | an open stream is finished first, then the card's line is appended behind the gap its predecessor calls for and tracked by identity |
| Transcript.Screen.CancelLiveCards | velune/cli/fullscreen.py:1136-1155 | every live card is resolved, shows the warning bullet and leaves one note |
| Transcript.Screen.Clear | velune/cli/fullscreen.py:1233-1248 | lines, stream, anchor and texts are forgotten; live cards stay on the list |
| Transcript.Screen.ScrollUp | velune/cli/fullscreen.py:1169-1173 | the anchor moves up from the end or from where it is, never above the first line |
| Transcript.Screen.ScrollDown | velune/cli/fullscreen.py:1175-1184 | the anchor moves down or following resumes |
| Transcript.Screen.RenderConversation | velune/cli/fullscreen.py:1397-1432 | all lines in order and exactly one cursor marker, right before the pinned line |
| Transcript.ToolCard.Tick | velune/cli/fullscreen.py:250-253 | an unresolved card's line shows the next frame; a resolved one is left alone |
| Transcript.ToolCard.Resolve | velune/cli/fullscreen.py:255-278 | a card resolves once, leaves the live list and appends its summary |
| Transcript.ToolCard.Cancel | velune/cli/fullscreen.py:280-284 | cancelling resolves with the note; a resolved card is left alone |
| BusProtocol.EveryStateSound | velune/events.py:61-181 | every reachable state conserves events, is first in first out, and keeps the last 1000 events |
| BusProtocol.StepConserves | velune/events.py:61-181 | every event is in exactly one place; no worker holds two |
| BusProtocol.StepFifo | velune/events.py:78-82 | what was accepted is what was taken followed by what waits, oldest first |
| BusProtocol.StepHistory | velune/events.py:61-71 | the history is the newest min(1000, n) events |
| BusProtocol.InOrderIffNeverOvertaken | velune/events.py:78-80 | deliveries begin in emission order exactly when no event was emitted past a non-empty queue |
| BusStops.OvertakingRun | velune/events.py:78-80 | a run in which the third event is delivered before the second |
| BusProtocol.StopDrains | velune/events.py:133-150 | when a stop returns the queue is empty, the dispatch loop it cancelled is gone, and every event accepted was taken: delivered, cut short or in the hands of another worker |
| BusStops.OrderlyConservation | velune/events.py:133-181 | while no start or stop overlaps, accepted events are those delivered or cut short, at most one in flight, and the queue |
| BusStops.OnlyOneInFlight | velune/events.py:152-162 | while no start or stop overlaps, no two events are in delivery at once |
| BusStops.OverlapIff | velune/events.py:125-162 | from any state such a run reaches, a step opens the way to two events in delivery, by emitters and workers alone, exactly when it starts the bus during a stop or stops it while another stop has two events to deliver |
| BusStops.OrderlyIff | velune/events.py:125-162 | in every run: no step ever overlaps exactly when at no moment emitters and workers alone could have brought two events into delivery |
| BusProtocol.StepCuts | velune/events.py:133-150 | events cut short and tasks cancelled never outnumber the stops |
| BusProtocol.CutByAStop | velune/events.py:133-162 | in every run, an event cut short was in delivery by the current dispatch loop when some stop began |
| BusStops.StopOutcome | velune/events.py:133-162 | while no start or stop overlaps, a stop leaves the queue empty and every accepted event delivered or cut short, but for one another stop is still flushing; newly cut is only the one in delivery when it began |
| BusStops.OverlappingRun | velune/events.py:125-150 | a run in which a start during a stop puts two events in delivery at once |
| BusStops.SecondStopRun | velune/events.py:133-150 | a run in which a second stop with two events queued puts both in delivery at once |
| BusProtocol.StepReplies | velune/events.py:100-114 | a waiter is answered by the first event emitted since that names it |
| EventBus.CognitiveBus.Subscribe | velune/events.py:84-90 | the handler is added under its pattern |
| EventBus.CognitiveBus.Unsubscribe | velune/events.py:92-98 | the handler is removed, and a pattern left empty with it |
| EventBus.CognitiveBus.FindMatching | velune/events.py:190-197 | exactly the handlers whose pattern matches |
| EventBus.CognitiveBus.Emit | velune/events.py:61-82 | the protocol step of an emission |
| EventBus.CognitiveBus.EmitAndWait | velune/events.py:100-114 | a future is registered, then the event is emitted |
| EventBus.CognitiveBus.Start | velune/events.py:125-131 | the protocol step of a start |
| EventBus.CognitiveBus.Take | velune/events.py:152-162 | the oldest queued event is taken for delivery |
| EventBus.CognitiveBus.StopBegin | velune/events.py:133-139 | the bus stops accepting and cancels its dispatch loop |
| EventBus.CognitiveBus.FlushNext | velune/events.py:141-150 | the flush takes the oldest queued event or ends |
| TraceTree.VisitedOnce | velune/cognition/execution_trace.py:237-279 | the walk from the root's children meets every node but the root exactly once |
| ExecutionTrace.ExplainedIff | velune/cognition/execution_trace.py:221-235 | nothing is unexplained exactly when no PRIMARY call follows another call of its seat |
| ExecutionTrace.ReportedIff | velune/cognition/execution_trace.py:221-235 | a call is reported exactly when it is such a repeat |
| ExecutionTrace.EachCallShownOnce | velune/cognition/execution_trace.py:237-279 | a rendering shows each call of a phase exactly once, and no call without one |
| ExecutionTrace.VisitsInRange | velune/cognition/execution_trace.py:237-279 | the rendered visits are nodes, each once, never the root |
| ExecutionTrace.RequestTrace.OpenNode | velune/cognition/execution_trace.py:167-175 | a node is numbered by its place and is a child of the given parent, the active phase or the root |
| ExecutionTrace.RequestTrace.OpenCall | velune/cognition/execution_trace.py:177-211 | a call carries the reason and phase in force and is listed under that phase |
| ExecutionTrace.RequestTrace.UnexplainedCalls | velune/cognition/execution_trace.py:221-235 | the loop returns the unexplained calls in ledger order |
| ExecutionTrace.RequestTrace.Render | velune/cognition/execution_trace.py:237-279 | rows of the live rendering and its footer |
| ExecutionTrace.RequestTrace.ToDict | velune/cognition/execution_trace.py:281-324 | the dictionary carries nodes, calls and the numbers of the unexplained calls |
| ExecutionTrace.Walk | velune/cognition/execution_trace.py:253-270 | the recursive walk yields the rows of a subtree |
| ExecutionTrace.RenderTraceDict | velune/cognition/execution_trace.py:327-376 | rendering the dictionary shows the same rows in the same order |
| TraceScopes.Run | velune/cognition/execution_trace.py:405-453 | whatever code inside does or raises, the scope hands back the context it found and attributes calls to the innermost phase and reason |
| TraceScopes.RunNode | velune/cognition/execution_trace.py:405-426 | a phase is closed as failed exactly when its body raised |
| CouncilLedger.RoundClean | velune/cognition/orchestrator.py:1297-1306 | a round whose seats have not called before adds no unexplained repeat under any interleaving |
| CouncilLedger.RoundCounts | velune/cognition/council/contracts.py:247-250 | a round adds at most one deliberation per seat, no sample and no revision |
| Debate.RunDebate | velune/cognition/orchestrator.py:1478-1685 | the loop with its many exits ends in the state the function gives |
| Debate.ToJudgeAgain | velune/cognition/orchestrator.py:1561-1609 | exactly the seats whose usable report objects are asked again |
| Debate.Hear | velune/cognition/orchestrator.py:1611-1648 | fresh reports replace old ones, failed re-judgements abstain, delight needs a pass above 0.8 from all |
| Debate.DebateOutcome | velune/cognition/orchestrator.py:1478-1685 | converged exactly when no objection is left; who could not judge again prevents it |
| Debate.ConvergedIff | velune/cognition/orchestrator.py:1410-1685 | the exact condition for convergence over a whole debate, what it leaves alone, and its bounds |
| Debate.DebateProposal | velune/cognition/orchestrator.py:1519-1685 | the proposal is the one that entered if the debate was cut off, else the latest revision that came back |
| Debate.ProposalSource | velune/cognition/orchestrator.py:1478-1685 | the proposal is never the leavings of a failed call |
| Debate.DebateStands | velune/cognition/orchestrator.py:1563-1575 | passes and abstentions stand to the end |
| Debate.DebateClean | velune/cognition/orchestrator.py:1519-1585 | no call of a debate is an unexplained repeat |
| Debate.DebateCost | velune/cognition/council/contracts.py:120-130 | a debate costs at most one Coder call and one call per judge in each turn |
| Debate.ChallengerNotAskedAgain | velune/cognition/orchestrator.py:1656-1658 | a council that converges with a challenge of severity 0.9 outstanding |
| CouncilRun.RunExplained | velune/cognition/orchestrator.py:223-251 | no run makes an unexplained repeat, for any contract, sample count, failures and debate |
| CouncilRun.ContractHonoured | velune/cognition/council/contracts.py:232-291 | at any moment of a run nothing can be wrong but the absence of a required seat |
| CouncilRun.TierHonoured | velune/cognition/council/contracts.py:132-207 | so for every tier, critics on or off |
| CouncilRun.RunBudget | velune/cognition/council/contracts.py:115-130 | calls and samples stay within the contract |
| CouncilRun.RunProposal | velune/cognition/orchestrator.py:1194-1222 | what goes to arbitration is a usable sample or a revision that came back |
| Consensus.MeasureAgreement | velune/cognition/consensus.py:98-146 | the signals of the usable verdicts, abstentions unseen |
| Consensus.VarianceBound | velune/cognition/consensus.py:131-132 | scores in [0,1] have a variance of at most mean * (1 - mean), hence 1/4 |
| Consensus.NothingIsClamped | velune/cognition/consensus.py:59-78 | agreement, logic score and confidence lie in [0,1] without any clamp acting |
| Consensus.ConfidenceCeiling | velune/cognition/consensus.py:149-169 | confidence is at most 0.75 plus a quarter of the accuracy, reached only by unanimous passes at score 1 without severity |
| Consensus.FailNeverRaises | velune/cognition/consensus.py:133-135 | turning a pass into a fail lowers confidence |
| Consensus.SeverityNeverRaises | velune/cognition/consensus.py:123-127 | raising the severity lowers confidence |
| Consensus.HigherScoreRaisesIff | velune/cognition/consensus.py:59-78 | exactly when raising one score does not lower confidence |
| Consensus.HigherScoreCanLower | velune/cognition/consensus.py:59-78 | two judges for whom it lowers confidence |
| Consensus.OrderIrrelevant | velune/cognition/consensus.py:98-146 | reordering the verdicts changes nothing |
| Consensus.MedoidIndex | velune/cognition/consensus.py:172-193 | the first candidate most similar to all others |
| Consensus.SelectWinner | velune/cognition/consensus.py:196-209 | the first of the highest scores |
| Arbitrator.Arbitrate | velune/cognition/arbitrator.py:71-276 | the ruling: review, confidence, claims, flags, instructions |
| Arbitrator.NoReviewMeans | velune/cognition/arbitrator.py:227-248 | exactly when no human is asked |
| Arbitrator.CapNeverRises | velune/cognition/arbitrator.py:238-248 | more missing seats never raise the cap |
| Arbitrator.BelowThresholdWithoutReview | velune/cognition/arbitrator.py:227-248 | exactly when the capped confidence is below the threshold and nobody is asked |
| Arbitrator.BelowThresholdExample | velune/cognition/arbitrator.py:227-248 | a unanimous review with one judge missing ends at 0.60 under a threshold of 0.75, rounded to thousandths |
| Arbitrator.MissingIsNoApproval | velune/cognition/arbitrator.py:101-121 | a missing judge costs confidence, and a missing reviewer or majority the automatic pass |
| Arbitrator.AbstainersAreSilent | velune/cognition/arbitrator.py:110-121 | nothing an abstaining judge wrote reaches the ruling |
| Deduplicate.DeduplicateRetrieved | velune/context/assembler.py:162-186 | the loop keeps one copy per text and counts the rest |
| Deduplicate.DeduplicatedIs | velune/context/assembler.py:162-186 | survivors differ in text, stand in first-seen order, cover every text, and are the first of the best copies |
| Deduplicate.Idempotent | velune/context/assembler.py:162-186 | deduplicating again changes nothing |
| Text.SameNormalisedIff | velune/context/assembler.py:177 | normalising keeps exactly the word sequence |
| ContextTrim.TrimRetrievedContext | velune/context/assembler.py:188-215 | the loop keeps the greedy choice from the trust ranking and reports exactly the tokens removed |
| ContextTrim.TrimWorkingMemoryTurns | velune/context/assembler.py:217-241 | the loop keeps the greedy choice from the newest turn back, in original order |
| ContextTrim.TrustRanking | velune/context/assembler.py:202-203 | chunks are chosen from most to least trusted, equals as they came |
| ContextTrim.TrimsFit | velune/context/assembler.py:188-241 | a trim fits exactly when the allocation is not negative |
| ContextTrim.TrimsBest | velune/context/assembler.py:203-235 | nothing dropped could be added back, and any other fitting choice first differs by giving up a kept chunk |
| ContextTrim.TrimsKeep | velune/context/assembler.py:188-241 | nothing is invented; working memory keeps its order |
| Snapshot.TrimRepositorySnapshot | velune/context/assembler.py:243-325 | the whole trim, loops included |
| Snapshot.SnapshotFits | velune/context/assembler.py:243-290 | when nothing is trimmed, when chunks are dropped, when text is cut, and what then holds |
| Snapshot.RankedDescends | velune/context/assembler.py:268-285 | droppable chunks are offered from the highest priority down |
| Snapshot.CutIff | velune/context/assembler.py:268-290 | text is cut exactly when the must-keep chunks alone exceed 2000 tokens |
| Snapshot.OnlyMustKeepIsCut | velune/context/assembler.py:275-287 | then nothing else is left to cut |
| Snapshot.TruncatedBound | velune/context/assembler.py:290-318 | at most 8000 characters and one marker, at most 8000 characters of the chunks' own text |
| Assembler.Assemble | velune/context/assembler.py:47-160 | text and report of an assembly, loops included |
| Assembler.Conservation | velune/context/assembler.py:147-158 | received chunks are those sent, dropped and collapsed, none negative, the emergency drop included |
| Assembler.CanonicalOrder | velune/context/assembler.py:84-125 | sections stand in canonical order, exactly those of which something was kept |
| Assembler.NeverTrimmed | velune/context/assembler.py:41-116 | system prompts, drift warnings and current prompts are in the text word for word and in order |
| Assembler.SentFitsIff | velune/context/assembler.py:127-158 | however tokens are counted: the report shows the size before the emergency drop, and what is sent fits exactly when everything kept does or all but the retrieved context does |
| Assembler.SentTokensFitIff | velune/context/assembler.py:127-158 | without a model, what is sent fits exactly when all but the retrieved context does, and the report's total exceeds it by the tokens dropped |
| Assembler.StillOverBudget | velune/context/assembler.py:133-145 | without a model, an over-long untrimmed section is sent over budget |
| Assembler.StillOverBudgetCounted | velune/context/assembler.py:133-145 | with any counter that never shrinks as text grows, one over-long untrimmed chunk is sent over budget |
| Assembler.LongPromptSent | velune/context/token_counter.py:177-187 | so with the word-counting heuristic |
| SessionDisk.RunReadable | velune/cli/sessions.py:154-165 | no session and no sidecar is ever torn, wherever operations crash |
| SessionDisk.RunSafe | velune/cli/sessions.py:379-479 | the prevailing conversation of an id, the sidecar's while there is one, survives every run of operations not meant to replace it, each cut short anywhere |
| SessionDisk.SaveSafeIff | velune/cli/sessions.py:119-165 | a saved conversation prevails exactly when no sidecar with another one is left |
| SessionDisk.CleanExit | velune/cli/repl.py:1026-1042 | a save followed by the removal of the sidecar leaves the saved conversation; a save cut short leaves it or what prevailed before |
| SessionDisk.RecoveryLeavesPrevailing | velune/cli/sessions.py:454-479 | a completed recovery leaves the prevailing conversation in the session |
| SessionDisk.RecoveryKeepsSessionIff | velune/cli/sessions.py:454-479 | a completed recovery keeps the conversation of its session exactly when the sidecar is unreadable or holds the same one |
| SessionDisk.OlderSidecarWins | velune/cli/repl.py:1006-1042 | an autosave, a later save and a recovery: the session ends with the older conversation and the newer is nowhere |
| SessionDisk.AutosaveAtomic | velune/cli/sessions.py:379-419 | an autosave leaves the old sidecar or the whole new one |
| SessionDisk.RecoverKeeps | velune/cli/sessions.py:454-479 | what a completed recovery keeps, preserves and drops |
| SessionDisk.RecoverAgain | velune/cli/sessions.py:454-479 | a recovery that crashed anywhere can be run again with the same outcome but for times |
| SessionDisk.ImportReplacesIff | velune/cli/sessions.py:309-351 | an import replaces a readable session exactly when the asked and the minted id are both taken |
| SessionDisk.ImportNeverOverwrites | velune/cli/sessions.py:327-337 | with an unused minted id every readable session is untouched |
| SessionDisk.EditsTouchMeta | velune/cli/sessions.py:269-307 | renaming and archiving change one field of the description |
| SessionDisk.SaveKeepsBirth | velune/cli/sessions.py:136-143 | saving over a session keeps its creation time and its archived flag |
| Sessions.SessionStore.Save | velune/cli/sessions.py:119-165 | the steps of a save and the description it returns |
| Sessions.SessionStore.Autosave | velune/cli/sessions.py:379-419 | the steps of an autosave |
| Sessions.SessionStore.RecoverAutosave | velune/cli/sessions.py:454-479 | the steps of a recovery |
| Sessions.SessionStore.Rename | velune/cli/sessions.py:287-307 | empty titles are refused, missing sessions reported, else only the title changes |
| Sessions.SessionStore.SetArchived | velune/cli/sessions.py:269-285 | the steps of archiving |
| Sessions.SessionStore.ImportSession | velune/cli/sessions.py:309-351 | the steps of an import; nothing without a conversation |
| Sessions.SessionStore.DiscardAutosave | velune/cli/sessions.py:481-487 | the sidecar goes if it is there |
| Sessions.SessionStore.Delete | velune/cli/sessions.py:262-267 | the file goes if it is there |
| Workspaces.RunRefines | velune/cli/workspaces.py:126-194 | after any run the listing is the most-recently-used order, whatever the clock; numbers that did not clash never do |
| Workspaces.StepRefines | velune/cli/workspaces.py:138-195 | each use moves its workspace to the front, each removal takes it out |
| Workspaces.ListedIs | velune/cli/workspaces.py:177-186 | living entries by number, unnumbered ones last and by time |
| Workspaces.ReloadSame | velune/cli/workspaces.py:107-124 | closing and reopening changes nothing |
| Workspaces.LoadedValid | velune/cli/workspaces.py:107-117 | whatever the file lists, what is read has one entry a key, and numbers that differ in the file still do |
| Workspaces.WorkspaceRegistry.Register | velune/cli/workspaces.py:138-155 | the entry is put under its key with the next number and saved |
| Workspaces.WorkspaceRegistry.Touch | velune/cli/workspaces.py:157-165 | a known entry gets time and number, an unknown one is registered |
| Workspaces.WorkspaceRegistry.Remove | velune/cli/workspaces.py:188-194 | the first entry of that name goes |
| Workspaces.WorkspaceRegistry.List | velune/cli/workspaces.py:177-186 | the loop lists the living entries in order |
| Manifest.RoundTripIff | scripts/release_artifacts.py:132-179 | checking a directory against its own manifest finds nothing exactly when there is a file and no name holds a slash, a backslash or a line break |
| Manifest.CheckIff | scripts/release_artifacts.py:139-179 | no problem exactly when the manifest is non-empty, well formed, without repeats, and matches the directory both ways |
| Manifest.CheckChecksums | scripts/release_artifacts.py:139-179 | the problems found, loops included |
| Manifest.ReadLines | scripts/release_artifacts.py:143-163 | first entries, repeated names and line problems of a manifest |
| Manifest.FilesInNameOrder | scripts/release_artifacts.py:48-50 | manifests list their files in name order |
| Manifest.FilesDistinct | scripts/release_artifacts.py:48-50 | the listed files, each once |
| Matching.PositiveIff | velune/cli/autocomplete.py:102-130 | exactly when a query scores |
| Matching.PositiveUpTo250 | velune/cli/autocomplete.py:102-130 | up to 250 characters exactly the subsequences score |
| Matching.ScanIff | velune/cli/autocomplete.py:118-126 | the left-to-right scan finds a placement exactly when there is one |
| Matching.TiersSeparate | velune/cli/autocomplete.py:102-130 | up to 150 characters a better kind of match always scores higher |
| Matching.LongCandidate | velune/cli/autocomplete.py:115-116 | a substring at position 250 scores nothing |
| Matching.FuzzyScore | velune/cli/autocomplete.py:102-130 | the score, the scanning loop included |
| Matching.RecentIsHistory | velune/cli/autocomplete.py:172-181 | what is remembered is the start of the whole most-recently-used history |
| Matching.RecentCommands.RecordUse | velune/cli/autocomplete.py:172-176 | the deque after a use |
| Palette.SearchFinds | velune/cli/command_palette.py:226-244 | the rows are exactly the candidates that score |
| Palette.PrefixFirst | velune/cli/command_palette.py:227-236 | when a name starts with the query only such commands are listed |
| Palette.SearchOrder | velune/cli/command_palette.py:246-260 | groups are contiguous and descend by best score, rows inside them too |
| Palette.FirstIsBest | velune/cli/command_palette.py:246-260 | the first row is the strongest match |
| Palette.BrowseOnce | velune/cli/command_palette.py:195-225 | browsing lists every visible command exactly once |
| Palette.BrowseAfterUses | velune/cli/command_palette.py:173-179 | so with the remembered commands as the recent ones |
| Palette.CommandPaletteModel.Matches | velune/cli/command_palette.py:189-266 | rows, and a selection that is in range and starts over with a new query |
| Palette.CommandPaletteModel.Move | velune/cli/command_palette.py:268-271 | the selection wraps round and stays in range |
| Palette.CommandPaletteModel.Selected | velune/cli/command_palette.py:273-277 | the command of the selected row, if there is any row |
| Palette.WindowShowsSelection | velune/cli/command_palette.py:329-333 | the selected row is drawn and the window is full when it can be |
| StableSort.SortedIs | velune/context/assembler.py:203 | a stable sort is the one ordered arrangement that keeps ties as they were |

## Left out

- Markdown rendering, wrapping widths, styles, key bindings and themes: the rendered rows are arguments.
- The timers behind the thinking animation and card spinners: each tick is a call.
- Pattern matching of event types, event payloads, replay and handler exceptions: a match is a parameter, delivery is a step.
- Cancellation of a handler that an emission runs directly: only the dispatch loop is cancelled in the model.
- Cancellation of the caller that awaits `stop`: `stop` swallows it (velune/events.py:136-139) and goes on to the flush.
- Resetting the active phase when a trace starts: each request is given one trace, as `trace_request` assumes.
- ExecutionTrace.RenderTraceDict: the source writes the same walk out for objects and for the dictionary; the model shares it with `Render`, and its payload holds the records themselves.
- Times, durations, metadata and token usage of calls and nodes; node ids are numbers, not strings with a prefix.
- Prompts, styles, firewalls, model selection and cost gates of a council run; seats' providers and models in its ledger.
- Errors that abort a council run (an injection found in a prompt, a planner failing otherwise than by timeout): the run ends without a verdict.
- The planner, sampling, review and synthesis phases around the debate loop are composed as functions of their inputs; no state is shared between them but the ledger, so no update in place is lost.
- Lineage logging, analytics and the text of the synthesis.
- `_pairwise_similarity`: it feeds no confidence and no ruling.
- Reports given as dictionaries instead of messages: both are read alike.
- Float rounding: confidence, density and the heuristic's 1.35 are exact; `round(x, 3)` is a parameter where it matters.
- Token counting by a model, SHA-256, path resolution, case folding and title derivation: uninterpreted functions.
- Failures of the disk other than a crash, sessions in the legacy flat format, listing and searching sessions.
- Session ids that spell a path: `Session(".autosave/x")` and `Guard("x")` are one file to the source (velune/cli/sessions.py:375-416) and two to the model.
- `switch_workspace`, project type detection, and unreadable registry files.
- `verify_dist`: archive formats.
- Palette.BrowseOnce: commands have different names, as the command registry's dictionary provides; two of one name would share a row among favourites and recents.
- Rendering of the palette, favourites on disk, completion menus and their scores' recency boost.
