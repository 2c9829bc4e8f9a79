# Verified model of the rousseau agent runtime

This project models the core of the agent runtime in Dafny and proves what it
promises over whole runs, for every provider, approver, hook, tool, thread
schedule and map iteration order:

- **Canonical input** (`Json`, `Folding`, `KeyCheck`, `Canonical`): the token
  stack machine that rejects repeated keys, the fold-orbit minimum, and the
  normal form every consumer of a tool input sees.
- **Pattern approver** (`Approver`): rule matching through a lookup that ranges
  over a map in arbitrary order.
- **Tool phase and turn loop** (`Conversation`, `ToolPhase`, `TurnLoop`,
  `AgentLoop`, `External`): one user turn with all its exits. The loop is a
  specification over arbitrary oracles (`World`; the n-th consultation is
  answered for clock value n), and `AgentLoop` is the program that runs on a
  session object whose messages share their tool calls with the tool phase;
  it is proved equal to the specification.
- **Turn control** (`TurnMachine`, `TurnObjects`, `Protocol`): each mutex
  section is one function, the objects are proved to perform exactly these
  functions, and `Protocol` interleaves any number of turns, their goroutines,
  inbound threads, `TryBegin` and `End`.
- **Session bookkeeping** (`Decimal`, `Compressor`, `Ledger`): the compressor's
  hysteresis and the ledger rebuilt from the message list.
- **Across the cores** (`PolicySafety`, `CompressedTurn`, `LedgerTruth`,
  `LoopSteps`): what runs in a turn is what the policy allows; a turn with the real
  compressor in front; the ledger compared with what the turn executed; every
  specified turn as a reachable run of the interleaved system.
- **Smaller machines** (`Scheduler`, `Identity`, `Output`, `Recall`): cron
  reconciliation, identity loans, output cutting, query quoting.

`Base` and `Text` hold an option type, a fact about sequences and string trimming.

## What the proofs found

Each of these fails a property one might expect; the condition under which the
property holds is proved for all inputs beside it.

- A pause can cost two further actions, not one: text steered in during the last
  model call makes the supervisor start a follow-up run, and that run compresses
  before it reaches a gate (`PauseCanCostTwo`). It costs two exactly when what
  was done since is that call, a follow-up and its compression
  (`PauseCostsTwoIff`).
- An accepted text can stay pending for ever (`EndLeavesPending`). All accepted
  texts are delivered or dropped exactly when none was accepted after the last
  drain (`AllHandledIff`); across the system the session misses exactly those
  accepted after the goroutine's last drain, whatever made it leave (`LostIff`).
- A finished turn can still have a live context: exactly when `DrainOrFinish`
  found nothing to drain in a turn that was not cancelled, and no cancel call,
  caller or `End` has ended the context (`DoneWithLiveContextIff`).
- The key check alone does not fail on all invalid JSON: it lets through exactly
  the streams that can be completed to the text of a value without repeated keys
  (`CheckAcceptsIff`), and the decoder after it refuses exactly those that are
  not complete (`PassesCheckOnlyIff`).
- A compression cut between calls and their results is never repaired by the
  turn that follows: a well-formed session of four messages ends broken on every
  exit (`CutFallsInExchange`, `TurnStaysBroken`), and a turn ends well-formed
  exactly when no pass cut there (`TurnPairedIff`).
- A steered text counts as a message of the sender, so the ledger restarts there
  and can miss side effects of the same turn (`SteeringHidesARun`); it covers the
  turn exactly when nothing ran before text was last steered in
  (`LedgerCoversTurnIff`).
- Off UTF-8 the cut of tool output can lie far below the limit
  (`StrayBytesVanish`): it is within three bytes exactly when one of the four bytes there can start a character
  (`CutNearIff`), and everything goes exactly when none after the first can
  (`CutVanishesIff`).

Three more facts concern inputs that the repository itself never produces.

- `itoa` of the least 64-bit number is a bare sign (`Itoa`); its one caller passes
  the length of a slice.
- A leave closure called twice ends another turn's loan exactly when the entry it
  captured is still the one its session refers to (`RepeatHarmlessIff`); its one
  caller defers the call once, which is why the loan theorems assume one call each.
- A cron row edited while its job stays enabled would keep firing as it was
  scheduled (`EditNoticedIff`); the store never edits a row, and then every live
  entry fires its row as last listed (`FiresCurrentRows`).

## Model

| member | source | states |
|---|---|---|
| Folding.FoldRuneIsLeast | internal/agent/canonical.go:142-147 | the orbit loop ends and yields the least member of the rune's fold orbit, for any successor with finite cycles |
| Folding.FoldRuneClass | internal/agent/canonical.go:135-147 | two runes fold to the same one exactly when they share an orbit |
| Folding.FoldKeyClass | internal/agent/canonical.go:135-150 | foldKey(a) equals foldKey(b) exactly when a and b are equal under simple folding |
| Folding.EqualFoldIsEquivalence | internal/agent/approver.go:169 | equality under folding is reflexive, symmetric and transitive |
| Folding.FoldKeyLoop | internal/agent/canonical.go:138-151 | the nested loop returns the folded key |
| Json.ParseValueSound | internal/agent/canonical.go:38-43 | a decoded value is one whose token stream, followed by what is left, is the input |
| Json.ParseTokens | internal/agent/canonical.go:38-43 | decoding the token stream of any value gives that value back and leaves the rest |
| KeyCheck.FeedValue | internal/agent/canonical.go:84-117 | on the tokens of any value, from any stack that awaits one: accepted exactly when no object inside repeats a key, and then the stack is the one before with only the enclosing expect-key flag advanced |
| KeyCheck.FeedItems | internal/agent/canonical.go:84-117 | the same for the items of an open array, which is popped |
| KeyCheck.FeedMembers | internal/agent/canonical.go:98-133 | the same for the members of an open object with the keys seen so far |
| KeyCheck.CheckDecidesUnique | internal/agent/canonical.go:60-81 | on a whole value the check accepts exactly when no object at any depth repeats a key under folding |
| KeyCheck.EndsOutsideIff | internal/agent/canonical.go:62-81 | on any token stream the machine ends outside every container exactly on the empty stream and the texts of one value that repeats no key |
| KeyCheck.CheckAcceptsIff | internal/agent/canonical.go:60-81 | the check lets through exactly the streams that begin the text of some value that repeats no key |
| KeyCheck.KeyScope.constructor | internal/agent/canonical.go:110-112 | a new scope has seen no key and expects one only in an object |
| KeyCheck.KeyScope.AddKey | internal/agent/canonical.go:121-133 | a key is refused exactly when its fold was seen; otherwise it is recorded and a value is expected |
| KeyCheck.StepKeysInPlace | internal/agent/canonical.go:84-117 | one token changes only the top scope and gives the machine's next stack |
| KeyCheck.CheckUniqueKeys | internal/agent/canonical.go:62-81 | the loop over objects accepts exactly the streams that begin the text of a value with unique keys, and so decides uniqueness on whole values |
| Canonical.SortFacts | internal/agent/canonical.go:45-50 | re-encoding sorts every object, keeps keys unique and keeps the meaning |
| Canonical.SortedDetermined | internal/agent/canonical.go:45-50 | sorted values with one meaning are identical |
| Canonical.CanonicalOfValue | internal/agent/canonical.go:31-51 | the text of a value gives the sorted text when keys are unique, an error otherwise |
| Canonical.CanonicalAccepts | internal/agent/canonical.go:19-44 | accepted are exactly blank input and texts of one value without repeated keys |
| Canonical.CanonicalKeepsMeaning | internal/agent/canonical.go:19-26 | the output denotes the same value as the input; blank input is the empty object |
| Canonical.CanonicalIdempotent | internal/agent/canonical.go:31-51 | canonicalising twice changes nothing |
| Canonical.CanonicalNormalForm | internal/agent/canonical.go:19-30 | two accepted texts have one output exactly when they denote one value up to member order |
| Canonical.PassesCheckOnlyIff | internal/agent/canonical.go:35-43 | the key check passes and the decoder refuses exactly a text of a value with unique keys, begun and cut short |
| Canonical.TruncatedPassesCheckOnly | internal/agent/canonical.go:67-70 | such an input: an unfinished object passes the key check at end of input, and CanonicalInput still refuses it |
| Approver.FoldEqual | internal/agent/approver.go:169 | the comparison by folded keys is equality under folding |
| Approver.LookupExact | internal/agent/approver.go:160-175 | when no two keys fold together, every iteration order finds exactly the text of the one matching key |
| Approver.OrderFreeIff | internal/agent/approver.go:168-173 | the lookup is independent of map order exactly when keys that fold together hold the same text |
| Approver.CanonicalObjectDistinct | internal/agent/approver.go:160-162 | the top-level object of a canonical input has no two keys that fold together |
| Approver.ApproveIsAllows | internal/agent/approver.go:203-226 | whatever orders the lookups use, allow is returned exactly when lists compile, the input is canonical, no deny rule applies, and an allow rule or the default allows |
| Approver.ApproveOnCanonical | internal/agent/approver.go:213-217 | the verdict on an input and on its canonical form are the same |
| Approver.PatternInput.constructor | internal/agent/approver.go:154-158 | a new input holds the canonical bytes and is not yet decoded |
| Approver.PatternInput.Field | internal/agent/approver.go:163-175 | ranging over the map in any order finds exactly the text held under the name |
| Approver.PatternInput.AnyRuleMatches | internal/agent/approver.go:228-235 | some rule matches exactly when some rule applies |
| Approver.PatternApprover.constructor | internal/agent/approver.go:101-119 | holds the given policy, and nothing is compiled yet |
| Approver.PatternApprover.Approve | internal/agent/approver.go:203-226 | the compile-once object decides as the order-free policy does, on every call |
| Conversation.AppendExchange | internal/agent/tools_run.go:25-30 | appending calls and their answers keeps a session well-formed |
| Conversation.DanglingCalls | internal/agent/agent.go:518-522 | a session that ends on calls is not well-formed |
| Conversation.CutKeepsPairingIff | internal/agent/compressor.go:88-104 | replacing a prefix by a plain message keeps pairing exactly when the first kept message answers nothing |
| ToolPhase.CallGuarded | internal/agent/tools_run.go:107-141 | for one call: one result with its id; an execution is last, runs the input left in the call, canonical and approved; a call not run has an error result |
| ToolPhase.ModifyOk | internal/agent/tools_run.go:193-221 | an input rewritten by a hook runs only canonical and approved again |
| ToolPhase.PhaseAnswers | internal/agent/tools_run.go:31-45 | exactly one result per call, same ids and order, on every path, cancelled or not |
| ToolPhase.StoredIsExecuted | internal/agent/tools_run.go:107-141 | the executions are, in order, the calls that ran with the very inputs stored in them, and how each came out |
| ToolPhase.PhaseGuarded | internal/agent/tools_run.go:31-45 | every execution of a phase follows, within its call, an approval of the same tool and canonical input |
| External.ExternalIsStricter | internal/agent/external.go:22-72 | with steady collaborators the external path allows exactly when the native path runs that unmodified input and no hook asks for a rewrite |
| TurnLoop.RunPhase | internal/agent/agent.go:534 | a phase gives one result per call of the message, same ids and order, in error exactly when the call did not run or its tool failed |
| TurnLoop.SessionShowsWhatRan | internal/agent/agent.go:518-534 | the stored message shows the calls with the inputs that ran |
| TurnLoop.AfterPhasePaired | internal/agent/agent.go:518-541 | message and results appended after a phase, cancelled or not, keep the session well-formed |
| TurnLoop.RoundPaired | internal/agent/agent.go:450-545 | one iteration keeps the session well-formed at every model call and checkpoint, and at its end unless it ends on unreported calls |
| TurnLoop.IteratePaired | internal/agent/agent.go:450-547 | the same for the loop with any budget, exactly |
| TurnLoop.NeverDangling | internal/agent/agent.go:520-522 | a model that reports tool use never ends a turn on unanswered calls |
| TurnLoop.TurnPaired | internal/agent/agent.go:433-548 | from a well-formed session every exit of a turn leaves it well-formed, for providers that report tool use |
| TurnLoop.TurnGuarded | internal/agent/agent.go:433-548 | in every turn each execution follows an approval of the same tool and the same canonical input |
| TurnLoop.TurnSteered | internal/agent/agent.go:454-476 | in every turn what is drained is in the session, one user message each, in order and last, at the model call right after; nothing is drained that no call sees |
| TurnLoop.DeliveredKeepsBlocks | internal/agent/agent.go:562-588 | the delivered message keeps the model's blocks and gets one more, the marker, exactly on a stop at the output limit |
| TurnLoop.TurnStoresReply | internal/agent/agent.go:518-522 | when a turn finishes, the session ends with the model's own message |
| TurnLoop.TurnKeepsCalled | internal/agent/agent.go:450-547 | every message list the model was shown is a prefix of the session at the end |
| AgentLoop.ExecuteTool | internal/agent/tools_run.go:245-284 | runs the input held by the shared call and reports output or error |
| AgentLoop.ApplyHookModify | internal/agent/tools_run.go:193-221 | overwrites the call's input in place exactly when the rewrite is canonical, different and approved |
| AgentLoop.PreToolHook | internal/agent/tools_run.go:158-184 | allow, deny and modify verdicts act as the specification says |
| AgentLoop.RunOneTool | internal/agent/tools_run.go:107-141 | the in-place run gives the specified outcome and leaves the specified input in the call |
| AgentLoop.RunTools | internal/agent/tools_run.go:31-45 | the loop over shared calls gives the specified phase and leaves its inputs in the calls |
| AgentLoop.Session.Append | internal/agent/agent.go:518 | one message is added and the others are as before |
| AgentLoop.AppendTexts | internal/agent/agent.go:457-459 | each drained text becomes one user message, in order |
| AgentLoop.AppendModelMessage | internal/agent/agent.go:518 | the model's message is appended with call objects of its own |
| AgentLoop.RunCalls | internal/agent/agent.go:518-541 | after the phase the session holds the message with the inputs that ran, then the results |
| AgentLoop.RunRound | internal/agent/agent.go:450-545 | one pass of the loop body on the session object is one specified iteration |
| AgentLoop.RunLoop | internal/agent/agent.go:450-547 | the loop on the session object is the specified loop |
| AgentLoop.TurnWithStats | internal/agent/agent.go:433-548 | a whole turn on the session object is the specified turn |
| TurnMachine.StepKeepsTurnOk | internal/control/registry.go:79-236 | every critical section keeps the invariants on channels, steering and end |
| TurnMachine.TerminalAbsorbs | internal/control/registry.go:431-435 | cancelled and done are never left |
| TurnMachine.SteeringConservation | internal/control/registry.go:105-236 | in every history accepted texts are delivered, then dropped, then pending ones; only cancelled turns drop; a turn marked done delivered all; no channel is closed twice or left open after End |
| TurnMachine.PendingIsSinceDrain | internal/control/registry.go:105-165 | what is pending is what was accepted since the last drain |
| TurnMachine.AllHandledIff | internal/control/registry.go:105-165 | all accepted texts are delivered or dropped exactly when none was accepted after the last drain |
| TurnMachine.HistoryFlags | internal/control/registry.go:105-236 | from the history alone: whether the context has ended and whether DrainOrFinish marked the turn done |
| TurnMachine.DoneWithLiveContextIff | internal/control/registry.go:121-135 | a done turn's context is live exactly when some DrainOrFinish found nothing in a turn not cancelled and nothing has ended the context |
| TurnMachine.EndLeavesPending | internal/control/registry.go:220-236 | a history that leaves a text pending and one that leaves a done turn's context live |
| TurnObjects.Channel.Close | internal/control/registry.go:190 | closing demands an open channel |
| TurnObjects.Turn.constructor | internal/control/registry.go:401-410 | a new turn is running with nothing pending |
| TurnObjects.Turn.Steer | internal/control/registry.go:151-165 | accepts trimmed text exactly on a live turn and buffers it last |
| TurnObjects.Turn.Pause | internal/control/registry.go:169-179 | a running turn gets a new channel; any other is unchanged |
| TurnObjects.Turn.CloseResume | internal/control/registry.go:207-210 | the waiters' channel is closed once and forgotten |
| TurnObjects.Turn.Resume | internal/control/registry.go:183-195 | a paused turn runs again and its channel is closed |
| TurnObjects.Turn.Cancel | internal/control/registry.go:200-216 | a live turn is marked, its waiters released, then its context cancelled |
| TurnObjects.Turn.EndSection | internal/control/registry.go:220-235 | the turn is finished, its waiters released and its context cancelled under the lock |
| TurnObjects.Turn.End | internal/control/registry.go:220-237 | End finishes the turn and detaches only itself |
| TurnObjects.Turn.Drain | internal/control/registry.go:105-111 | everything pending is returned once |
| TurnObjects.Turn.DrainOrFinish | internal/control/registry.go:121-135 | leftovers are returned, or the turn is done in the same section; a cancelled turn drops |
| TurnObjects.Turn.CheckpointPass | internal/control/registry.go:79-101 | fails exactly when cancelled, waits on an open channel exactly when paused |
| TurnObjects.Registry.constructor | internal/control/registry.go:337-350 | an empty registry |
| TurnObjects.Registry.TryBegin | internal/control/registry.go:398-425 | refuses exactly while a live turn holds the key; otherwise the new turn takes the slot |
| TurnObjects.Registry.Remove | internal/control/registry.go:460-466 | detaches a turn only while it is the current one of its key |
| Protocol.EveryRunIsOk | internal/control/registry.go:79-466 | the system invariant holds after every interleaving |
| Protocol.OneLiveTurn | internal/control/registry.go:398-435 | among all turns ever begun at most one per key is live, and it is the registered one |
| Protocol.RemovalSparesLive | internal/control/registry.go:460-466 | neither a late End nor an eviction removes a live turn, and End removes only its own |
| Protocol.SteeringReachesSession | internal/agent/control.go:72-86 | accepted texts are those in the session, then held, dropped and pending ones; when DrainOrFinish marks done, all are in the session |
| Protocol.ModelSeesDrained | internal/agent/agent.go:454-476 | at each model call the session holds exactly the texts accepted before the drain, in order |
| Protocol.StopsWithinOneAction | internal/agent/agent.go:438-476 | under a pause one run of the loop starts at most one more action, two with a follow-up run; after a cancel at most one |
| Protocol.PauseCostsTwoIff | internal/transport/control.go:64-89 | a pause costs more than one action exactly when since it took effect a model call ran, a follow-up began and it compressed; never more than two |
| Protocol.LostIff | internal/transport/control.go:64-89 | when the goroutine has left, the session holds exactly the texts accepted up to its last drain; the others are dropped or pending |
| Protocol.PauseCanCostTwo | internal/transport/control.go:64-89 | a run in which a pause costs two actions |
| Protocol.LateCheckpointsFail | internal/control/registry.go:79-101 | a checkpoint decided after a Cancel that answered true, or after an End, never returns nil |
| Protocol.NoStrandedWaiter | internal/control/registry.go:79-101 | a waiter's channel is closed or is the one that the next resume, cancel or end closes; after End all channels are closed, and none is ever closed twice |
| LoopSteps.PhaseSteps | internal/agent/tools_run.go:31-45 | every specified tool phase is a run of the goroutine's steps, one gate and one tool per call |
| LoopSteps.RoundSteps | internal/agent/agent.go:450-545 | every specified iteration is a run of the goroutine's steps with the same drains, calls and tools |
| LoopSteps.TurnSteps | internal/agent/agent.go:433-548 | every specified turn is a run of the goroutine whose log shows the compression and then the turn's drains, calls and tools, in order |
| LoopSteps.TurnIsReachable | internal/agent/control.go:72-86 | from any reachable state in which a turn begins, every specified turn is reachable; the texts its log gains are those drained, and each batch stands in the message list at the model call right after, which is a prefix of the final session |
| Decimal.DecimalRoundTrip | internal/agent/compressor.go:217-237 | the rendered number reads back to itself |
| Decimal.DigitsLength | internal/agent/compressor.go:225 | a number below a power of ten has no more digits than its exponent |
| Decimal.Itoa | internal/agent/compressor.go:217-237 | the buffer loop renders every 64-bit number except the least, which becomes a bare sign |
| Compressor.PassShape | internal/agent/compressor.go:88-106 | a pass leaves a marked plain head and the last K messages verbatim |
| Compressor.PassPairingIff | internal/agent/compressor.go:88-104 | a pass keeps pairing exactly when the first kept message carries no results |
| Compressor.MarkedRun | internal/agent/compressor.go:123-140 | over any run a marked head stays and growth is bounded by the appends |
| Compressor.PassSpacing | internal/agent/compressor.go:123-148 | with only the count trigger T, two passes are at least 2T-(K+1) appends apart |
| Compressor.PassSpacingTight | internal/agent/compressor.go:139 | after exactly that many appends the next try is a pass |
| Compressor.Cut | internal/agent/compressor.go:88-104 | the prefix is replaced in place and the kept messages are the same objects |
| Compressor.CompressSession | internal/agent/compressor.go:79-107 | changes the session exactly when a pass is due and summarised, and as specified |
| Ledger.LastSender | internal/agent/ledger.go:47-54 | the last user message that is not purely tool results, or -1 |
| Ledger.ScanExact | internal/agent/ledger.go:31-42 | even with repeated ids: lists exactly the calls in order; not failed exactly when the last answer to the call succeeded |
| Ledger.LedgerExact | internal/agent/ledger.go:19-63 | with distinct ids: not failed exactly when the last matching later result is a success |
| Ledger.PairedHasResults | internal/agent/ledger.go:29-44 | in a well-formed session every listed call has a later result |
| Ledger.CheckpointsHaveResults | internal/agent/agent.go:534-541 | at every checkpoint of a turn every listed call has a result |
| Ledger.OnlyToolResultsLoop | internal/agent/ledger.go:56-63 | the search loop decides whether a message is purely tool results |
| Ledger.LastSenderMessage | internal/agent/ledger.go:47-54 | the backward loop finds the last message of the sender |
| Ledger.ScanMessage | internal/agent/ledger.go:30-42 | the inner loop folds one message into list and index |
| Ledger.ScanTurn | internal/agent/ledger.go:29-44 | the outer loop folds the messages of the turn in order |
| Ledger.TurnLedger | internal/agent/ledger.go:19-45 | the nested loops give the specified ledger |
| LedgerTruth.ScanCloses | internal/agent/ledger.go:38-41 | after the results of a phase an entry is not failed only when its own result is a success |
| LedgerTruth.LedgerTellsTheTruth | internal/agent/ledger.go:14-45 | on every exit of a turn the ledger lists in order every call that ran since the sender wrote; a call is marked not failed only if it ran and its tool reported no error, and with distinct ids exactly then |
| LedgerTruth.LedgerCoversTurnIff | internal/agent/ledger.go:14-18 | the listed calls that ran are all that ran in the turn exactly when nothing ran before text was last steered in |
| LedgerTruth.SteeringHidesARun | internal/agent/ledger.go:14-18 | a turn in which a tool ran and the ledger is empty |
| CompressedTurn.TurnPairedIff | internal/agent/agent.go:433-548 | with the summarising compressor a turn leaves a well-formed session so exactly when no pass cut between calls and results |
| CompressedTurn.CutFallsInExchange | internal/agent/compressor.go:88-104 | a well-formed session that a pass cuts between a call and its result |
| CompressedTurn.TurnStaysBroken | internal/agent/compressor.go:88-104 | a turn on that session ends on one that is not well-formed, on every exit |
| CompressedTurn.LastIsKept | internal/agent/compressor.go:88-104 | a pass keeps the last message |
| CompressedTurn.CompressedLedger | internal/agent/ledger.go:14-45 | with this compressor, a turn on a session that ends with the sender's message has a truthful ledger, with the same condition for covering the turn |
| CompressedTurn.TurnWithCompressor | internal/agent/agent.go:433-548 | the whole turn on the session object with this compressor is the specified turn, and the messages kept by a pass stay the same objects |
| PolicySafety.TurnObeys | internal/agent/tools_run.go:107-141 | for any notion of permitted that the approver enforces, nothing else runs in a turn |
| PolicySafety.TurnObeysPolicy | internal/agent/approver.go:97-100 | with the pattern approver, every input that runs in a turn is one the policy allows, hook rewrites included |
| Scheduler.SyncExact | internal/cron/scheduler.go:152-197 | after a sync, entries and live entries are in bijection, kept jobs keep their entry, new ids are new, and what fires is the simple reconciliation, whatever the map orders |
| Scheduler.SyncKeys | internal/cron/scheduler.go:158-195 | the keys are exactly the enabled jobs that had an entry or that schedule |
| Scheduler.EditNoticedIff | internal/cron/scheduler.go:178-182 | were rows edited: a live entry shows the current row exactly when the job was just added or not edited since |
| Scheduler.FiringWasListed | internal/cron/scheduler.go:152-197 | over every run, whatever fires was listed in some round |
| Scheduler.FiresCurrentRows | internal/cron/scheduler.go:150-197 | over every run on a store that keeps its rows, after a sync that lists every live entry fires its job's row as just listed |
| Scheduler.SyncIdempotent | internal/cron/scheduler.go:152-197 | repeating a sync changes nothing |
| Scheduler.RunExact | internal/cron/scheduler.go:135-148 | the bijection and the reconciliation hold over every run of syncs, failures included |
| Scheduler.StaysScheduled | internal/cron/scheduler.go:150-151 | a job that stays enabled keeps its entry id and what it fires |
| Scheduler.Cron.AddFunc | internal/cron/scheduler.go:181-190 | a parsed job gets the next id; otherwise nothing changes |
| Scheduler.Cron.Remove | internal/cron/scheduler.go:171 | only that entry goes |
| Scheduler.Reconciler.constructor | internal/cron/scheduler.go:91-104 | nothing is scheduled |
| Scheduler.Reconciler.EnabledRows | internal/cron/scheduler.go:158-163 | the enabled jobs by id, the later row winning |
| Scheduler.Reconciler.RemoveStale | internal/cron/scheduler.go:168-174 | the first loop, in any order |
| Scheduler.Reconciler.AddMissing | internal/cron/scheduler.go:177-195 | the second loop, in any order |
| Scheduler.Reconciler.Sync | internal/cron/scheduler.go:152-197 | the object keeps the bijection and fires what the simple form says; a failed listing changes nothing |
| Identity.RunAgrees | internal/agent/turn_identity.go:32-55 | if each closure is called at most once: an entry exists exactly while loans are open, counts them, and every open loan refers to it |
| Identity.LendsLatestWhileOpen | internal/agent/turn_identity.go:22-24 | lookup gives the identity entered last until the last loan ends |
| Identity.RunIsSpent | internal/agent/turn_identity.go:48-54 | entries no session refers to count no loan |
| Identity.RepeatHarmlessIff | internal/agent/turn_identity.go:48-54 | after any history with one call each, a repeated call keeps the map right exactly when its entry is no longer the session's |
| Identity.DoubleLeaveEndsAnother | internal/agent/turn_identity.go:48-54 | such a call that ends another loan |
| Identity.Entry.constructor | internal/agent/turn_identity.go:43 | a new entry with one loan |
| Identity.TurnIdentities.constructor | internal/agent/turn_identity.go:22-25 | nothing is lent |
| Identity.TurnIdentities.Enter | internal/agent/turn_identity.go:32-55 | updates the shared entry or makes one, and returns its closure |
| Identity.TurnIdentities.Leave | internal/agent/turn_identity.go:48-54 | one loan less; the entry goes with the last |
| Identity.TurnIdentities.LookupIdentity | internal/agent/turn_identity.go:58-66 | the identity of the current entry |
| Output.PrefixValidIff | internal/agent/tools_run.go:55-70 | valid prefixes of valid UTF-8 are exactly those that end before a character start |
| Output.CutIsLongest | internal/agent/tools_run.go:65-68 | the cut keeps the longest valid prefix within the limit, at most 3 bytes below it |
| Output.BoundedIsValid | internal/agent/tools_run.go:57-70 | valid output stays valid UTF-8, whole or with a marker that counts what is shown |
| Output.CutNearIff | internal/agent/tools_run.go:65-68 | on any bytes the cut is within three bytes of the limit exactly when one of the four bytes there can start a character |
| Output.CutVanishesIff | internal/agent/tools_run.go:65-68 | on any bytes nothing is kept exactly when no byte after the first, up to the limit, can start a character |
| Output.StrayBytesVanish | internal/agent/tools_run.go:65-68 | an input of which nothing is kept |
| Output.BoundOutput | internal/agent/tools_run.go:57-70 | the loop gives the specified cut |
| Recall.FieldsOfSpread | internal/agent/recall.go:76 | the words of a text are found in order, however they are spaced |
| Recall.JoinRoundTrip | internal/agent/recall.go:81-89 | a reader of quoted strings joined by OR recovers any list of words |
| Recall.KeywordsRoundTrip | internal/agent/recall.go:65-90 | the query recovers exactly the first at most eight words searched for |
| Recall.KeywordsInjective | internal/agent/recall.go:65-90 | two texts give one query exactly when they give the same words |
| Recall.CandidatesFromWords | internal/agent/recall.go:76-80 | a candidate is exactly a word of the text, trimmed and long enough |
| Recall.Keywords | internal/agent/recall.go:74-90 | the loop that stops at the eighth word gives the specified query |

## Left out

- Lexing of JSON text: inputs are token streams; a lexical error is a token of its own, and white space and string escapes are gone before the model starts.
- Unicode tables: the fold successor is any function with finite cycles; trimming knows the white space of Unicode, strings are sequences of valid characters.
- Regular expressions: a compiled pattern is a pair of predicates, and compilation may fail.
- Providers, approver back ends other than the pattern approver, hooks and tools: arbitrary functions of what they are given and of the time.
- Spans, metrics, logging, audit, progress, cost and reliability records, and the recent-event trail of a turn: effects that do not feed back into the loop.
- `Registry.Begin`: it evicts a live turn by design; only turns begun by `TryBegin` are modelled.
- `Registry.Apply`, `Publish`, status and explain texts: rendering of the state.
- The supervisor around a turn: only its follow-up loop and its End are modelled; how a follow-up's text is joined and re-enters the session is one step.
- LoopSteps.TurnIsReachable: maps turns to runs, for texts as Steer keeps them; a run in which the goroutine waits out a pause shows the same log and is not mapped back to message lists.
- Joining follow-up texts: the model records the batch; its own message text is not modelled.
- A nil session in `Compress` and `TurnLedger`, and negative `KeepRecent` (which panics on the slice): the model has no nil session and a natural number.
- AgentLoop.TurnWithStats: the compressor is an arbitrary function here and its messages are new objects; CompressedTurn.TurnWithCompressor runs the real one, which keeps the objects of the recent messages.
- AgentLoop.ExecuteTool: the bound on tool output is an arbitrary function on strings here; Output.BoundOutput models it on bytes.
- ToolPhase.PhaseAnswers: a panic inside a tool or hook is not modelled.
- TurnLoop.TurnPaired: assumes that a model's message carries no tool results, that a model with calls reports tool use, and that the compressor keeps pairing; IteratePaired and CompressedTurn.TurnPairedIff say exactly what happens otherwise.
- LedgerTruth.LedgerTellsTheTruth: assumes the session ends with a message of the sender when the turn starts (CompressedTurn.CompressedLedger shows a pass keeps it) and that the model answers in the assistant's role.
- Identity.LendsLatestWhileOpen: assumes each closure is called at most once, as its one caller does; RepeatHarmlessIff says what a second call would do.
- Firing, delivery, shutdown and the poll timer of the cron scheduler.
- Token estimates: an arbitrary function; no claim that a pass shrinks the estimate.
- Fencing and formatting of recalled text, and the search itself.
- Command line, configuration, licences, wire protocols, persistence and health checks.
