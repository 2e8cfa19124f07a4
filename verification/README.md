# Verification of the node agent, its reset evidence, its tokenizer and its wire format

A Dafny model of four parts of the repository, with proofs about every run or every input of each.

**The operation protocol** (`Gate`, `GateSafety`, `GateRuns`, `Dispatcher`, `Store`, `LockDomain`, `World*`).
`Gate.dfy` models one agent's dispatcher: the fields of the object, the program counters of the
coroutines that share it, and every region between two awaits as one atomic step. `GateSafety.dfy` is
the inductive invariant, `GateRuns.dfy` what follows for all runs. `Dispatcher.dfy` is the object itself,
a class whose methods update its fields in place and are proved to take exactly those steps.
`Store.dfy` holds the owned transactions, the takeover and the kernel release, as functions and as a
class that updates the tables statement by statement. `LockDomain.dfy` is the host lock, system call by
system call. `World.dfy` puts any number of processes, in any
number of kernels and lock domains, over one set of tables: processes start, die, claim and are
superseded; every answer of the database may be lost after its transaction committed; callers give up
at any await; an operator closes and opens the maintenance hold, resolves and releases kernels.
`WorldKnows.dfy` is the converse of the invariant: what the owner takes for uncertain is. `WorldRuns.dfy` holds the results; `WorldExample.dfy` shows a run in which an operation
completes although a settlement's answer was lost, and one in which a cancelled task hides an uncertain send.

**The reset evidence** (`Supervisor`, `Reset*`, `Resolution`). `Supervisor.dfy` models the directory that the agent
and the host's supervisor share as sets of files, each `exists`, `rename`, `unlink` and
`replace` one step, either side dying anywhere, and the agent's check before it serves look by look.
`Reset.dfy` runs nonces, the witness, the runtime's instances, the readings of the platform's hold and one
resolution, from the node interface's test to the step that moves the row, beside the whole of `World`.
`ResetSafety.dfy` says what may still be sent when the resolution begins and what keeps everything else from it,
`ResetSound.dfy` that every step keeps that, however late a task is started. `ResetExact.dfy` shows that what is on
the wire when the resolution begins defeats it in some run that starts every task at once, and `ResetExample.dfy`
has two such runs from the start. `Resolution.dfy` is the table of resolutions in progress.

**The tokenizer and the GGUF reader** (`Text`, `Merge`, `Partition`, `Specials`, `Vocabulary`, `Tokenize`,
`Gguf`). The in-place algorithms keep their arrays, queues and cursors and are proved against plain
recursive rules. `ByteSpelling.dfy` holds the vocabularies in which a text loses bytes.

**Delivery and the wire** (`Attempt`, `Relay`, `Wire`). The bounded event queue, the relays with the requests that
they post one after another, the loop that reads a chat stream, and the JSON codec.

Assumptions, each about something outside the code modelled here:

- A `flock` lasts until its holder is gone, within one kernel, and the domain file is left alone (from
  which `LockDomain` derives that a domain and kernel have one live agent); kernel boot ids are known; an operator
  who releases a kernel is right that no process of it lives (`KernelGone`). With an unknown recorded kernel `claim`
  skips its check (`backend/app/node_agent/election.py:111-114`), and the results about takeover do not extend to it.
- A transaction has committed or not by the time its caller hears of it, error or not. Advisory locks
  make the transactions atomic; rows are never deleted.
- An operation id names one kind of operation.
- Nonces and runtime instances are never reused; one instance listens at a time.
- One agent process uses the supervisor's directory. `Supervision.AtMostOnceExactly` shows that at-most-once
  execution fails without this.
- Python runs a coroutine without interruption from one await to the next.
- A created task takes its first step in the next pass of the event loop, before anything awaited since is answered
  (`ResetExact.Prompt`). Only the runs that defeat a reset, and `ResetExact.ResetIsSoundExactly`, are about such
  schedules; `ResetExact.SoundUnlessItEscapes`, and all that is proved of `World`, hold for every schedule.

Findings:

- The order-independence guard for special tokens is sufficient but refuses harmless classes: `aa` beside `bc` is
  refused because `aa` overlaps itself (`Specials.GuardIsConservative`).
- Skipping a value seeks without reading, so a filtered parse accepts a file that ends inside
  a skipped value, which the full parse rejects (`Gguf.SkippingAcceptsATruncatedFile`). The two part exactly where
  the value of the last pair is skipped and cut off (`Gguf.ParsesPartAtACutValue`).
- A special, or a symbol that results from merging, loses bytes exactly if it is spelled like a byte token (`<0x41>`
  becomes the one byte `A`); the ids of a text decode to its bytes exactly if it has none of these
  (`Tokenize.EncodingIsLossless`). Both ways of losing bytes occur (`ByteSpelling.SpecialLosesBytes`,
  `ByteSpelling.MergesLoseBytes`); without merges the same six characters stay six symbols and come back unchanged
  (`ByteSpelling.UnmergedKeepsBytes`).
- A maintenance reset is sound on every continuation if and only if the operation is not on the wire at the moment
  its cohort is fixed (`ResetExact.ResetIsSoundExactly`). The node interface does test that nobody is on the wire
  (`backend/app/node_agent/api.py:711-713`), but before the reset reads its audit and the unknown rows, and a task may
  start in between: a restore into this hold, which a frozen gate lets through (`ResetExample.LateRestoreDefeatsReset`),
  or any other whose gate was thawed on a reading of the hold from before the entry. `follow_hold` reads, awaits, and
  then thaws, and a later tick, of this agent or of its successor, freezes the gate again at the same epoch, so that
  the end test passes although the platform was never reopened (`ResetExample.OldReadingDefeatsEndTest`). The same
  test, made in the step that fixes the cohort, would suffice.
- What the owner of a node does not know of is exactly what a task forgot that was cancelled after its relay had ended
  uncertain, while somebody else held the barrier under which it would say so (`WorldRuns.HiddenExactly`,
  `WorldRuns.OnlyCancellationHides`); then the gate may serve with an uncertain send
  (`WorldExample.CancellationHidesUncertainty`), and only then (`WorldRuns.NothingForgottenExactly`). Nothing in the
  agent cancels such a task, so this takes an event loop that is torn down.
- The check before serving finds the runtime quiet although a request waits, if the request was written while the
  check withdrew another (`Supervision.WriteSlipsByTheCheck`). All it overlooks was written since it first looked, so
  it is right exactly if none of that still waits or is unanswered (`Supervision.CheckIsQuietExactly`).
- The comparison of sequence numbers in the reset evidence refuses nothing that the nonces allow
  (`Reset.SequenceNumbersFollow`).
- An empty `expected_manifest` or `manifest_digest` is dropped by the encoder, and the version check accepts
  `true` and `1.0` (`Wire.EmbeddingCrosses`, `Wire.VersionIsNotStrict`).

## Model

| member | source | states |
|---|---|---|
| WorldRuns.AtMostOneSend | backend/app/node_agent/dispatch.py:646-683 | In every reachable node, however often an op id is submitted, cancelled, lost or inherited, its relay was started at most once, and never while its row is absent, accepted or cancelled_unsent |
| WorldRuns.SingleSender | backend/app/node_agent/election.py:63-128 | Two relays on the wire, or one on the wire and one about to start, are always in the same process |
| WorldRuns.SenderOwnsNode | backend/app/node_agent/store.py:131-144 | Whoever starts or has a relay on the wire is the owner recorded in the tables, the only live process with that ownership, and its row is running with it as origin |
| WorldRuns.TakeoverSilencesTheOld | backend/app/node_agent/election.py:111-140 | After a takeover commits generation g, no continuation of the run contains a send started by an older generation |
| WorldRuns.RowsMoveForward | backend/app/node_agent/store.py:256-494 | Over any run no row disappears or returns to an earlier state, terminal rows never change in any column, and the origin survives every takeover |
| WorldRuns.CancelledStaysUnsent | backend/app/node_agent/dispatch.py:769-807 | A cancelled_unsent row had no relay started and never will, in any continuation and any process |
| WorldRuns.UnknownIsNeverSentAgain | backend/app/node_agent/election.py:150-158 | Once a row is outcome_unknown no process ever sends that operation again |
| WorldRuns.UncertaintyIsKept | backend/app/node_agent/dispatch.py:885-930 | A send without the runtime's word on its end, and without a reset, is always a running or outcome_unknown row; while it is running, the owner, if it lives, has it on its wire, knows it uncertain, or had its task cancelled before it could say so |
| WorldRuns.ServingMeansNothingUnknown | backend/app/node_agent/dispatch.py:352-370 | While the owner's gate serves, even when a reopen raced a commit, no row is unknown, nothing uncertain awaits its commit, and a send is uncertain if and only if it is on that process's own wire or just off it, or its task was cancelled while it waited to note it; no send is both |
| WorldRuns.NothingForgottenExactly | backend/app/node_agent/dispatch.py:885-896 | A serving owner has every uncertain send on its own wire if and only if no task of it was cancelled like that |
| WorldRuns.HiddenExactly | backend/app/node_agent/dispatch.py:885-896 | On every node, an uncertain send with a running row is neither on the owner's wire nor among its uncommitted unknowns if and only if a cancelled task forgot it |
| WorldRuns.OnlyCancellationHides | backend/app/node_agent/dispatch.py:893-896 | A step of the node hides an uncertain send from its owner if and only if it cancels the operation's run while that waits for the barrier in `_settle` |
| WorldRuns.TerminalRowsAreTrue | backend/app/node_agent/store.py:432-473 | Completed rows were sent once and answered; failed rows were answered or reset; at most one result is stored, only for a completion; non-terminal rows carry the current generation |
| WorldRuns.SettlementIsExact | backend/app/node_agent/dispatch.py:898-930 | After any mix of failed and secretly committed attempts, an acknowledged settlement leaves exactly the state its outcome calls for, and exactly one stored result if the outcome carried one, else none |
| WorldRuns.PromotionsAreAuthorised | backend/app/node_agent/store.py:297-342 | Every promotion that commits, acknowledged or not, is by the owner, for a caller whose gate admits it at that moment, with nothing unknown, reading the hold open, or closed at the restore's own epoch |
| WorldRuns.NothingPromotedWhileUnknown | backend/app/node_agent/store.py:326-331 | No step promotes anything while any row is unknown |
| WorldRuns.GrantMeetsNoTask | backend/app/node_agent/dispatch.py:756-762 | A granted promotion never finds a task of the same operation, so the admission cannot overwrite one |
| WorldRuns.TakeoverIsConservative | backend/app/node_agent/election.py:150-173 | A takeover leaves nothing accepted or running, makes unknown exactly what was running or unknown, cancels only what was never sent, and touches no terminal row |
| WorldSafety.StepKeepsInv | backend/app/node_agent/service.py:154-213 | The invariant that ties every live process to the rows holds through every step of every process, the database, a crash, a takeover, a kernel release and an operator |
| WorldKnows.StepKnows | backend/app/node_agent/dispatch.py:861-930 | Every step of the node keeps that whatever the owner has on its wire, or forgot, was sent once and has no answer, that no uncommitted unknown can be sent, and that what was resolved stays failed |
| WorldSafety.SurvivorOk | backend/app/node_agent/lock_domain.py:140-176 | A process that outlives a takeover was superseded before, or has neither a granted promotion nor a relay, because the lock or the kernel check shuts every other case out |
| WorldExample.SomethingCompletes | backend/app/node_agent/dispatch.py:809-930 | A reachable run in which an operation is sent once and its result stored once although the first settlement's answer was lost |
| WorldExample.CancellationHidesUncertainty | backend/app/node_agent/dispatch.py:893-896 | A reachable node whose owner's gate serves with a free barrier, on a fresh word that nothing is unknown, and an uncertain send hidden from it, whose task was cancelled while a reopening held the barrier |
| GateSafety.EveryStepKeeps | backend/app/node_agent/dispatch.py:231-930 | The dispatcher's invariant (gate, barrier, registers, slots, queue, exclusive owner, uncommitted unknowns) is kept by every atomic region, whatever the database answers |
| GateRuns.LifecycleSendsAlone | backend/app/node_agent/dispatch.py:507-577 | A sending load, unload, pull, repin or restore is the only relay sending and the only operation admitted, and the gate does not serve |
| GateRuns.ServingMeansClear | backend/app/node_agent/dispatch.py:361-410 | A serving gate is not frozen, not exclusive, knows of no uncommitted unknown, and runs no lifecycle task |
| GateRuns.SlotsAreConserved | backend/app/node_agent/dispatch.py:650-720 | Free slots, slots of calls and slots of admitted tasks always add up to max_inflight; the queue counter is the number of queued calls and within max_queued; sending is within admitted; the idle and quiet events are exact; with nobody left all is given back |
| GateRuns.MaintenanceFence | backend/app/node_agent/dispatch.py:809-837 | From a frozen gate until a thaw, whoever is on the wire was on it before, or is a restore that started while the gate was frozen at the epoch it was admitted for |
| GateRuns.QuiescenceLasts | backend/app/node_agent/dispatch.py:412-442 | Once a frozen gate has no sender it has none until a thaw or a restore |
| GateRuns.AdmittedByTheGate | backend/app/node_agent/dispatch.py:739-767 | Whoever becomes admitted is admitted by the gate at that very moment, and a lifecycle operation finds nobody else admitted |
| GateRuns.LostIsFinal | backend/app/node_agent/dispatch.py:326-342 | A lost gate stays lost in every run and admits nobody again |
| GateRuns.ForgottenOnlyOnceCommitted | backend/app/node_agent/dispatch.py:919-930 | The process forgets an uncommitted unknown only in the step that hears its commit acknowledged |
| Dispatching.Dispatcher.constructor | backend/app/node_agent/dispatch.py:231-281 | A new dispatcher satisfies the invariant, with every slot free and nothing admitted |
| Dispatching.Dispatcher.CloseLocked | backend/app/node_agent/dispatch.py:326-334 | Closing the gate: a lost gate stays lost, a hold outranks a block and a drain, a block outranks a drain |
| Dispatching.Dispatcher.FreezeLocked | backend/app/node_agent/dispatch.py:374-382 | The hold and its epoch are recorded and the gate is in maintenance, unless the role is lost |
| Dispatching.Dispatcher.ReopenLocked | backend/app/node_agent/dispatch.py:361-370 | What reopening does before it asks the database, and exactly when it asks |
| Dispatching.Dispatcher.Freeze | backend/app/node_agent/dispatch.py:384-392 | Takes the freeze step and keeps the invariant |
| Dispatching.Dispatcher.Thaw | backend/app/node_agent/dispatch.py:394-410 | Takes the thaw step: back to a drain that is still held, else to the question whether anything is unknown |
| Dispatching.Dispatcher.Drain | backend/app/node_agent/dispatch.py:344-350 | Takes the operator's drain step |
| Dispatching.Dispatcher.Reopen | backend/app/node_agent/dispatch.py:352-359 | Ends the operator's drain and says whether the database is asked |
| Dispatching.Dispatcher.RecheckDrain | backend/app/node_agent/dispatch.py:613-630 | Reopens a drain that nothing holds any more, and only that |
| Dispatching.Dispatcher.ConcludeReopen | backend/app/node_agent/dispatch.py:367-370 | After the answer the gate serves exactly when nothing is unknown |
| Dispatching.Dispatcher.LoseRole | backend/app/node_agent/dispatch.py:340-342 | The gate is lost, whatever else holds it |
| Dispatching.Dispatcher.Block | backend/app/node_agent/dispatch.py:336-338 | Takes the block step |
| Dispatching.Dispatcher.Interrupt | backend/app/node_agent/dispatch.py:412-430 | Refuses unless frozen; otherwise names exactly the relays on the wire |
| Dispatching.Dispatcher.EnterQueue | backend/app/node_agent/dispatch.py:646-658 | Refuses exactly when the gate does not serve or the queue is full, without a trace; otherwise counts the caller |
| Dispatching.Dispatcher.EnterExclusive | backend/app/node_agent/dispatch.py:508-518 | A lifecycle operation closes a serving gate, a restore takes a gate frozen at its epoch; anything else is refused without a trace |
| Dispatching.Dispatcher.AcquireSlot | backend/app/node_agent/dispatch.py:689-720 | Takes one free slot for the waiting caller |
| Dispatching.Dispatcher.GiveBackSlot | backend/app/node_agent/dispatch.py:707-718 | A slot that came too late, or was held while the barrier was missed, goes back |
| Dispatching.Dispatcher.LeaveQueue | backend/app/node_agent/dispatch.py:684-687 | A submitted caller leaves the queue it is still counted in |
| Dispatching.Dispatcher.ReachPromotion | backend/app/node_agent/dispatch.py:741-746 | Under the barrier, refused exactly when the gate does not admit or the host lock is gone, with the slot given back |
| Dispatching.Dispatcher.ConcludePromotion | backend/app/node_agent/dispatch.py:747-786 | A task is admitted, with the caller's slot, exactly when the promotion was granted; otherwise the slot returns and the gate records what the answer says |
| Dispatching.Dispatcher.NoteUnsettled | backend/app/node_agent/dispatch.py:788-799 | A failed promotion whose row could not be settled is known uncertain and keeps the gate from serving |
| Dispatching.Dispatcher.StartSending | backend/app/node_agent/dispatch.py:826-841 | The final send barrier: a frozen gate withholds all but the restore of its own hold |
| Dispatching.Dispatcher.StopSending | backend/app/node_agent/dispatch.py:861-865 | The relay leaves the wire and the quiet event is exact |
| Dispatching.Dispatcher.BeginSettling | backend/app/node_agent/dispatch.py:885-896 | An uncertain outcome is known and the gate closed before anything is committed |
| Dispatching.Dispatcher.ResumeSettling | backend/app/node_agent/dispatch.py:915-930 | An error is retried with the same outcome; an unknown is forgotten only after its commit |
| Dispatching.Dispatcher.FinishRun | backend/app/node_agent/dispatch.py:873-883 | Slot, admission and idle event are given up together |
| Dispatching.Dispatcher.CloseRun | backend/app/node_agent/dispatch.py:602-611 | The exclusive mode ends with its owner, and the gate reopens only through the database |
| Dispatching.Dispatcher.LeaveExclusive | backend/app/node_agent/dispatch.py:587-590 | A lifecycle call without a task ends its exclusive mode and its restore |
| Store.OperationStore.InsertAccepted | backend/app/node_agent/store.py:256-295 | One accepted row per op id, only for the owner; a loser changes nothing |
| Store.OperationStore.Promote | backend/app/node_agent/store.py:297-342 | The order of refusals (ownership, hold, unknown, row state) and the one row that moves |
| Store.OperationStore.CancelAccepted | backend/app/node_agent/store.py:344-373 | A tombstone for an absent row, the end of an accepted one, nothing else |
| Store.OperationStore.MarkUnknown | backend/app/node_agent/store.py:375-389 | running to outcome_unknown for the owner |
| Store.OperationStore.ResolveUnknown | backend/app/node_agent/store.py:391-418 | outcome_unknown to failed for the owner |
| Store.OperationStore.Finish | backend/app/node_agent/store.py:432-473 | Terminal state and result in one commit, only from running |
| Store.OperationStore.UnsentAfterPromotion | backend/app/node_agent/store.py:475-494 | running to cancelled_unsent for the owner |
| Store.Tables.Claim | backend/app/node_agent/election.py:83-173 | Refused exactly for another domain, or another kernel with open rows; otherwise the three conversions amount to one simultaneous inheritance of all rows by the new generation |
| Store.Tables.ReleasePreviousKernel | backend/app/node_agent/release_kernel.py:82-160 | Rebinds the kernel exactly when domain, stated kernel and open rows agree |
| Store.InheritedInThreeMoves | backend/app/node_agent/election.py:150-173 | The three statements of the takeover, one after the other, do to each row what its state before called for |
| Supervision.AtMostOnceExactly | scripts/host/runtime_supervisor.py:336-372 | Over all runs, with crashes, re-asks and withdrawals anywhere, no request is executed twice if and only if at most one agent process writes |
| Supervision.WithdrawnIsNotExecuted | backend/app/node_agent/supervisor.py:131-140 | A request whose unlink succeeded is not executed afterwards unless it is written again |
| Supervision.ReportedWithdrawnNeverRan | backend/app/node_agent/supervisor.py:88-100 | What `run` reports as withdrawn before it was taken has never run and will not unless written again |
| Supervision.QuietStaysQuiet | backend/app/node_agent/service.py:99-119 | From no waiting request and no unanswered claim, nothing is executed until the agent writes |
| Supervision.CheckIsQuietExactly | backend/app/node_agent/service.py:99-119 | With its two separate looks, its withdrawals and any steps of the supervisor in between: when the check finds quiet, whatever waits or is unanswered was written since it first looked, so it is quiet if and only if nothing written since waits or is unanswered |
| Supervision.CheckEstablishesQuiet | backend/app/node_agent/service.py:99-119 | In particular, what it finds quiet is quiet if nothing was written since it first looked |
| Supervision.WriteSlipsByTheCheck | backend/app/node_agent/service.py:108-119 | A reachable directory in which the check found quiet while a request waits that was written during its withdrawals |
| Supervision.TwoAgentsRunTwice | backend/app/node_agent/supervisor.py:69-80 | With two agents, one request executed twice |
| Supervision.Directory.Cycle | scripts/host/runtime_supervisor.py:336-372 | An uninterrupted cycle answers every listed request that is there and executes exactly the readable ones without a receipt, once each |
| ResetExact.ResetIsSoundExactly | backend/app/node_agent/resolution.py:259-374 | A resolution that begins on any node a run leads to resolves its operation only on a runtime that no byte of it reached, on every continuation, if and only if the operation is not on the wire at that moment: always for an unknown row, for a member of a cohort exactly if its relay is not sending when the cohort is fixed; whether or not tasks start promptly afterwards |
| ResetExact.SoundUnlessItEscapes | backend/app/node_agent/resolution.py:304-374 | Whatever the scheduler does, unstarted tasks included: what is past the send barrier, or can never pass it, when the resolution begins is resolved rightly on every continuation |
| ResetExact.ResolvedMeansReplaced | backend/app/node_agent/resolution.py:177-209 | In the very step in which a reset, of either kind, turns a row from unknown to failed, every instance that bytes of the operation ever reached listened before the one shown, which listens or was replaced too, and no process has it on the wire |
| ResetExact.SenderEscapes | backend/app/node_agent/resolution.py:345-374 | From every node in which the operation is on the wire as the cohort is fixed, a run of promptly started tasks resolves it on the restarted runtime that its bytes reached, past the end test, with the hold closed throughout |
| ResetSound.StepSound | backend/app/node_agent/resolution.py:259-374 | Every step of the processes, the database, the operator, the witness, the runtime, the readers of the hold and the reset itself, crashes and takeovers included, keeps the invariant under which the resolution is sound |
| ResetSafety.CagedIsWithheld | backend/app/node_agent/dispatch.py:826-836 | What cannot escape is withheld at the final send barrier, if its task gets there |
| ResetExample.OldReadingDefeatsEndTest | backend/app/node_agent/service.py:78-97 | A run from the start, every task started promptly, in which the interface's test finds nobody on the wire, and a plain operation is resolved on a runtime that its bytes reached although the hold stays closed: an older reading thaws the gate after the test, and the end test finds it frozen |
| ResetExample.LateRestoreDefeatsReset | backend/app/node_agent/api.py:705-717 | The same for a restore into the hold that starts between that test and the fixing of the cohort |
| Reset.SequenceNumbersFollow | scripts/host/runtime_witness.py:124-137 | On every run, thaws and restores included, a second answer is accepted exactly when the incarnation is the same and the instance another; the order of the numbers follows |
| Resolution.Resolutions.Start | backend/app/node_agent/resolution.py:143-162 | A resolution begins exactly for an unknown row that no task holds and with a baseline |
| Resolution.Resolutions.Complete | backend/app/node_agent/resolution.py:177-209 | The row moves exactly on accepted evidence, and the resolution stays in progress exactly when trying again can help |
| Resolution.CompletesAsShown | backend/app/node_agent/resolution.py:177-209 | The step of the node that moves the row is the one that `complete` takes on the baseline and the second answer that the node's run has shown |
| Resolution.ResolvedRow | backend/app/node_agent/resolution.py:204-207 | A resolution that succeeds had accepted evidence and the ownership, and changes one unknown row only |
| Resolution.Resolutions.ResolveCohort | backend/app/node_agent/resolution.py:344-374 | Nothing is resolved unless the hold is closed and the gate frozen at the reset's epoch; then exactly the cohort's unknown operations that no task holds, and no other row is touched |
| LockDomain.FirstStartsRace | backend/app/node_agent/lock_domain.py:71-100 | However many first starts race or die, one domain document is ever written, one live process holds the lock, and its descriptor stays the lock file |
| LockDomain.ReplacingTheLockGainsNothing | backend/app/node_agent/lock_domain.py:140-176 | Once the domain is written, unlinking and replacing the lock file neither changes the domain nor lets a second live process hold it |
| Attempts.DeliveryIsPrefix | backend/app/node_agent/dispatch.py:181-229 | For any interleaving of emits, reads, abandoning and closing the reader gets a prefix, lacks something exactly if delivery was lost, and always finds the end marker |
| Attempts.Attempt.Close | backend/app/node_agent/dispatch.py:206-219 | The end marker is always queued, at the cost of a full queue |
| Attempts.Attempt.Emit | backend/app/node_agent/dispatch.py:193-204 | Delivery is given up at a full queue and never resumes |
| Attempts.Attempt.ReadToEnd | backend/app/node_agent/dispatch.py:221-226 | A reader of a closed attempt ends, with everything queued before the marker |
| Relay.StreamChat | backend/app/node_agent/relay.py:373-460 | NotSent exactly when no byte was written; every JSON line up to the end is handed on; the replay is the whole text if its size fits the cap, else it is marked unavailable; an end without `done` is uncertain, with the kind of end; a line of the wrong type raises |
| Relay.Chat | backend/app/node_agent/relay.py:334-371 | NotSent exactly when no byte of work was written, which is when the served weights are not those measured, or cannot be asked for, or the connection failed |
| Relay.ReadStream | backend/app/node_agent/relay.py:393-456 | The loop hands on and answers as a plain recursive reading of the whole stream does, the replay kept piece by piece included |
| Relay.CompletedMeansDone | backend/app/node_agent/relay.py:393-440 | A stream is complete exactly when `done` came before any error and before anything that raises |
| Relay.Lifecycle | backend/app/node_agent/relay.py:137-161 | Of the two posts, NotSent exactly if neither wrote a byte: a fallback that cannot connect is uncertain, since the first post went out |
| Relay.Probe | backend/app/node_agent/relay.py:184-210 | NotSent exactly when no byte was written; complete exactly on a vector, or on a finished generation with a token |
| Relay.Embed | backend/app/node_agent/relay.py:462-490 | NotSent exactly when no byte was written; complete exactly on a list of embeddings; an answer that is no object raises |
| Relay.Pull | backend/app/node_agent/relay.py:214-255 | NotSent exactly when no byte was written; the first line that is an error or a success decides, and without one the end is uncertain |
| Wire.GenerationCrosses | backend/app/node_agent/wire.py:88-119 | A generation and its envelope come back unchanged exactly when their fields meet the constraints, for unbounded messages, calls, tools and stops |
| Wire.EmbeddingCrosses | backend/app/node_agent/wire.py:122-129 | The same for embeddings; an empty expected manifest is what gets lost |
| Wire.LifecycleCrosses | backend/app/node_agent/wire.py:132-139 | The same for lifecycle requests |
| Wire.DecodedGenerationCrosses | backend/app/node_agent/wire.py:166-181 | Any body that decodes re-encodes to one that decodes to the same generation |
| Wire.DecodedEmbeddingCrosses | backend/app/node_agent/wire.py:184-196 | The same for embeddings |
| Wire.DecodedLifecycleCrosses | backend/app/node_agent/wire.py:199-214 | The same for lifecycle requests |
| Wire.VersionIsNotStrict | backend/app/node_agent/wire.py:300-302 | `true` and `1.0` pass for version 1 |
| Merge.MergeWord | backend/native/src/gemma4_bpe.rs:178-232 | The heap and linked list return exactly what the naive rule returns, for every word and rank table, and terminate |
| Merge.BestIsUnique | backend/native/src/gemma4_bpe.rs:178-232 | The naive rule (lowest rank, then leftmost) has one choice at each point |
| Merge.LengthTestSuffices | backend/native/src/gemma4_bpe.rs:205-222 | An entry that passes the length test is the current pair of two neighbours, so the two text tests after it never refuse |
| Merge.StaleIsDropped | backend/native/src/gemma4_bpe.rs:205-222 | Dropping an entry that fails the test loses no candidate |
| Merge.NaiveKeepsText | backend/native/src/gemma4_bpe.rs:178-232 | Merged symbols concatenate to the word |
| Partition.Partition | backend/native/src/gemma4_bpe.rs:125-150 | The in-place splitting is the split by each special in turn |
| Partition.ClassIsScan | backend/native/src/gemma4_bpe.rs:125-150 | Splitting by specials of one length that do not clash is one scan from left to right for any of them |
| Partition.ClassOrderIsImmaterial | backend/native/src/gemma4_bpe.rs:289-333 | Within such a class every order gives the same fragments on every text |
| Specials.OrderIsImmaterial | backend/native/src/gemma4_bpe.rs:270-315 | Any two longest-first orders of the same specials split every list of fragments alike |
| Specials.OrderInvisibleExactly | backend/native/src/gemma4_bpe.rs:317-333 | A class splits every text alike in every order if and only if no two different members overlap |
| Specials.OrderMatters | backend/native/src/gemma4_bpe.rs:317-333 | The guard is true exactly when a suffix of one member is a prefix of one, itself included |
| Specials.GuardSuffices | backend/native/src/gemma4_bpe.rs:289-333 | A class the guard lets through has no clash |
| Specials.GuardIsConservative | backend/native/src/gemma4_bpe.rs:317-333 | It also refuses a class in which order never shows |
| Vocabulary.KeyIsUnambiguous | backend/native/src/gemma4_bpe.rs:77-96 | A NUL-joined key determines its pair |
| Vocabulary.KeyNamesPair | backend/native/src/gemma4_bpe.rs:170-176 | Looking a non-empty pair up by its key is looking it up by the pair |
| Vocabulary.BuildRanks | backend/native/src/gemma4_bpe.rs:77-96 | The table ranks each merge by its first line, and is refused exactly for a NUL |
| Vocabulary.BuildIds | backend/native/src/gemma4_bpe.rs:82-85 | Each text has the id of its last occurrence |
| Vocabulary.SpecialTexts | backend/native/src/gemma4_bpe.rs:270-315 | The split tokens, longest first, refused exactly if some length has a class that may overlap |
| Vocabulary.UnstableSortIsHarmless | backend/native/src/gemma4_bpe.rs:289-315 | Whatever order an unstable sort gives equal lengths, every text is partitioned alike |
| Tokenize.WordsAreUnique | backend/native/src/gemma4_bpe.rs:235-249 | A text has one maximal alternating split into newlines and the rest |
| Tokenize.Words | backend/native/src/gemma4_bpe.rs:235-249 | `words` is that split |
| Tokenize.EmitDecodes | backend/native/src/gemma4_bpe.rs:152-168 | With all byte tokens, a symbol's ids decode to its bytes exactly unless it spells a byte token |
| Tokenize.TokenizationIsLossless | backend/native/src/gemma4_bpe.rs:152-168 | With all byte tokens, the ids of a text decode to its bytes if and only if no merged symbol spells a byte token; otherwise to strictly fewer bytes |
| Tokenize.FragmentsSpellText | backend/native/src/gemma4_bpe.rs:116-150 | Fragments and specials spell the text they came from |
| Tokenize.EncodeInto | backend/native/src/gemma4_bpe.rs:116-123 | The ids are those of the fragments, in order, and the fragments spell the text |
| Tokenize.EncodingIsLossless | backend/native/src/gemma4_bpe.rs:116-168 | With all byte tokens, the ids of a whole text decode to every byte of it if and only if neither a special in it nor a merged symbol of the rest spells a byte token |
| ByteSpelling.SpecialLosesBytes | backend/native/src/gemma4_bpe.rs:116-123 | A vocabulary with all byte tokens in which a text that is a special of six bytes decodes to one |
| ByteSpelling.MergesLoseBytes | backend/native/src/gemma4_bpe.rs:152-168 | The same without specials, when merges build the symbol |
| ByteSpelling.UnmergedKeepsBytes | backend/native/src/gemma4_bpe.rs:152-168 | Without merges the same text decodes to itself |
| Gguf.ReadValueAgrees | backend/native/src/gguf.rs:228-304 | For every value and array type, skipping and reading agree on the cursor; skipping accepts more only past the end of the file |
| Gguf.SkippingIsFiltering | backend/native/src/gguf.rs:306-343 | The full parse succeeds exactly if the filtered one does and ends inside the file, and the filtered map is the full one restricted to the wanted keys |
| Gguf.ParsesPartAtACutValue | backend/native/src/gguf.rs:306-343 | Where the filtered parse succeeds, the full one fails exactly if the last pair is skipped and its value runs past the end of the file |
| Gguf.SkippingAcceptsATruncatedFile | backend/native/src/gguf.rs:116-119 | A file that only the filtered parse accepts |
| Gguf.Reader.ReadMetadata | backend/native/src/gguf.rs:306-343 | The reader that advances its cursor in place computes that parse |

## Left out

- `gate_changed` and the deadlines: waiting callers may give up or take a slot at any time, which covers every timing and claims none.
- The summary slot (`SummaryBusy`), `after` callbacks, provenance, reasons, checkpoints, `observed` and the audit trail: they change no row state or gate.
- `observe` before an insert: it only returns early.
- A second cancellation of a caller that is already cleaning up: cleanup runs to its end, as `_shielded` makes it.
- `_unsent_after_failed_promotion` reads the row and then writes it; the model does both in one step. In between, only a cancellation of the accepted row could intervene, after which the write changes nothing.
- A promotion whose transaction commits only after its caller has already settled the row.
- The supervisor's `stop`, `start` and `execute`: process control through launchd and signals; an execution is one step here, and its result plays no part.
- `Host`, `parse_ps`, `listener_owner` and `observe` of the witness: an observation is the listening instance, or inconclusive.
- Resuming a maintenance reset from its audit: a new process goes on from the recorded baseline, in every run, without the interface's test of its empty wire; the receipt, the second read of the hold before the restart and the reports are not modelled. The restart is a step of the runtime that may happen at any time.
- `runtime_quiet_for_serving` does not hold up a thaw in `Reset` while a restart is asked for: what is proved sound covers more runs than the code has, and no run that defeats a reset thaws then.
- Resolution.Resolutions.Start: the drain, the audit and the asking of the witness are not part of the method; `ResetExact` has the nonces as steps, and needs no drain.
- An entry that fails after it raised the epoch: liftings and entries are one step each, and may be several at once.
- LockDomain.FirstStartsRace: a domain document that is no JSON, or a lock directory restored from elsewhere; a lock file unlinked before the first domain document is written is outside its promise.
- The agent's watchdog and its HTTP interface: the watchdog's calls are steps that may happen at any time.
- Merge.Pop: the binary heap is modelled by its contract, a least element of a multiset; ties beyond rank and position are entries with equal rank and position.
- Gguf.Reader.ReadMetadata: floats are kept as their bytes, and `from_utf8_lossy` is a parameter, since no property depends on either.
- Wire.GenerationCrosses: numbers with a fraction are reals, so float rounding, NaN and the overflow of a huge integer are not modelled; object names the wire does not use are one constructor, and the texts of errors are dropped.
- Relay.StreamChat: the length of the tool calls as JSON is a parameter, checkpoints are omitted (they are audit entries), text that UTF-8 cannot encode is not considered, and tool calls that are a text instead of a list are taken to raise.
- Relay.Chat: what else the list of models can be than readable, when the served weights are asked for.
- Relay.Probe: a token count or a first vector of another type, which raises.
- Relay.Embed: the check of the served weights before it, which is that of `Relay.Chat`.
- The regular-expression tokenizer, chat templates, admission arithmetic, frontend, migrations and composition.
