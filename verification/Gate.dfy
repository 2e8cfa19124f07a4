/**
 One node agent's dispatcher (`dispatch.py`): the fields of the object, the program counters of the
 coroutines that share it, and every region between two awaits as one atomic step.
 */
module Gate {
  import opened Text

  /** What an operation may do is fixed with its id. */
  datatype Kind = Plain | Lifecycle | Restore(epoch: nat)

  datatype Op = Op(id: nat, kind: Kind)

  type CallId = nat

  datatype GateState = Serving | Draining | Blocked | Maintenance | Lost

  /** The fields of the `Dispatcher` object. */
  datatype Fields = Fields(
    gate: GateState,
    heldByOperator: bool,
    frozen: bool,
    frozenEpoch: Option<nat>,
    exclusive: Option<Op>,
    restoring: map<Op, nat>,
    admitted: set<Op>,
    sending: set<Op>,
    idle: bool,
    quiet: bool,
    interrupted: set<Op>,
    uncommitted: set<Op>,
    free: nat,
    queued: nat)
  {
    /** `_close_locked`: a hold outranks a block and a drain, and a block outranks a drain. */
    function CloseLocked(to: GateState): Fields {
      if gate == Lost || (frozen && to != Lost) || (to == Draining && gate == Blocked) then this
      else this.(gate := to)
    }

    /** `_freeze_locked` */
    function FreezeLocked(epoch: Option<nat>): Fields {
      if gate == Lost then this
      else this.(frozen := true, frozenEpoch := epoch, gate := Maintenance)
    }

    /** `_restorable_locked` */
    predicate Restorable(epoch: nat, holder: Option<Op>) {
      && gate == Maintenance
      && frozen
      && frozenEpoch == Some(epoch)
      && exclusive == holder
      && sending == {}
    }

    /** May `op` be promoted, as the gate stands under the barrier? */
    predicate Admits(op: Op) {
      match op.kind
      case Plain => gate == Serving
      case Lifecycle => gate == Draining
      case Restore(epoch) => Restorable(epoch, Some(op))
    }

    /** The final send barrier in `_run`: must the relay of `op` be withheld? */
    predicate Withholds(op: Op) {
      if op in restoring then !(frozen && frozenEpoch == Some(restoring[op])) else frozen
    }

    function Admit(op: Op): Fields {
      this.(idle := false, admitted := admitted + {op})
    }

    function BeginSend(op: Op): Fields {
      this.(sending := sending + {op}, quiet := false)
    }

    function EndSend(op: Op): Fields {
      this.(sending := sending - {op}, quiet := quiet || sending - {op} == {})
    }

    function Uncertain(op: Op): Fields {
      this.(uncommitted := uncommitted + {op}).CloseLocked(Blocked)
    }

    function Release(): Fields {
      this.(free := free + 1)
    }

    /** The end of `_run`: the slot, the admission and the idle event. */
    function Finish(op: Op): Fields {
      this.(free := free + 1, admitted := admitted - {op}, idle := idle || admitted - {op} == {},
            restoring := restoring - {op})
    }
  }

  // -- Control state ----------------------------------------------------------------

  datatype PromoteAnswer = Promoted | NotPromoted | Disowned | Closed(epoch: Option<nat>) | Raised

  /** Where a caller's `submit` or `exclusive` stands after its gate check. */
  datatype Phase =
    | Inserting
    | Waiting                     // for a slot, or for the node to be idle
    | Ready                       // a lifecycle call that saw the node idle
    | Holding                     // a slot is held, the barrier is not
    | Promoting                   // under the barrier, the promotion is in the database's hands
    | Answered(answer: PromoteAnswer)
    | Unsent                      // the accepted row is being cancelled
    | FailedPromotion             // the row of a promotion that raised is being settled
    | Unsettled                   // that settlement raised
    | Losing                      // the role is lost, the gate not yet closed
    | Leaving                     // the `finally` clause

  datatype Call = Call(op: Op, phase: Phase)

  /** `stored` says whether a completion carries a result to be kept. */
  datatype Outcome = Completed(stored: bool) | RuntimeRefused | NotSent | Uncertain | Withheld

  datatype SettleAnswer = Committed | NotOwner | Error

  /** Where the task of an admitted operation stands. */
  datatype Task =
    | Created                     // promoted; the final send barrier not yet reached
    | Sending                     // its relay talks to the runtime
    | Ended(outcome: Outcome)
    | Settling(outcome: Outcome)  // the outcome is being committed
    | Settled(outcome: Outcome, answer: SettleAnswer)
    | LosingRole
    | Finishing
    | Closing                     // a lifecycle operation about to end its exclusive mode

  /** The barrier lock: free, held over a promotion, or held over a reopening. */
  datatype Barrier = Open | Promoter(call: CallId) | Asking | Heard(unknown: bool)

  /** Who the node is exclusive to: a lifecycle call that has closed the gate, or its task. */
  datatype Owner = Nobody | ByCall(call: CallId) | ByTask(op: Op)

  datatype Process = Process(
    f: Fields,
    calls: map<CallId, Call>,
    tasks: map<Op, Task>,
    barrier: Barrier,
    owner: Owner,
    holders: set<CallId>,  // calls that hold a slot
    queue: set<CallId>,    // calls counted in `queued`
    slots: nat,            // max_inflight
    room: nat,             // max_queued
    forgotten: set<Op>)    // uncertain outcomes whose task was cancelled before it noted them
  {
    function Fld(f': Fields): Process {
      this.(f := f')
    }

    function To(c: CallId, phase: Phase): Process
      requires c in calls
    {
      this.(calls := calls[c := calls[c].(phase := phase)])
    }

    /** The slot goes back and the caller cleans up. */
    function GiveBackSlot(c: CallId, phase: Phase): Process
      requires c in calls
    {
      this.(f := f.Release(), holders := holders - {c}, calls := calls[c := calls[c].(phase := phase)])
    }

    function Run(op: Op, task: Task): Process {
      this.(tasks := tasks[op := task])
    }

    /** `_reopen_locked` up to its database read, which keeps the barrier. */
    function BeginReopen(): Process {
      if f.gate == Lost || f.exclusive.Some? then this
      else if f.frozen then Fld(f.(gate := Maintenance))
      else if f.uncommitted != {} then Fld(f.(gate := Blocked))
      else this.(barrier := Asking)
    }

    /** `_end_exclusive` */
    function EndExclusive(op: Op): Process {
      if f.exclusive != Some(op) then this
      else
        var freed := this.(f := f.(exclusive := None), owner := Nobody);
        if f.gate == Draining && !f.heldByOperator then freed.BeginReopen() else freed
    }
  }

  // -- Steps ---------------------------------------------------------------------------

  datatype InsertAnswer = Won | Exists | InsertDisowned | InsertError | InsertCancelled

  datatype GateEvent =
    | Freeze(epoch: Option<nat>)
    | Thaw
    | Drain
    | Reopen
    | Recheck
    | Block
    | LoseRole
    | Interrupt
    | AskAnswers(unknown: bool)   // any_unknown
    | AskFails
    | Conclude

  datatype CallEvent =
    | Submit(op: Op)
    | Exclusive(op: Op)
    | InsertAnswers(inserted: InsertAnswer)
    | GiveUp                      // deadline, gate change or cancellation
    | SeeIdle
    | TakeSlot
    | GiveBack                    // the slot arrived too late
    | TakeBarrier(lockHeld: bool)
    | MissBarrier                 // cancelled while waiting for it
    | PromoteAnswers(answer: PromoteAnswer)
    | Promote
    | CancelAnswers(cancelled: SettleAnswer)
    | RepairAnswers(repaired: bool)
    | NoteUncertain
    | CallLoses
    | Leave

  datatype TaskEvent =
    | Start
    | EndSend(outcome: Outcome)
    | EnterSettle
    | AbandonNote                 // cancelled while somebody else holds the barrier under which it would note it
    | SettleAnswers(settled: SettleAnswer)
    | SettleResumes
    | AbandonSettle
    | TaskLoses
    | FinishTask
    | CloseTask

  datatype Event = OfGate(g: GateEvent) | OfCall(c: CallId, call: CallEvent) | OfTask(op: Op, task: TaskEvent)

  predicate At(p: Process, c: CallId, phase: Phase) {
    c in p.calls && p.calls[c].phase == phase
  }

  predicate GateEnabled(p: Process, e: GateEvent) {
    match e
    case Freeze(_) | Thaw | Drain | Reopen | Recheck | Block | LoseRole => p.barrier == Open
    case Interrupt => p.barrier == Open && p.f.frozen
    case AskAnswers(_) | AskFails => p.barrier == Asking
    case Conclude => p.barrier.Heard?
  }

  predicate CallEnabled(p: Process, c: CallId, e: CallEvent) {
    match e
    case Submit(op) =>
      p.barrier == Open && c !in p.calls && op.kind == Plain && p.f.gate == Serving && p.f.queued < p.room
    case Exclusive(op) => p.barrier == Open && c !in p.calls && ExclusiveAllowed(p.f, op)
    case InsertAnswers(_) => At(p, c, Inserting)
    case GiveUp => At(p, c, Waiting) || At(p, c, Ready)
    case SeeIdle => At(p, c, Waiting) && p.calls[c].op.kind != Plain && p.f.idle
    case TakeSlot =>
      p.f.free > 0 && c in p.calls && p.calls[c].phase == if p.calls[c].op.kind == Plain then Waiting else Ready
    case GiveBack | MissBarrier => At(p, c, Holding)
    case TakeBarrier(_) => At(p, c, Holding) && p.barrier == Open
    case PromoteAnswers(_) => At(p, c, Promoting)
    case Promote => c in p.calls && p.calls[c].phase.Answered?
                    && (p.calls[c].phase.answer == Promoted ==> p.calls[c].op !in p.tasks)
    case CancelAnswers(_) => At(p, c, Unsent)
    case RepairAnswers(_) => At(p, c, FailedPromotion)
    case NoteUncertain => At(p, c, Unsettled) && p.barrier == Open
    case CallLoses => At(p, c, Losing) && p.barrier == Open
    case Leave => At(p, c, Leaving) && (p.calls[c].op.kind != Plain ==> p.barrier == Open)
  }

  predicate TaskEnabled(p: Process, op: Op, e: TaskEvent) {
    && op in p.tasks
    && match e
       case Start => p.tasks[op] == Created
       case EndSend(outcome) => p.tasks[op] == Sending && outcome != Withheld
       case EnterSettle => p.tasks[op].Ended? && (p.tasks[op].outcome == Outcome.Uncertain ==> p.barrier == Open)
       case AbandonNote => p.tasks[op] == Ended(Outcome.Uncertain) && p.barrier != Open
       case SettleAnswers(_) | AbandonSettle => p.tasks[op].Settling?
       case SettleResumes => p.tasks[op].Settled?
       case TaskLoses => p.tasks[op] == LosingRole && p.barrier == Open
       case FinishTask => p.tasks[op] == Finishing
       case CloseTask => p.tasks[op] == Closing && p.barrier == Open
  }

  predicate ExclusiveAllowed(f: Fields, op: Op) {
    match op.kind
    case Plain => false
    case Lifecycle => f.gate == Serving
    case Restore(epoch) => f.Restorable(epoch, None)
  }

  /** When a step can be taken. */
  predicate Enabled(p: Process, e: Event) {
    match e
    case OfGate(g) => GateEnabled(p, g)
    case OfCall(c, call) => CallEnabled(p, c, call)
    case OfTask(op, task) => TaskEnabled(p, op, task)
  }

  function Thawed(p: Process): Process {
    if !p.f.frozen then p
    else
      var f := p.f.(frozen := false, frozenEpoch := None, interrupted := {});
      if f.gate == Lost then p.Fld(f)
      else if f.exclusive.Some? || f.heldByOperator then p.Fld(f.(gate := Draining))
      else p.Fld(f).BeginReopen()
  }

  function Queued(p: Process, c: CallId, op: Op): Process {
    p.(calls := p.calls[c := Call(op, Inserting)], queue := p.queue + {c}, f := p.f.(queued := p.f.queued + 1))
  }

  function MadeExclusive(p: Process, c: CallId, op: Op): Process {
    var claimed := p.(calls := p.calls[c := Call(op, Inserting)], owner := ByCall(c),
                      f := p.f.(exclusive := Some(op)));
    match op.kind
    case Restore(epoch) => claimed.Fld(claimed.f.(restoring := p.f.restoring[op := epoch]))
    case _ => claimed.Fld(claimed.f.CloseLocked(Draining))
  }

  function TookBarrier(p: Process, c: CallId, lockHeld: bool): Process
    requires c in p.calls
  {
    if !p.f.Admits(p.calls[c].op) then p.GiveBackSlot(c, Unsent)
    else if !lockHeld then p.Fld(p.f.(gate := Lost)).GiveBackSlot(c, Unsent)
    else p.To(c, Promoting).(barrier := Promoter(c))
  }

  /** What the process does with the answer to a promotion, still under the barrier. */
  function AfterPromotion(p: Process, c: CallId): Process
    requires c in p.calls && p.calls[c].phase.Answered?
  {
    var op := p.calls[c].op;
    var open := p.(barrier := Open);
    match p.calls[c].phase.answer
    case Promoted =>
      var admitted := open.(f := open.f.Admit(op), holders := p.holders - {c}).Run(op, Created);
      if op.kind == Plain then admitted.To(c, Leaving) else admitted.(calls := p.calls - {c}, owner := ByTask(op))
    case NotPromoted => open.GiveBackSlot(c, Unsent)
    case Disowned => open.Fld(p.f.(gate := Lost)).GiveBackSlot(c, Unsent)
    case Closed(epoch) =>
      (if op.kind.Restore? then open else open.Fld(p.f.FreezeLocked(epoch))).GiveBackSlot(c, Unsent)
    case Raised => open.GiveBackSlot(c, FailedPromotion)
  }

  function Left(p: Process, c: CallId): Process
    requires c in p.calls
  {
    var op := p.calls[c].op;
    var gone := p.(calls := p.calls - {c});
    if op.kind == Plain then
      gone.(queue := p.queue - {c}, f := p.f.(queued := if p.f.queued > 0 then p.f.queued - 1 else 0))
    else gone.Fld(p.f.(restoring := p.f.restoring - {op})).EndExclusive(op)
  }

  function Started(p: Process, op: Op): Process {
    if p.f.Withholds(op) then p.Run(op, Ended(Withheld))
    else p.Fld(p.f.BeginSend(op)).Run(op, Sending)
  }

  function SettleEntered(p: Process, op: Op): Process
    requires op in p.tasks && p.tasks[op].Ended?
  {
    var o := p.tasks[op].outcome;
    (if o == Outcome.Uncertain then p.Fld(p.f.Uncertain(op)) else p).Run(op, Settling(o))
  }

  function SettleResumed(p: Process, op: Op): Process
    requires op in p.tasks && p.tasks[op].Settled?
  {
    var o := p.tasks[op].outcome;
    match p.tasks[op].answer
    case Committed =>
      (if o == Outcome.Uncertain then p.Fld(p.f.(uncommitted := p.f.uncommitted - {op})) else p).Run(op, Finishing)
    case NotOwner => p.Run(op, LosingRole)
    case Error => p.Run(op, Settling(o))
  }

  function TaskFinished(p: Process, op: Op): Process {
    var done := p.Fld(p.f.Finish(op));
    if op.kind == Plain then done.(tasks := p.tasks - {op}) else done.Run(op, Closing)
  }

  function ApplyGate(p: Process, e: GateEvent): Process
    requires GateEnabled(p, e)
  {
    match e
    case Freeze(epoch) => p.Fld(p.f.FreezeLocked(epoch))
    case Thaw => Thawed(p)
    case Drain => p.Fld(p.f.(heldByOperator := true).CloseLocked(Draining))
    case Reopen => p.Fld(p.f.(heldByOperator := false)).BeginReopen()
    case Recheck =>
      if p.f.gate != Draining || p.f.exclusive.Some? || p.f.heldByOperator then p else p.BeginReopen()
    case Block => p.Fld(p.f.CloseLocked(Blocked))
    case LoseRole => p.Fld(p.f.CloseLocked(Lost))
    case Interrupt => p.Fld(p.f.(interrupted := p.f.interrupted + p.f.sending))
    case AskAnswers(unknown) => p.(barrier := Heard(unknown))
    case AskFails => p.(barrier := Open)
    case Conclude => p.(f := p.f.(gate := if p.barrier.unknown then Blocked else Serving), barrier := Open)
  }

  function AfterInsert(p: Process, c: CallId, inserted: InsertAnswer): Phase
    requires c in p.calls
  {
    match inserted
    case Won => Waiting
    case Exists | InsertError => Leaving
    case InsertDisowned => Losing
    case InsertCancelled => if p.calls[c].op.kind == Plain then Unsent else Leaving
  }

  function ApplyCall(p: Process, c: CallId, e: CallEvent): Process
    requires CallEnabled(p, c, e)
  {
    match e
    case Submit(op) => Queued(p, c, op)
    case Exclusive(op) => MadeExclusive(p, c, op)
    case InsertAnswers(inserted) => p.To(c, AfterInsert(p, c, inserted))
    case GiveUp => p.To(c, Unsent)
    case SeeIdle => p.To(c, Ready)
    case TakeSlot => p.(f := p.f.(free := p.f.free - 1), holders := p.holders + {c}).To(c, Holding)
    case GiveBack => p.GiveBackSlot(c, Unsent)
    case TakeBarrier(lockHeld) => TookBarrier(p, c, lockHeld)
    case MissBarrier => p.GiveBackSlot(c, FailedPromotion)
    case PromoteAnswers(answer) => p.To(c, Answered(answer))
    case Promote => AfterPromotion(p, c)
    case CancelAnswers(cancelled) => p.To(c, if cancelled == NotOwner then Losing else Leaving)
    case RepairAnswers(repaired) => p.To(c, if repaired then Leaving else Unsettled)
    case NoteUncertain => p.Fld(p.f.Uncertain(p.calls[c].op)).To(c, Leaving)
    case CallLoses => p.Fld(p.f.CloseLocked(Lost)).To(c, Leaving)
    case Leave => Left(p, c)
  }

  function ApplyTask(p: Process, op: Op, e: TaskEvent): Process
    requires TaskEnabled(p, op, e)
  {
    match e
    case Start => Started(p, op)
    case EndSend(outcome) => p.Fld(p.f.EndSend(op)).Run(op, Ended(outcome))
    case EnterSettle => SettleEntered(p, op)
    case AbandonNote => p.(forgotten := p.forgotten + {op}).Run(op, Finishing)
    case SettleAnswers(settled) => p.Run(op, Settled(p.tasks[op].outcome, settled))
    case SettleResumes => SettleResumed(p, op)
    case AbandonSettle => p.Run(op, Finishing)
    case TaskLoses => p.Fld(p.f.CloseLocked(Lost)).Run(op, Finishing)
    case FinishTask => TaskFinished(p, op)
    case CloseTask => p.(tasks := p.tasks - {op}).EndExclusive(op)
  }

  function Apply(p: Process, e: Event): Process
    requires Enabled(p, e)
  {
    match e
    case OfGate(g) => ApplyGate(p, g)
    case OfCall(c, call) => ApplyCall(p, c, call)
    case OfTask(op, task) => ApplyTask(p, op, task)
  }
}
