/** What every step of one dispatcher keeps, and what follows for every run of it. */
module GateSafety {
  import opened Text
  import opened Gate

  predicate HoldsSlot(phase: Phase) {
    phase == Holding || UnderBarrier(phase)
  }

  predicate UnderBarrier(phase: Phase) {
    phase == Promoting || phase.Answered?
  }

  type Calls = map<CallId, Call>
  type Tasks = map<Op, Task>

  /** The gate is written only under the barrier, and whatever closes it keeps it from serving. */
  ghost predicate GateOk(f: Fields, barrier: Barrier) {
    && (f.frozen ==> f.gate == Maintenance || f.gate == Lost)
    && (f.exclusive.Some? ==> f.gate != Serving)
    && (f.uncommitted != {} ==> f.gate != Serving)
    && (barrier == Asking || barrier.Heard? ==>
          !f.frozen && f.exclusive.None? && f.uncommitted == {} && f.gate != Lost)
  }

  /** Whoever is under the barrier holds it, and the gate admits what it promotes. */
  ghost predicate PromoterOk(f: Fields, calls: Calls, barrier: Barrier) {
    && (forall c | c in calls && UnderBarrier(calls[c].phase) :: barrier == Promoter(c))
    && (barrier.Promoter? ==>
          barrier.call in calls && UnderBarrier(calls[barrier.call].phase) && f.Admits(calls[barrier.call].op))
  }

  /** The registers of the object describe its tasks. */
  ghost predicate TasksOk(admitted: set<Op>, sending: set<Op>, idle: bool, quiet: bool, tasks: Tasks) {
    && (forall op :: op in admitted <==> op in tasks && tasks[op] != Closing)
    && (forall op :: op in sending <==> op in tasks && tasks[op] == Sending)
    && (idle <==> admitted == {})
    && (quiet <==> sending == {})
  }

  /** Free slots, slots held by calls and slots of admitted tasks are all there are. */
  ghost predicate SlotsOk(free: nat, admitted: set<Op>, calls: Calls, holders: set<CallId>, slots: nat) {
    && (forall c :: c in holders <==> c in calls && HoldsSlot(calls[c].phase))
    && free + |holders| + |admitted| == slots
  }

  ghost predicate QueueOk(queued: nat, calls: Calls, queue: set<CallId>, room: nat) {
    && (forall c :: c in queue <==> c in calls && calls[c].op.kind == Plain)
    && queued == |queue| <= room
  }

  /** The exclusive mode has exactly one owner, and past the wait for an idle node nothing else is admitted. */
  ghost predicate OwnerOk(f: Fields, calls: Calls, tasks: Tasks, owner: Owner) {
    && (forall c | c in calls :: calls[c].op.kind != Plain <==> owner == ByCall(c))
    && (forall op | op in tasks :: op.kind != Plain <==> owner == ByTask(op))
    && match owner
       case Nobody => f.exclusive == None && f.restoring == map[]
       case ByCall(c) =>
         && c in calls
         && f.exclusive == Some(calls[c].op)
         && f.restoring == Restoring(calls[c].op)
         && (calls[c].phase == Ready || HoldsSlot(calls[c].phase) ==> f.admitted == {})
       case ByTask(op) =>
         && op in tasks
         && f.exclusive == Some(op)
         && (if tasks[op] == Closing then f.restoring == map[] else f.restoring == Restoring(op) && f.admitted == {op})
  }

  function Restoring(op: Op): map<Op, nat> {
    match op.kind
    case Restore(epoch) => map[op := epoch]
    case _ => map[]
  }

  predicate SettlesUncertain(t: Task) {
    (t.Settling? || t.Settled?) && t.outcome == Outcome.Uncertain
  }

  /** An uncertain outcome being settled is known here until it is committed. */
  ghost predicate UncertainOk(uncommitted: set<Op>, tasks: Tasks) {
    && (forall op | op in tasks && SettlesUncertain(tasks[op]) :: op in uncommitted)
    && (forall op | op in tasks && tasks[op] == Closing :: op.kind != Plain)
  }

  ghost predicate Valid(p: Process) {
    && GateOk(p.f, p.barrier)
    && PromoterOk(p.f, p.calls, p.barrier)
    && TasksOk(p.f.admitted, p.f.sending, p.f.idle, p.f.quiet, p.tasks)
    && SlotsOk(p.f.free, p.f.admitted, p.calls, p.holders, p.slots)
    && QueueOk(p.f.queued, p.calls, p.queue, p.room)
    && OwnerOk(p.f, p.calls, p.tasks, p.owner)
    && UncertainOk(p.f.uncommitted, p.tasks)
  }

  // -- Steps of the gate ---------------------------------------------------------------

  /** Only the gate, the hold and the operator's drain differ. */
  predicate SameRegisters(f: Fields, g: Fields) {
    && f.exclusive == g.exclusive && f.restoring == g.restoring && f.uncommitted == g.uncommitted
    && f.admitted == g.admitted && f.sending == g.sending && f.idle == g.idle && f.quiet == g.quiet
    && f.free == g.free && f.queued == g.queued
  }

  lemma GateChanges(p: Process, f': Fields)
    requires Valid(p) && p.barrier == Open && SameRegisters(p.f, f') && GateOk(f', Open)
    ensures Valid(p.Fld(f'))
  {
  }

  lemma ReopeningBegins(p: Process)
    requires Valid(p) && p.barrier == Open
    ensures Valid(p.BeginReopen())
  {
    if p.f.gate != Lost && p.f.exclusive.None? {
      if p.f.frozen {
        GateChanges(p, p.f.(gate := Maintenance));
      } else if p.f.uncommitted != {} {
        GateChanges(p, p.f.(gate := Blocked));
      }
    }
  }

  lemma ThawKeeps(p: Process)
    requires Valid(p) && p.barrier == Open
    ensures Valid(Thawed(p))
  {
    var f := p.f.(frozen := false, frozenEpoch := None, interrupted := {});
    if p.f.frozen {
      GateChanges(p, f);
      if f.gate != Lost && (f.exclusive.Some? || f.heldByOperator) {
        GateChanges(p, f.(gate := Draining));
      } else if f.gate != Lost {
        ReopeningBegins(p.Fld(f));
      }
    }
  }

  lemma ClosingKeeps(p: Process, to: GateState)
    requires Valid(p) && p.barrier == Open && to != Serving
    requires to == Maintenance ==> p.f.frozen
    ensures Valid(p.Fld(p.f.CloseLocked(to)))
  {
    GateChanges(p, p.f.CloseLocked(to));
  }

  lemma FreezeKeeps(p: Process, epoch: Option<nat>)
    requires Valid(p) && p.barrier == Open
    ensures Valid(p.Fld(p.f.FreezeLocked(epoch)))
  {
    GateChanges(p, p.f.FreezeLocked(epoch));
  }

  lemma ReopenKeeps(p: Process)
    requires Valid(p) && p.barrier == Open
    ensures Valid(p.Fld(p.f.(heldByOperator := false)).BeginReopen())
  {
    GateChanges(p, p.f.(heldByOperator := false));
    ReopeningBegins(p.Fld(p.f.(heldByOperator := false)));
  }

  lemma AskedKeeps(p: Process, e: GateEvent)
    requires Valid(p) && GateEnabled(p, e) && (e.AskAnswers? || e.AskFails? || e.Conclude?)
    ensures Valid(ApplyGate(p, e))
  {
  }

  lemma GateKeeps(p: Process, e: GateEvent)
    requires Valid(p) && GateEnabled(p, e)
    ensures Valid(ApplyGate(p, e))
  {
    match e
    case Freeze(epoch) => FreezeKeeps(p, epoch);
    case Thaw => ThawKeeps(p);
    case Drain =>
      GateChanges(p, p.f.(heldByOperator := true));
      ClosingKeeps(p.Fld(p.f.(heldByOperator := true)), Draining);
    case Reopen => ReopenKeeps(p);
    case Recheck => ReopeningBegins(p);
    case Block => ClosingKeeps(p, Blocked);
    case LoseRole => ClosingKeeps(p, Lost);
    case Interrupt => GateChanges(p, p.f.(interrupted := p.f.interrupted + p.f.sending));
    case _ => AskedKeeps(p, e);
  }

  // -- Steps of a call -------------------------------------------------------------------

  predicate Light(phase: Phase) {
    !HoldsSlot(phase) && phase != Ready
  }

  lemma CallMoves(p: Process, c: CallId, phase: Phase)
    requires Valid(p) && c in p.calls && !HoldsSlot(p.calls[c].phase)
    requires Light(phase) || (phase == Ready && p.f.admitted == {})
    ensures Valid(p.To(c, phase))
  {
  }

  lemma SubmitKeeps(p: Process, c: CallId, op: Op)
    requires Valid(p) && CallEnabled(p, c, Submit(op))
    ensures Valid(Queued(p, c, op))
  {
  }

  /** A new call that holds nothing yet leaves everything but the ownership as it was. */
  lemma CallArrives(p: Process, c: CallId, op: Op, f': Fields)
    requires Valid(p) && p.barrier == Open && c !in p.calls && op.kind != Plain
    ensures PromoterOk(f', p.calls[c := Call(op, Inserting)], Open)
    ensures SlotsOk(p.f.free, p.f.admitted, p.calls[c := Call(op, Inserting)], p.holders, p.slots)
    ensures QueueOk(p.f.queued, p.calls[c := Call(op, Inserting)], p.queue, p.room)
  {
  }

  lemma OwnerArrives(p: Process, c: CallId, op: Op, f': Fields)
    requires Valid(p) && c !in p.calls && op.kind != Plain && p.f.exclusive.None?
    requires f'.exclusive == Some(op) && f'.restoring == Restoring(op)
    ensures OwnerOk(f', p.calls[c := Call(op, Inserting)], p.tasks, ByCall(c))
  {
    assert p.owner == Nobody;
  }

  lemma ExclusiveKeeps(p: Process, c: CallId, op: Op)
    requires Valid(p) && CallEnabled(p, c, Exclusive(op))
    ensures Valid(MadeExclusive(p, c, op))
  {
    var p' := MadeExclusive(p, c, op);
    assert p.owner == Nobody && p.f.restoring == map[];
    CallArrives(p, c, op, p'.f);
    OwnerArrives(p, c, op, p'.f);
  }

  lemma SlotTaken(free: nat, admitted: set<Op>, calls: Calls, holders: set<CallId>, slots: nat, c: CallId)
    requires SlotsOk(free, admitted, calls, holders, slots) && free > 0 && c in calls && !HoldsSlot(calls[c].phase)
    ensures SlotsOk(free - 1, admitted, calls[c := calls[c].(phase := Holding)], holders + {c}, slots)
  {
  }

  /** Who owns the node does not depend on how far a call got that already waits for nobody. */
  lemma OwnerBlindToPhase(f: Fields, calls: Calls, tasks: Tasks, owner: Owner, c: CallId, phase: Phase)
    requires OwnerOk(f, calls, tasks, owner) && c in calls
    requires phase == Ready || HoldsSlot(phase) ==>
               calls[c].op.kind == Plain || calls[c].phase == Ready || HoldsSlot(calls[c].phase)
    ensures OwnerOk(f, calls[c := calls[c].(phase := phase)], tasks, owner)
  {
  }

  lemma QueueBlindToPhase(queued: nat, calls: Calls, queue: set<CallId>, room: nat, c: CallId, phase: Phase)
    requires QueueOk(queued, calls, queue, room) && c in calls
    ensures QueueOk(queued, calls[c := calls[c].(phase := phase)], queue, room)
  {
  }

  lemma PromoterBlindToSlots(f: Fields, free: nat, calls: Calls, barrier: Barrier, c: CallId, phase: Phase)
    requires PromoterOk(f, calls, barrier) && c in calls && !UnderBarrier(calls[c].phase) && !UnderBarrier(phase)
    ensures PromoterOk(f.(free := free), calls[c := calls[c].(phase := phase)], barrier)
  {
  }

  lemma TakeSlotKeeps(p: Process, c: CallId)
    requires Valid(p) && CallEnabled(p, c, TakeSlot)
    ensures Valid(p.(f := p.f.(free := p.f.free - 1), holders := p.holders + {c}).To(c, Holding))
  {
    var calls', f' := p.calls[c := p.calls[c].(phase := Holding)], p.f.(free := p.f.free - 1);
    SlotTaken(p.f.free, p.f.admitted, p.calls, p.holders, p.slots, c);
    QueueBlindToPhase(p.f.queued, p.calls, p.queue, p.room, c, Holding);
    PromoterBlindToSlots(p.f, p.f.free - 1, p.calls, p.barrier, c, Holding);
    OwnerBlindToPhase(p.f, p.calls, p.tasks, p.owner, c, Holding);
    OwnerBlindToSending(p.f, f', calls', p.tasks, p.owner);
    assert p.(f := f', holders := p.holders + {c}).To(c, Holding)
        == p.(f := f', holders := p.holders + {c}, calls := calls');
  }

  function BarrierAfter(p: Process, c: CallId): Barrier
    requires c in p.calls
  {
    if UnderBarrier(p.calls[c].phase) then Open else p.barrier
  }

  /** A call that gives its slot back, and the barrier if it held it, perhaps after closing the gate. */
  lemma GivesBack(p: Process, c: CallId, f': Fields, phase: Phase)
    requires Valid(p) && c in p.calls && HoldsSlot(p.calls[c].phase) && Light(phase)
    requires SameRegisters(p.f, f') && (f' != p.f ==> BarrierAfter(p, c) == Open)
    requires GateOk(f', BarrierAfter(p, c))
    ensures Valid(p.(barrier := BarrierAfter(p, c)).Fld(f').GiveBackSlot(c, phase))
  {
    SlotReturned(p.f.free, p.f.admitted, p.calls, p.holders, p.slots, c, phase);
    QueueBlindToPhase(p.f.queued, p.calls, p.queue, p.room, c, phase);
    OwnerBlindToPhase(p.f, p.calls, p.tasks, p.owner, c, phase);
    OwnerBlindToSending(p.f, f'.Release(), p.calls[c := p.calls[c].(phase := phase)], p.tasks, p.owner);
  }

  lemma SlotReturned(free: nat, admitted: set<Op>, calls: Calls, holders: set<CallId>, slots: nat, c: CallId,
                     phase: Phase)
    requires SlotsOk(free, admitted, calls, holders, slots) && c in calls && HoldsSlot(calls[c].phase) && Light(phase)
    ensures SlotsOk(free + 1, admitted, calls[c := calls[c].(phase := phase)], holders - {c}, slots)
  {
    assert c in holders && |holders - {c}| == |holders| - 1;
  }

  lemma BarrierTaken(p: Process, c: CallId)
    requires Valid(p) && At(p, c, Holding) && p.barrier == Open && p.f.Admits(p.calls[c].op)
    ensures Valid(p.To(c, Promoting).(barrier := Promoter(c)))
  {
    var p' := p.To(c, Promoting);
    assert SlotsOk(p.f.free, p.f.admitted, p'.calls, p.holders, p.slots);
    assert QueueOk(p.f.queued, p'.calls, p.queue, p.room);
    assert OwnerOk(p.f, p'.calls, p.tasks, p.owner);
  }

  lemma TakeBarrierKeeps(p: Process, c: CallId, lockHeld: bool)
    requires Valid(p) && CallEnabled(p, c, TakeBarrier(lockHeld))
    ensures Valid(TookBarrier(p, c, lockHeld))
  {
    if !p.f.Admits(p.calls[c].op) {
      GivesBack(p, c, p.f, Unsent);
    } else if !lockHeld {
      GivesBack(p, c, p.f.(gate := Lost), Unsent);
    } else {
      BarrierTaken(p, c);
    }
  }

  lemma SlotHandedOver(free: nat, admitted: set<Op>, calls: Calls, holders: set<CallId>, slots: nat, c: CallId,
                       calls': Calls, op: Op)
    requires SlotsOk(free, admitted, calls, holders, slots) && c in calls && HoldsSlot(calls[c].phase)
             && op !in admitted
    requires calls' == calls - {c} || calls' == calls[c := calls[c].(phase := Leaving)]
    ensures SlotsOk(free, admitted + {op}, calls', holders - {c}, slots)
  {
    assert c in holders && |holders - {c}| == |holders| - 1;
  }

  lemma TaskCreated(admitted: set<Op>, sending: set<Op>, idle: bool, quiet: bool, tasks: Tasks, uncommitted: set<Op>,
                    op: Op)
    requires TasksOk(admitted, sending, idle, quiet, tasks) && UncertainOk(uncommitted, tasks) && op !in tasks
    ensures TasksOk(admitted + {op}, sending, false, quiet, tasks[op := Created])
    ensures UncertainOk(uncommitted, tasks[op := Created])
  {
  }

  lemma PlainOwner(p: Process, c: CallId)
    requires Valid(p) && CallEnabled(p, c, Promote) && p.calls[c].phase.answer == Promoted
    requires p.calls[c].op.kind == Plain
    ensures var op := p.calls[c].op;
      OwnerOk(p.f.Admit(op), p.calls[c := p.calls[c].(phase := Leaving)], p.tasks[op := Created], p.owner)
  {
    assert p.f.gate == Serving && p.f.exclusive.None?;
  }

  lemma PlainPromoted(p: Process, c: CallId)
    requires Valid(p) && CallEnabled(p, c, Promote) && p.calls[c].phase.answer == Promoted
    requires p.calls[c].op.kind == Plain
    ensures Valid(AfterPromotion(p, c))
  {
    var op, calls' := p.calls[c].op, p.calls[c := p.calls[c].(phase := Leaving)];
    SlotHandedOver(p.f.free, p.f.admitted, p.calls, p.holders, p.slots, c, calls', op);
    TaskCreated(p.f.admitted, p.f.sending, p.f.idle, p.f.quiet, p.tasks, p.f.uncommitted, op);
    PlainOwner(p, c);
    assert PromoterOk(p.f.Admit(op), calls', Open);
    assert QueueOk(p.f.queued, calls', p.queue, p.room);
  }

  lemma ExclusivePromoted(p: Process, c: CallId)
    requires Valid(p) && CallEnabled(p, c, Promote) && p.calls[c].phase.answer == Promoted
    requires p.calls[c].op.kind != Plain
    ensures Valid(AfterPromotion(p, c))
  {
    assert p.owner == ByCall(c) && p.tasks == p.tasks;
  }

  lemma UnpromotedKeeps(p: Process, c: CallId)
    requires Valid(p) && CallEnabled(p, c, Promote) && p.calls[c].phase.answer != Promoted
    ensures Valid(AfterPromotion(p, c))
  {
    match p.calls[c].phase.answer
    case NotPromoted => GivesBack(p, c, p.f, Unsent);
    case Disowned => GivesBack(p, c, p.f.(gate := Lost), Unsent);
    case Closed(epoch) =>
      GivesBack(p, c, if p.calls[c].op.kind.Restore? then p.f else p.f.FreezeLocked(epoch), Unsent);
    case Raised => GivesBack(p, c, p.f, FailedPromotion);
  }

  lemma PromoteKeeps(p: Process, c: CallId)
    requires Valid(p) && CallEnabled(p, c, Promote)
    ensures Valid(AfterPromotion(p, c))
  {
    if p.calls[c].phase.answer != Promoted {
      UnpromotedKeeps(p, c);
    } else if p.calls[c].op.kind == Plain {
      PlainPromoted(p, c);
    } else {
      ExclusivePromoted(p, c);
    }
  }

  lemma PromoteAnswersKeeps(p: Process, c: CallId, answer: PromoteAnswer)
    requires Valid(p) && CallEnabled(p, c, PromoteAnswers(answer))
    ensures Valid(p.To(c, Answered(answer)))
  {
  }

  lemma UncertainNoted(p: Process, op: Op)
    requires Valid(p) && p.barrier == Open
    ensures Valid(p.Fld(p.f.Uncertain(op)))
  {
  }

  lemma ExclusiveEnds(p: Process, op: Op)
    requires p.barrier == Open && p.f.exclusive == Some(op)
    requires Valid(p.(f := p.f.(exclusive := None), owner := Nobody))
    ensures Valid(p.EndExclusive(op))
  {
    var freed := p.(f := p.f.(exclusive := None), owner := Nobody);
    if p.f.gate == Draining && !p.f.heldByOperator {
      ReopeningBegins(freed);
    }
  }

  lemma CallDeparts(p: Process, c: CallId)
    requires Valid(p) && At(p, c, Leaving)
    ensures PromoterOk(p.f, p.calls - {c}, p.barrier)
    ensures SlotsOk(p.f.free, p.f.admitted, p.calls - {c}, p.holders, p.slots)
  {
  }

  lemma PlainLeaves(p: Process, c: CallId)
    requires Valid(p) && CallEnabled(p, c, Leave) && p.calls[c].op.kind == Plain
    ensures Valid(Left(p, c))
  {
    CallDeparts(p, c);
    assert c in p.queue && |p.queue - {c}| == |p.queue| - 1;
    assert QueueOk(p.f.queued - 1, p.calls - {c}, p.queue - {c}, p.room);
  }

  lemma OwnerLeaves(p: Process, c: CallId)
    requires Valid(p) && CallEnabled(p, c, Leave) && p.calls[c].op.kind != Plain
    ensures Valid(Left(p, c))
  {
    var op := p.calls[c].op;
    CallDeparts(p, c);
    assert p.owner == ByCall(c) && p.f.restoring - {op} == map[];
    assert QueueOk(p.f.queued, p.calls - {c}, p.queue, p.room);
    ExclusiveEnds(p.(calls := p.calls - {c}).Fld(p.f.(restoring := p.f.restoring - {op})), op);
  }

  lemma LeaveKeeps(p: Process, c: CallId)
    requires Valid(p) && CallEnabled(p, c, Leave)
    ensures Valid(Left(p, c))
  {
    if p.calls[c].op.kind == Plain { PlainLeaves(p, c); } else { OwnerLeaves(p, c); }
  }

  predicate BeforeSlot(e: CallEvent) {
    e.Submit? || e.Exclusive? || e.InsertAnswers? || e.GiveUp? || e.SeeIdle? || e.TakeSlot? || e.GiveBack?
  }

  predicate Cleanup(e: CallEvent) {
    e.CancelAnswers? || e.RepairAnswers? || e.NoteUncertain? || e.CallLoses? || e.Leave?
  }

  lemma ArrivalKeeps(p: Process, c: CallId, e: CallEvent)
    requires Valid(p) && CallEnabled(p, c, e) && (e.Submit? || e.Exclusive?)
    ensures Valid(ApplyCall(p, c, e))
  {
    if e.Submit? { SubmitKeeps(p, c, e.op); } else { ExclusiveKeeps(p, c, e.op); }
  }

  lemma SlotMovesKeep(p: Process, c: CallId, e: CallEvent)
    requires Valid(p) && CallEnabled(p, c, e) && (e == TakeSlot || e == GiveBack)
    ensures Valid(ApplyCall(p, c, e))
  {
    if e == TakeSlot { TakeSlotKeeps(p, c); } else { GivesBack(p, c, p.f, Unsent); }
  }

  lemma BeforeSlotKeeps(p: Process, c: CallId, e: CallEvent)
    requires Valid(p) && CallEnabled(p, c, e) && (e.InsertAnswers? || e == GiveUp || e == SeeIdle)
    ensures Valid(ApplyCall(p, c, e))
  {
    match e
    case InsertAnswers(inserted) => CallMoves(p, c, AfterInsert(p, c, inserted));
    case GiveUp => CallMoves(p, c, Unsent);
    case SeeIdle => CallMoves(p, c, Ready);
  }

  lemma NotedKeeps(p: Process, c: CallId)
    requires Valid(p) && CallEnabled(p, c, NoteUncertain)
    ensures Valid(p.Fld(p.f.Uncertain(p.calls[c].op)).To(c, Leaving))
  {
    UncertainNoted(p, p.calls[c].op);
    CallMoves(p.Fld(p.f.Uncertain(p.calls[c].op)), c, Leaving);
  }

  lemma CallLosesKeeps(p: Process, c: CallId)
    requires Valid(p) && CallEnabled(p, c, CallLoses)
    ensures Valid(p.Fld(p.f.CloseLocked(Lost)).To(c, Leaving))
  {
    ClosingKeeps(p, Lost);
    CallMoves(p.Fld(p.f.CloseLocked(Lost)), c, Leaving);
  }

  lemma CleanupKeeps(p: Process, c: CallId, e: CallEvent)
    requires Valid(p) && CallEnabled(p, c, e) && Cleanup(e)
    ensures Valid(ApplyCall(p, c, e))
  {
    match e
    case CancelAnswers(cancelled) => CallMoves(p, c, if cancelled == NotOwner then Losing else Leaving);
    case RepairAnswers(repaired) => CallMoves(p, c, if repaired then Leaving else Unsettled);
    case NoteUncertain => NotedKeeps(p, c);
    case CallLoses => CallLosesKeeps(p, c);
    case Leave => LeaveKeeps(p, c);
  }

  lemma UnderBarrierKeeps(p: Process, c: CallId, e: CallEvent)
    requires Valid(p) && CallEnabled(p, c, e) && !BeforeSlot(e) && !Cleanup(e)
    ensures Valid(ApplyCall(p, c, e))
  {
    match e
    case TakeBarrier(lockHeld) => TakeBarrierKeeps(p, c, lockHeld);
    case MissBarrier => GivesBack(p, c, p.f, FailedPromotion);
    case PromoteAnswers(answer) => PromoteAnswersKeeps(p, c, answer);
    case Promote => PromoteKeeps(p, c);
  }

  lemma CallKeeps(p: Process, c: CallId, e: CallEvent)
    requires Valid(p) && CallEnabled(p, c, e)
    ensures Valid(ApplyCall(p, c, e))
  {
    if e.Submit? || e.Exclusive? {
      ArrivalKeeps(p, c, e);
    } else if e == TakeSlot || e == GiveBack {
      SlotMovesKeep(p, c, e);
    } else if BeforeSlot(e) {
      BeforeSlotKeeps(p, c, e);
    } else if Cleanup(e) {
      CleanupKeeps(p, c, e);
    } else {
      UnderBarrierKeeps(p, c, e);
    }
  }

  // -- Steps of a task -------------------------------------------------------------------

  /** A task that neither starts nor stops sending, nor ends. */
  lemma TaskMoves(p: Process, op: Op, t: Task)
    requires Valid(p) && op in p.tasks && p.tasks[op] != Sending && p.tasks[op] != Closing
    requires t != Sending && t != Closing && (SettlesUncertain(t) ==> op in p.f.uncommitted)
    ensures Valid(p.Run(op, t))
  {
  }

  /** Only the task of `op` moves, between states that owe nothing to ownership. */
  lemma OwnerUnmoved(p: Process, op: Op, t: Task)
    requires Valid(p) && op in p.tasks && (t == Closing <==> p.tasks[op] == Closing)
    ensures OwnerOk(p.f, p.calls, p.tasks[op := t], p.owner)
  {
  }

  /** Ownership does not look at who is sending. */
  lemma OwnerBlindToSending(f: Fields, f': Fields, calls: Calls, tasks: Tasks, owner: Owner)
    requires OwnerOk(f, calls, tasks, owner)
    requires f'.exclusive == f.exclusive && f'.restoring == f.restoring && f'.admitted == f.admitted
    ensures OwnerOk(f', calls, tasks, owner)
  {
  }

  /** A restore under the barrier has nobody else admitted, so nobody can start to send beside it. */
  lemma PromoterUnmoved(p: Process, op: Op)
    requires Valid(p) && TaskEnabled(p, op, Start)
    ensures PromoterOk(p.f.BeginSend(op), p.calls, p.barrier)
  {
    if p.barrier.Promoter? && p.calls[p.barrier.call].op.kind.Restore? {
      assert false;
    }
  }

  lemma SenderCounted(p: Process, op: Op)
    requires Valid(p) && TaskEnabled(p, op, Start)
    ensures TasksOk(p.f.admitted, p.f.sending + {op}, p.f.idle, false, p.tasks[op := Sending])
    ensures UncertainOk(p.f.uncommitted, p.tasks[op := Sending])
  {
  }

  lemma SendingStarts(p: Process, op: Op)
    requires Valid(p) && TaskEnabled(p, op, Start)
    ensures Valid(p.Fld(p.f.BeginSend(op)).Run(op, Sending))
  {
    OwnerUnmoved(p, op, Sending);
    OwnerBlindToSending(p.f, p.f.BeginSend(op), p.calls, p.tasks[op := Sending], p.owner);
    SenderCounted(p, op);
    PromoterUnmoved(p, op);
  }

  lemma StartKeeps(p: Process, op: Op)
    requires Valid(p) && TaskEnabled(p, op, Start)
    ensures Valid(Started(p, op))
  {
    if p.f.Withholds(op) {
      TaskMoves(p, op, Ended(Withheld));
    } else {
      SendingStarts(p, op);
    }
  }

  lemma SenderUncounted(p: Process, op: Op, outcome: Outcome)
    requires Valid(p) && TaskEnabled(p, op, EndSend(outcome))
    ensures TasksOk(p.f.admitted, p.f.sending - {op}, p.f.idle, p.f.quiet || p.f.sending - {op} == {},
                    p.tasks[op := Ended(outcome)])
    ensures UncertainOk(p.f.uncommitted, p.tasks[op := Ended(outcome)])
  {
  }

  lemma PromoterBlindToEnds(f: Fields, op: Op, calls: Calls, barrier: Barrier)
    requires PromoterOk(f, calls, barrier)
    ensures PromoterOk(f.EndSend(op), calls, barrier)
  {
  }

  lemma EndSendKeeps(p: Process, op: Op, outcome: Outcome)
    requires Valid(p) && TaskEnabled(p, op, EndSend(outcome))
    ensures Valid(p.Fld(p.f.EndSend(op)).Run(op, Ended(outcome)))
  {
    SenderUncounted(p, op, outcome);
    PromoterBlindToEnds(p.f, op, p.calls, p.barrier);
    OwnerUnmoved(p, op, Ended(outcome));
    OwnerBlindToSending(p.f, p.f.EndSend(op), p.calls, p.tasks[op := Ended(outcome)], p.owner);
  }

  /** The commit of an uncertain outcome, after which the database knows it. */
  lemma UncertainCommitted(p: Process, op: Op)
    requires Valid(p) && op in p.tasks && p.tasks[op].Settled?
    ensures Valid(p.Fld(p.f.(uncommitted := p.f.uncommitted - {op})).Run(op, Finishing))
  {
    TaskMoves(p, op, Finishing);
    CommittedForgets(p.Run(op, Finishing), op);
  }

  lemma CommittedForgets(p: Process, op: Op)
    requires Valid(p) && op in p.tasks && p.tasks[op] == Finishing
    ensures Valid(p.Fld(p.f.(uncommitted := p.f.uncommitted - {op})))
  {
    OwnerBlindToSending(p.f, p.f.(uncommitted := p.f.uncommitted - {op}), p.calls, p.tasks, p.owner);
  }

  lemma SettleKeeps(p: Process, op: Op)
    requires Valid(p) && TaskEnabled(p, op, SettleResumes)
    ensures Valid(SettleResumed(p, op))
  {
    var o := p.tasks[op].outcome;
    match p.tasks[op].answer
    case Committed => if o == Outcome.Uncertain { UncertainCommitted(p, op); } else { TaskMoves(p, op, Finishing); }
    case NotOwner => TaskMoves(p, op, LosingRole);
    case Error => TaskMoves(p, op, Settling(o));
  }

  lemma AdmissionEnds(p: Process, op: Op, tasks': Tasks)
    requires Valid(p) && TaskEnabled(p, op, FinishTask)
    requires tasks' == if op.kind == Plain then p.tasks - {op} else p.tasks[op := Closing]
    ensures TasksOk(p.f.admitted - {op}, p.f.sending, p.f.idle || p.f.admitted - {op} == {}, p.f.quiet, tasks')
    ensures SlotsOk(p.f.free + 1, p.f.admitted - {op}, p.calls, p.holders, p.slots)
    ensures UncertainOk(p.f.uncommitted, tasks')
  {
    assert op in p.f.admitted && |p.f.admitted - {op}| == |p.f.admitted| - 1;
  }

  lemma PlainEnds(p: Process, op: Op)
    requires Valid(p) && TaskEnabled(p, op, FinishTask) && op.kind == Plain
    ensures OwnerOk(p.f.Finish(op), p.calls, p.tasks - {op}, p.owner)
  {
    assert op !in p.f.restoring;
    assert p.f.restoring - {op} == p.f.restoring;
  }

  lemma OwnerEnds(p: Process, op: Op)
    requires Valid(p) && TaskEnabled(p, op, FinishTask) && op.kind != Plain
    ensures OwnerOk(p.f.Finish(op), p.calls, p.tasks[op := Closing], p.owner)
  {
    assert p.owner == ByTask(op) && p.f.restoring - {op} == map[];
  }

  lemma PromoterAlone(p: Process, op: Op)
    requires Valid(p) && TaskEnabled(p, op, FinishTask)
    ensures PromoterOk(p.f.Finish(op), p.calls, p.barrier)
  {
  }

  lemma FinishKeeps(p: Process, op: Op)
    requires Valid(p) && TaskEnabled(p, op, FinishTask)
    ensures Valid(TaskFinished(p, op))
  {
    AdmissionEnds(p, op, if op.kind == Plain then p.tasks - {op} else p.tasks[op := Closing]);
    PromoterAlone(p, op);
    if op.kind == Plain { PlainEnds(p, op); } else { OwnerEnds(p, op); }
  }

  lemma CloseKeeps(p: Process, op: Op)
    requires Valid(p) && TaskEnabled(p, op, CloseTask)
    ensures Valid(p.(tasks := p.tasks - {op}).EndExclusive(op))
  {
    ExclusiveEnds(p.(tasks := p.tasks - {op}), op);
  }

  lemma TaskKeeps(p: Process, op: Op, e: TaskEvent)
    requires Valid(p) && TaskEnabled(p, op, e)
    ensures Valid(ApplyTask(p, op, e))
  {
    match e
    case Start => StartKeeps(p, op);
    case EndSend(outcome) => EndSendKeeps(p, op, outcome);
    case EnterSettle =>
      if p.tasks[op].outcome == Outcome.Uncertain {
        UncertainNoted(p, op);
        TaskMoves(p.Fld(p.f.Uncertain(op)), op, Settling(p.tasks[op].outcome));
      } else {
        TaskMoves(p, op, Settling(p.tasks[op].outcome));
      }
    case SettleAnswers(settled) => TaskMoves(p, op, Settled(p.tasks[op].outcome, settled));
    case SettleResumes => SettleKeeps(p, op);
    case AbandonNote => TaskMoves(p.(forgotten := p.forgotten + {op}), op, Finishing);
    case AbandonSettle => TaskMoves(p, op, Finishing);
    case TaskLoses => ClosingKeeps(p, Lost); TaskMoves(p.Fld(p.f.CloseLocked(Lost)), op, Finishing);
    case FinishTask => FinishKeeps(p, op);
    case CloseTask => CloseKeeps(p, op);
  }

  /** The invariant: kept by every step of the dispatcher, whatever the database answers. */
  lemma EveryStepKeeps(p: Process, e: Event)
    requires Valid(p) && Enabled(p, e)
    ensures Valid(Apply(p, e))
  {
    match e
    case OfGate(g) => GateKeeps(p, g);
    case OfCall(c, call) => CallKeeps(p, c, call);
    case OfTask(op, task) => TaskKeeps(p, op, task);
  }
}
