/** What holds in every run of one dispatcher, from the moment callers can reach it. */
module GateRuns {
  import opened Text
  import opened Gate
  import opened GateSafety

  ghost predicate Runs(p: Process, es: seq<Event>)
    decreases |es|
  {
    es == [] || (Enabled(p, es[0]) && Runs(Apply(p, es[0]), es[1..]))
  }

  ghost function After(p: Process, es: seq<Event>): Process
    requires Runs(p, es)
    decreases |es|
  {
    if es == [] then p else After(Apply(p, es[0]), es[1..])
  }

  /** The object behind the first served request: `reopen` has run, nothing else has. */
  ghost predicate Fresh(p: Process) {
    && p.calls == map[] && p.tasks == map[] && p.holders == {} && p.queue == {}
    && p.barrier == Open && p.owner == Nobody && p.forgotten == {}
    && p.f == Fields(p.f.gate, false, p.f.frozen, p.f.frozenEpoch, None, map[], {}, {}, true, true, {}, {}, p.slots, 0)
    && (p.f.frozen ==> p.f.gate == Maintenance || p.f.gate == Lost)
  }

  lemma FreshIsValid(p: Process)
    requires Fresh(p)
    ensures Valid(p)
  {
  }

  lemma {:induction false} RunsKeepValid(p: Process, es: seq<Event>)
    requires Valid(p) && Runs(p, es)
    ensures Valid(After(p, es))
    decreases |es|
  {
    if es != [] {
      EveryStepKeeps(p, es[0]);
      RunsKeepValid(Apply(p, es[0]), es[1..]);
    }
  }

  // -- What a reader of the state may rely on ---------------------------------------------

  /** A relay that changes what the runtime holds is never on the wire beside another. */
  lemma LifecycleSendsAlone(p: Process, es: seq<Event>, op: Op)
    requires Fresh(p) && Runs(p, es)
    requires op in After(p, es).f.sending && op.kind != Plain
    ensures After(p, es).f.sending == {op} == After(p, es).f.admitted
    ensures After(p, es).f.exclusive == Some(op) && After(p, es).f.gate != Serving
  {
    FreshIsValid(p);
    RunsKeepValid(p, es);
    var q := After(p, es);
    assert op in q.tasks && q.owner == ByTask(op);
    assert q.f.sending <= q.f.admitted;
  }

  /** The gate serves only when nothing holds it shut, and no uncertain outcome awaits its commit. */
  lemma ServingMeansClear(p: Process, es: seq<Event>)
    requires Fresh(p) && Runs(p, es) && After(p, es).f.gate == Serving
    ensures var f := After(p, es).f; !f.frozen && f.exclusive == None && f.restoring == map[] && f.uncommitted == {}
    ensures forall op | op in After(p, es).tasks :: op.kind == Plain && !SettlesUncertain(After(p, es).tasks[op])
  {
    FreshIsValid(p);
    RunsKeepValid(p, es);
  }

  function SlotHolders(calls: Calls): set<CallId> {
    set c | c in calls && HoldsSlot(calls[c].phase)
  }

  function Queue(calls: Calls): set<CallId> {
    set c | c in calls && calls[c].op.kind == Plain
  }

  function AdmittedTasks(tasks: Tasks): set<Op> {
    set op | op in tasks && tasks[op] != Closing
  }

  /** No race over a deadline, a gate change or a cancellation loses a slot or a place in the queue. */
  lemma SlotsAreConserved(p: Process, es: seq<Event>)
    requires Fresh(p) && Runs(p, es)
    ensures var q := After(p, es); q.f.free + |SlotHolders(q.calls)| + |AdmittedTasks(q.tasks)| == p.slots
    ensures var q := After(p, es); q.f.queued == |Queue(q.calls)| <= p.room
    ensures var q := After(p, es); q.f.sending <= q.f.admitted == AdmittedTasks(q.tasks)
    ensures var q := After(p, es); (q.f.idle <==> q.f.admitted == {}) && (q.f.quiet <==> q.f.sending == {})
    ensures var q := After(p, es); q.calls == map[] && q.tasks == map[] ==> Rested(q, p.slots)
  {
    FreshIsValid(p);
    RunsKeepValid(p, es);
    SizesStay(p, es);
    var q := After(p, es);
    assert SlotHolders(q.calls) == q.holders;
    assert Queue(q.calls) == q.queue;
    assert AdmittedTasks(q.tasks) == q.f.admitted;
  }

  /** With every call and task gone, the object owes nothing to any of them. */
  ghost predicate Rested(q: Process, slots: nat) {
    && q.f.free == slots && q.f.queued == 0 && q.f.idle && q.f.quiet
    && q.f.exclusive == None && q.f.restoring == map[] && q.f.admitted == {} == q.f.sending
  }

  lemma SizesStayStep(p: Process, e: Event)
    requires Enabled(p, e)
    ensures Apply(p, e).slots == p.slots && Apply(p, e).room == p.room
  {
    match e
    case OfGate(g) => SizesStayGate(p, g);
    case OfCall(c, call) => SizesStayCall(p, c, call);
    case OfTask(op, task) => SizesStayTask(p, op, task);
  }

  lemma SizesStayGate(p: Process, e: GateEvent)
    requires GateEnabled(p, e)
    ensures ApplyGate(p, e).slots == p.slots && ApplyGate(p, e).room == p.room
  {
  }

  lemma SizesStayCall(p: Process, c: CallId, e: CallEvent)
    requires CallEnabled(p, c, e)
    ensures ApplyCall(p, c, e).slots == p.slots && ApplyCall(p, c, e).room == p.room
  {
  }

  lemma SizesStayTask(p: Process, op: Op, e: TaskEvent)
    requires TaskEnabled(p, op, e)
    ensures ApplyTask(p, op, e).slots == p.slots && ApplyTask(p, op, e).room == p.room
  {
  }

  lemma {:induction false} SizesStay(p: Process, es: seq<Event>)
    requires Runs(p, es)
    ensures After(p, es).slots == p.slots && After(p, es).room == p.room
    decreases |es|
  {
    if es != [] {
      SizesStayStep(p, es[0]);
      SizesStay(Apply(p, es[0]), es[1..]);
    }
  }

  // -- The maintenance fence ------------------------------------------------------------------

  /** This step puts `op` on the wire as a restore admitted for the hold the gate is frozen for. */
  ghost predicate RestoresAt(p: Process, e: Event, op: Op) {
    && e == OfTask(op, Start)
    && op.kind.Restore?
    && p.f.frozen && p.f.frozenEpoch == Some(op.kind.epoch)
  }

  lemma OnlyRestoresStart(p: Process, op: Op)
    requires Valid(p) && p.f.frozen && TaskEnabled(p, op, Start) && !p.f.Withholds(op)
    ensures RestoresAt(p, OfTask(op, Start), op)
  {
    assert op in p.f.restoring;
  }

  predicate GateOnly(p: Process, q: Process) {
    SameRegisters(p.f, q.f) && q.tasks == p.tasks && q.calls == p.calls && q.forgotten == p.forgotten
  }

  lemma ReopenFrame(p: Process)
    ensures GateOnly(p, p.BeginReopen()) && p.BeginReopen().f.frozen == p.f.frozen
  {
  }

  lemma ThawFrame(p: Process)
    ensures GateOnly(p, Thawed(p))
  {
    ReopenFrame(p.Fld(p.f.(frozen := false, frozenEpoch := None, interrupted := {})));
  }

  /** Steps of the gate touch neither the calls nor the tasks, nor what describes them. */
  lemma GateFrame(p: Process, e: GateEvent)
    requires GateEnabled(p, e)
    ensures GateOnly(p, ApplyGate(p, e))
    ensures p.f.frozen && e != Thaw ==> ApplyGate(p, e).f.frozen
  {
    match e
    case Thaw => ThawFrame(p);
    case Recheck => ReopenFrame(p);
    case Reopen => ReopenFrame(p.Fld(p.f.(heldByOperator := false)));
    case _ =>
  }

  lemma BeforeSlotFrame(p: Process, c: CallId, e: CallEvent)
    requires CallEnabled(p, c, e) && BeforeSlot(e)
    ensures ApplyCall(p, c, e).tasks == p.tasks && CallFrame(p.f, ApplyCall(p, c, e).f)
    ensures ApplyCall(p, c, e).f.admitted == p.f.admitted
  {
  }

  lemma CleanupFrame(p: Process, c: CallId, e: CallEvent)
    requires CallEnabled(p, c, e) && Cleanup(e)
    ensures ApplyCall(p, c, e).tasks == p.tasks && CallFrame(p.f, ApplyCall(p, c, e).f)
    ensures ApplyCall(p, c, e).f.admitted == p.f.admitted
  {
    if e == Leave {
      LeaveFrame(p, c);
    }
  }

  lemma LeaveFrame(p: Process, c: CallId)
    requires CallEnabled(p, c, Leave)
    ensures Left(p, c).tasks == p.tasks && CallFrame(p.f, Left(p, c).f) && Left(p, c).f.admitted == p.f.admitted
  {
  }

  lemma PromotedFrame(p: Process, c: CallId)
    requires CallEnabled(p, c, Promote) && p.calls[c].phase.answer == Promoted
    ensures Admission(p, c, Promote) && CallFrame(p.f, AfterPromotion(p, c).f)
  {
  }

  lemma UnpromotedFrame(p: Process, c: CallId)
    requires CallEnabled(p, c, Promote) && p.calls[c].phase.answer != Promoted
    ensures CallFrame(p.f, AfterPromotion(p, c).f)
    ensures AfterPromotion(p, c).tasks == p.tasks && AfterPromotion(p, c).f.admitted == p.f.admitted
  {
  }

  lemma UnderBarrierFrame(p: Process, c: CallId, e: CallEvent)
    requires CallEnabled(p, c, e) && !BeforeSlot(e) && !Cleanup(e)
    ensures CallFrame(p.f, ApplyCall(p, c, e).f)
    ensures (ApplyCall(p, c, e).tasks == p.tasks && ApplyCall(p, c, e).f.admitted == p.f.admitted)
         || Admission(p, c, e)
  {
    if e == Promote {
      if p.calls[c].phase.answer == Promoted { PromotedFrame(p, c); } else { UnpromotedFrame(p, c); }
    }
  }

  /** No call starts, stops or forgets a send, or lifts a hold. */
  ghost predicate CallFrame(f: Fields, g: Fields) {
    && g.sending == f.sending
    && f.uncommitted <= g.uncommitted
    && (f.frozen ==> g.frozen)
    && (f.gate == Lost ==> g.gate == Lost)
  }

  ghost predicate Admission(p: Process, c: CallId, e: CallEvent)
    requires CallEnabled(p, c, e)
  {
    && e == Promote && p.calls[c].phase.answer == Promoted
    && ApplyCall(p, c, e).tasks == p.tasks[p.calls[c].op := Created]
    && ApplyCall(p, c, e).f.admitted == p.f.admitted + {p.calls[c].op}
    && ApplyCall(p, c, e).f.gate == p.f.gate
  }

  lemma CallsFrame(p: Process, c: CallId, e: CallEvent)
    requires CallEnabled(p, c, e)
    ensures CallFrame(p.f, ApplyCall(p, c, e).f)
    ensures (ApplyCall(p, c, e).tasks == p.tasks && ApplyCall(p, c, e).f.admitted == p.f.admitted)
         || Admission(p, c, e)
  {
    if BeforeSlot(e) {
      BeforeSlotFrame(p, c, e);
    } else if Cleanup(e) {
      CleanupFrame(p, c, e);
    } else {
      UnderBarrierFrame(p, c, e);
    }
  }

  /** A task admits nobody, and lifts no hold. */
  ghost predicate TaskFrame(f: Fields, g: Fields, op: Op) {
    && g.admitted <= f.admitted
    && g.sending <= f.sending + {op}
    && (g.frozen == f.frozen)
    && (f.gate == Lost ==> g.gate == Lost)
  }

  lemma ClosingFrame(p: Process, op: Op)
    ensures TaskFrame(p.f, p.(tasks := p.tasks - {op}).EndExclusive(op).f, op)
    ensures p.(tasks := p.tasks - {op}).EndExclusive(op).f.sending == p.f.sending
    ensures p.(tasks := p.tasks - {op}).EndExclusive(op).f.uncommitted == p.f.uncommitted
  {
  }

  /** What the task may forget, and what it may add to the wire. */
  ghost predicate TaskMemory(p: Process, op: Op, e: TaskEvent, g: Fields)
    requires TaskEnabled(p, op, e)
  {
    && (e != Start ==> g.sending <= p.f.sending)
    && (!(e == SettleResumes && p.tasks[op] == Settled(Outcome.Uncertain, Committed)) ==>
          p.f.uncommitted <= g.uncommitted)
    && p.f.uncommitted - {op} <= g.uncommitted
  }

  lemma RunningFrame(p: Process, op: Op, e: TaskEvent)
    requires TaskEnabled(p, op, e) && e != CloseTask
    ensures TaskFrame(p.f, ApplyTask(p, op, e).f, op) && TaskMemory(p, op, e, ApplyTask(p, op, e).f)
  {
  }

  lemma TasksFrame(p: Process, op: Op, e: TaskEvent)
    requires TaskEnabled(p, op, e)
    ensures TaskFrame(p.f, ApplyTask(p, op, e).f, op) && TaskMemory(p, op, e, ApplyTask(p, op, e).f)
  {
    if e == CloseTask { ClosingFrame(p, op); } else { RunningFrame(p, op, e); }
  }

  lemma FrozenTask(p: Process, op: Op, e: TaskEvent)
    requires Valid(p) && TaskEnabled(p, op, e) && p.f.frozen
    ensures ApplyTask(p, op, e).f.frozen
    ensures forall x | x in ApplyTask(p, op, e).f.sending :: x in p.f.sending || RestoresAt(p, OfTask(op, e), x)
  {
    TasksFrame(p, op, e);
    if e == Start && !p.f.Withholds(op) {
      OnlyRestoresStart(p, op);
    }
  }

  lemma FrozenStep(p: Process, e: Event)
    requires Valid(p) && Enabled(p, e) && p.f.frozen && e != OfGate(Thaw)
    ensures Apply(p, e).f.frozen
    ensures forall x | x in Apply(p, e).f.sending :: x in p.f.sending || RestoresAt(p, e, x)
  {
    match e
    case OfGate(g) => GateFrame(p, g);
    case OfCall(c, call) => CallsFrame(p, c, call);
    case OfTask(op, task) => FrozenTask(p, op, task);
  }

  /** Some step of the run restored `op` into the hold of that moment. */
  ghost predicate Restored(p: Process, es: seq<Event>, op: Op)
    requires Runs(p, es)
    decreases |es|
  {
    es != [] && (RestoresAt(p, es[0], op) || Restored(Apply(p, es[0]), es[1..], op))
  }

  /**
   Until a thaw, whoever is on the wire was on it when the gate froze, or is a restore that started
   while the gate was frozen at the very epoch the restore was admitted for.
   */
  lemma {:induction false} MaintenanceFence(p: Process, es: seq<Event>, op: Op)
    requires Valid(p) && Runs(p, es) && p.f.frozen && OfGate(Thaw) !in es
    ensures After(p, es).f.frozen
    ensures op in After(p, es).f.sending ==> op in p.f.sending || Restored(p, es, op)
    decreases |es|
  {
    if es != [] {
      EveryStepKeeps(p, es[0]);
      FrozenStep(p, es[0]);
      MaintenanceFence(Apply(p, es[0]), es[1..], op);
    }
  }

  lemma {:induction false} RestoredIsRestore(p: Process, es: seq<Event>, op: Op)
    requires Runs(p, es) && Restored(p, es, op)
    ensures op.kind.Restore? && OfTask(op, Start) in es
    decreases |es|
  {
    if !RestoresAt(p, es[0], op) {
      RestoredIsRestore(Apply(p, es[0]), es[1..], op);
    }
  }

  /** What `interrupt` reports as quiescent stays so until a thaw or a restore. */
  lemma QuiescenceLasts(p: Process, es: seq<Event>)
    requires Valid(p) && Runs(p, es) && p.f.frozen && p.f.sending == {}
    requires OfGate(Thaw) !in es && forall op: Op | op.kind.Restore? :: OfTask(op, Start) !in es
    ensures After(p, es).f.sending == {} && After(p, es).f.quiet
  {
    RunsKeepValid(p, es);
    forall op | op in After(p, es).f.sending ensures false {
      MaintenanceFence(p, es, op);
      if Restored(p, es, op) {
        RestoredIsRestore(p, es, op);
      }
    }
  }

  // -- Admission ---------------------------------------------------------------------------------

  /**
   Whoever becomes admitted was promoted under a barrier that no closing of the gate got past: the
   gate still admits it at that very moment, and a lifecycle operation finds nobody beside it.
   */
  lemma AdmittedByTheGate(p: Process, e: Event, op: Op)
    requires Valid(p) && Enabled(p, e) && op !in p.f.admitted && op in Apply(p, e).f.admitted
    ensures p.f.Admits(op) && Apply(p, e).f.gate == p.f.gate
    ensures op.kind != Plain ==> p.f.admitted == {} && p.f.exclusive == Some(op)
  {
    match e
    case OfGate(g) => GateFrame(p, g);
    case OfCall(c, call) => CallsFrame(p, c, call);
    case OfTask(x, task) => TasksFrame(p, x, task);
  }

  lemma LostGate(p: Process, e: GateEvent)
    requires Valid(p) && GateEnabled(p, e) && p.f.gate == Lost
    ensures ApplyGate(p, e).f.gate == Lost
  {
  }

  lemma LostStep(p: Process, e: Event)
    requires Valid(p) && Enabled(p, e) && p.f.gate == Lost
    ensures Apply(p, e).f.gate == Lost
    ensures Apply(p, e).f.admitted <= p.f.admitted
  {
    match e {
      case OfGate(g) => LostGate(p, g);
      case OfCall(c, call) => CallsFrame(p, c, call);
      case OfTask(op, task) => TasksFrame(p, op, task);
    }
    forall op | op in Apply(p, e).f.admitted ensures op in p.f.admitted {
      if op !in p.f.admitted {
        AdmittedByTheGate(p, e, op);
      }
    }
  }

  /** A lost role is lost for good: nothing reopens the gate and nothing more is admitted. */
  lemma {:induction false} LostIsFinal(p: Process, es: seq<Event>)
    requires Valid(p) && Runs(p, es) && p.f.gate == Lost
    ensures After(p, es).f.gate == Lost && After(p, es).f.admitted <= p.f.admitted
    decreases |es|
  {
    if es != [] {
      EveryStepKeeps(p, es[0]);
      LostStep(p, es[0]);
      LostIsFinal(Apply(p, es[0]), es[1..]);
    }
  }

  // -- Uncertain outcomes ----------------------------------------------------------------------

  /** Known uncertain here, whether or not the database has heard. */
  predicate KnownUncertain(p: Process, op: Op) {
    op in p.f.uncommitted
  }

  /** Only the commit of an uncertain outcome makes the process forget it. */
  lemma ForgottenOnlyOnceCommitted(p: Process, e: Event, op: Op)
    requires Valid(p) && Enabled(p, e) && KnownUncertain(p, op) && !KnownUncertain(Apply(p, e), op)
    ensures e == OfTask(op, SettleResumes) && p.tasks[op] == Settled(Outcome.Uncertain, Committed)
  {
    match e
    case OfGate(g) => GateFrame(p, g);
    case OfCall(c, call) => CallsFrame(p, c, call);
    case OfTask(x, task) => TasksFrame(p, x, task);
  }

  lemma CallsForgetNothing(p: Process, c: CallId, e: CallEvent)
    requires CallEnabled(p, c, e)
    ensures ApplyCall(p, c, e).forgotten == p.forgotten
  {
  }

  /** An uncertain outcome is forgotten only by a cancellation while its task waits to note it. */
  lemma OnlyCancellationForgets(p: Process, e: Event, op: Op)
    requires Enabled(p, e) && op !in p.forgotten && op in Apply(p, e).forgotten
    ensures e == OfTask(op, AbandonNote) && p.tasks[op] == Ended(Outcome.Uncertain)
  {
    match e
    case OfGate(g) => GateFrame(p, g);
    case OfCall(c, call) => CallsForgetNothing(p, c, call);
    case OfTask(x, task) =>
  }
}
