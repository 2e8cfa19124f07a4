/** Every step of an agent keeps what ties it to the rows, and the rows themselves. */
module WorldSteps {
  import opened Text
  import opened Gate
  import GateSafety
  import GateRuns
  import opened Store
  import opened World
  import opened WorldInv

  // -- Rows -----------------------------------------------------------------------------------

  lemma WriteKeepsRows(a: Rows, b: Rows, x: Op, g: nat, sent: multiset<Op>, evidence: set<Op>, resolved: set<Op>)
    requires RowsOk(a, g, sent, evidence, resolved) && OneRow(a, b, x)
    requires b != a ==> RowOk(x, b[x], g, sent, evidence, resolved)
    ensures RowsOk(b, g, sent, evidence, resolved) && OriginsKept(a, b)
  {
  }

  lemma SendKeepsRows(a: Rows, x: Op, g: nat, sent: multiset<Op>, evidence: set<Op>, resolved: set<Op>)
    requires RowsOk(a, g, sent, evidence, resolved) && x in a && a[x].state == Running && sent[x] == 0
    ensures RowsOk(a, g, sent + multiset{x}, evidence, resolved)
  {
    assert x !in evidence;
  }

  lemma EvidenceKeepsRows(a: Rows, x: Op, g: nat, sent: multiset<Op>, evidence: set<Op>, resolved: set<Op>)
    requires RowsOk(a, g, sent, evidence, resolved) && sent[x] == 1
    ensures RowsOk(a, g, sent, evidence + {x}, resolved)
  {
  }

  // -- Calls ---------------------------------------------------------------------------------

  /** No call becomes a driver, and none is newly promoted. */
  ghost predicate Shrinks(calls: Calls, calls': Calls) {
    forall c | c in calls' && Drives(calls'[c].phase) ::
      && c in calls && Drives(calls[c].phase) && calls[c].op == calls'[c].op
      && (calls'[c].phase == Answered(Promoted) ==> calls[c] == calls'[c])
  }

  lemma ShrinkKeepsCalls(calls: Calls, calls': Calls, own: Ownership, current: bool, tasks: Tasks, rows: Rows,
                         sent: multiset<Op>)
    requires CallsOk(calls, own, current, tasks, rows, sent) && Shrinks(calls, calls')
    ensures CallsOk(calls', own, current, tasks, rows, sent)
  {
    forall c | c in calls' && Drives(calls'[c].phase) ensures DriverOk(calls'[c], own, current, tasks, rows, sent) {
      assert DriverOk(calls[c], own, current, tasks, rows, sent);
    }
  }

  /** The call moved on without touching a task, and without opening the gate. */
  ghost predicate CallOnly(d: Process, d': Process) {
    && d'.tasks == d.tasks
    && d.f.uncommitted <= d'.f.uncommitted && d'.forgotten == d.forgotten
    && (Clears(d'.f, d'.barrier) ==> Clears(d.f, d.barrier))
  }

  lemma SubmitMoves(d: Process, c: CallId, op: Op)
    requires CallEnabled(d, c, Submit(op))
    ensures Shrinks(d.calls, Queued(d, c, op).calls) && CallOnly(d, Queued(d, c, op))
  {
  }

  lemma ExclusiveMoves(d: Process, c: CallId, op: Op)
    requires CallEnabled(d, c, Exclusive(op))
    ensures Shrinks(d.calls, MadeExclusive(d, c, op).calls) && CallOnly(d, MadeExclusive(d, c, op))
  {
  }

  lemma ArrivalMoves(d: Process, c: CallId, e: CallEvent)
    requires CallEnabled(d, c, e) && (e.Submit? || e.Exclusive?)
    ensures Shrinks(d.calls, ApplyCall(d, c, e).calls) && CallOnly(d, ApplyCall(d, c, e))
  {
    if e.Submit? { SubmitMoves(d, c, e.op); } else { ExclusiveMoves(d, c, e.op); }
  }

  lemma BeforeSlotMoves(d: Process, c: CallId, e: CallEvent)
    requires CallEnabled(d, c, e) && GateSafety.BeforeSlot(e) && e != InsertAnswers(Won)
    requires !e.Submit? && !e.Exclusive?
    ensures Shrinks(d.calls, ApplyCall(d, c, e).calls) && CallOnly(d, ApplyCall(d, c, e))
  {
  }

  lemma InsertWonMoves(d: Process, c: CallId)
    requires CallEnabled(d, c, InsertAnswers(Won))
    ensures CallOnly(d, ApplyCall(d, c, InsertAnswers(Won)))
  {
  }

  /** Ending the exclusive mode may ask the database, and never opens the gate by itself. */
  lemma ReopenClears(d: Process)
    ensures var d' := d.BeginReopen();
      d'.tasks == d.tasks && d'.calls == d.calls && d'.f.uncommitted == d.f.uncommitted && d'.forgotten == d.forgotten
      && (Clears(d'.f, d'.barrier) ==> Clears(d.f, d.barrier))
  {
  }

  lemma ExclusiveEndClears(d: Process, op: Op)
    ensures var d' := d.EndExclusive(op);
      d'.tasks == d.tasks && d'.calls == d.calls && d'.f.uncommitted == d.f.uncommitted && d'.forgotten == d.forgotten
      && (Clears(d'.f, d'.barrier) ==> Clears(d.f, d.barrier))
  {
    ReopenClears(d.(f := d.f.(exclusive := None), owner := Nobody));
  }

  lemma LeaveMoves(d: Process, c: CallId)
    requires CallEnabled(d, c, Leave)
    ensures Shrinks(d.calls, Left(d, c).calls) && CallOnly(d, Left(d, c))
  {
    var op := d.calls[c].op;
    if op.kind != Plain {
      ExclusiveEndClears(d.(calls := d.calls - {c}).Fld(d.f.(restoring := d.f.restoring - {op})), op);
    }
  }

  lemma CleanupMoves(d: Process, c: CallId, e: CallEvent)
    requires CallEnabled(d, c, e) && GateSafety.Cleanup(e)
    ensures Shrinks(d.calls, ApplyCall(d, c, e).calls) && CallOnly(d, ApplyCall(d, c, e))
  {
    if e == Leave {
      LeaveMoves(d, c);
    }
  }

  lemma TakenMoves(d: Process, c: CallId, lockHeld: bool)
    requires CallEnabled(d, c, TakeBarrier(lockHeld))
    ensures Shrinks(d.calls, TookBarrier(d, c, lockHeld).calls) && CallOnly(d, TookBarrier(d, c, lockHeld))
  {
  }

  lemma BarrierMoves(d: Process, c: CallId, e: CallEvent)
    requires CallEnabled(d, c, e)
    requires e.TakeBarrier? || e == MissBarrier || (e.PromoteAnswers? && e.answer != Promoted)
    ensures Shrinks(d.calls, ApplyCall(d, c, e).calls) && CallOnly(d, ApplyCall(d, c, e))
  {
    if e.TakeBarrier? {
      TakenMoves(d, c, e.lockHeld);
    }
  }

  lemma PromotedMoves(d: Process, c: CallId)
    requires CallEnabled(d, c, PromoteAnswers(Promoted))
    ensures CallOnly(d, ApplyCall(d, c, PromoteAnswers(Promoted)))
  {
  }

  lemma UnpromotedMoves(d: Process, c: CallId)
    requires CallEnabled(d, c, Promote) && d.calls[c].phase.answer != Promoted
    ensures Shrinks(d.calls, AfterPromotion(d, c).calls) && CallOnly(d, AfterPromotion(d, c))
  {
  }

  /** Any step of a call but a won insert, a granted promotion and what follows it. */
  lemma CallMoves(d: Process, c: CallId, e: CallEvent)
    requires CallEnabled(d, c, e)
    requires e != InsertAnswers(Won) && e != PromoteAnswers(Promoted)
    requires e == Promote ==> d.calls[c].phase.answer != Promoted
    ensures Shrinks(d.calls, ApplyCall(d, c, e).calls) && CallOnly(d, ApplyCall(d, c, e))
  {
    if e.Submit? || e.Exclusive? {
      ArrivalMoves(d, c, e);
    } else if GateSafety.BeforeSlot(e) {
      BeforeSlotMoves(d, c, e);
    } else if GateSafety.Cleanup(e) {
      CleanupMoves(d, c, e);
    } else if e == Promote {
      UnpromotedMoves(d, c);
    } else {
      BarrierMoves(d, c, e);
    }
  }

  /** With the rows settled, a call that moves on keeps its agent in order. */
  lemma CallKeepsAgent(d: Process, d': Process, own: Ownership, current: bool, rows: Rows, sent: multiset<Op>,
                       evidence: set<Op>)
    requires AgentOk(d, own, current, rows, sent, evidence) && GateSafety.Valid(d')
    requires CallOnly(d, d') && Shrinks(d.calls, d'.calls)
    ensures AgentOk(d', own, current, rows, sent, evidence)
  {
    ShrinkKeepsCalls(d.calls, d'.calls, own, current, d.tasks, rows, sent);
  }

  lemma GateClears(d: Process, e: GateEvent)
    requires GateEnabled(d, e) && !e.AskAnswers?
    ensures Clears(ApplyGate(d, e).f, ApplyGate(d, e).barrier) ==> Clears(d.f, d.barrier)
  {
    if e == Thaw {
      ReopenClears(d.Fld(d.f.(frozen := false, frozenEpoch := None, interrupted := {})));
    }
  }

  lemma GateKeepsAgent(d: Process, e: GateEvent, own: Ownership, current: bool, rows: Rows, sent: multiset<Op>,
                       evidence: set<Op>)
    requires AgentOk(d, own, current, rows, sent, evidence) && GateEnabled(d, e)
    requires e.AskAnswers? ==> e.unknown == !NoneIs(rows, Unknown)
    ensures AgentOk(ApplyGate(d, e), own, current, rows, sent, evidence)
  {
    GateSafety.GateKeeps(d, e);
    GateRuns.GateFrame(d, e);
    if !e.AskAnswers? {
      GateClears(d, e);
    }
  }

  // -- The promoted call becomes a task -----------------------------------------------------------

  lemma AdmissionMoves(d: Process, c: CallId)
    requires CallEnabled(d, c, Promote) && d.calls[c].phase.answer == Promoted
    ensures var d' := AfterPromotion(d, c);
      && d'.tasks == d.tasks[d.calls[c].op := Created]
      && d'.f.uncommitted == d.f.uncommitted && d'.forgotten == d.forgotten
      && d'.f.gate == d.f.gate && d'.barrier == Open
      && Shrinks(d.calls, d'.calls) && (c in d'.calls ==> !Drives(d'.calls[c].phase))
  {
  }

  lemma TaskJoins(calls: Calls, c: CallId, calls': Calls, own: Ownership, current: bool, tasks: Tasks, rows: Rows,
                  sent: multiset<Op>)
    requires CallsOk(calls, own, current, tasks, rows, sent) && Shrinks(calls, calls')
    requires c in calls && Drives(calls[c].phase) && (c in calls' ==> !Drives(calls'[c].phase))
    ensures CallsOk(calls', own, current, tasks[calls[c].op := Created], rows, sent)
  {
  }

  lemma CreatedJoins(tasks: Tasks, u: set<Op>, op: Op, own: Ownership, current: bool, rows: Rows, sent: multiset<Op>,
                     evidence: set<Op>)
    requires TasksOk(tasks, own, current, rows, sent, evidence) && op !in tasks
    requires op in rows && rows[op].origin == own && current && rows[op].state == Running && sent[op] == 0
    requires KnownOk(tasks, u, rows, sent, evidence)
    ensures TasksOk(tasks[op := Created], own, current, rows, sent, evidence)
    ensures KnownOk(tasks[op := Created], u, rows, sent, evidence)
  {
  }

  lemma PromotedKeepsAgent(d: Process, c: CallId, own: Ownership, current: bool, rows: Rows, sent: multiset<Op>,
                           evidence: set<Op>)
    requires AgentOk(d, own, current, rows, sent, evidence)
    requires CallEnabled(d, c, Promote) && d.calls[c].phase.answer == Promoted
    ensures AgentOk(AfterPromotion(d, c), own, current, rows, sent, evidence)
  {
    GateSafety.PromoteKeeps(d, c);
    AdmissionMoves(d, c);
    assert DriverOk(d.calls[c], own, current, d.tasks, rows, sent);
    TaskJoins(d.calls, c, AfterPromotion(d, c).calls, own, current, d.tasks, rows, sent);
    CreatedJoins(d.tasks, Aware(d), d.calls[c].op, own, current, rows, sent, evidence);
  }

  lemma LocalCallKeepsAgent(d: Process, c: CallId, e: CallEvent, own: Ownership, current: bool, rows: Rows,
                            sent: multiset<Op>, evidence: set<Op>)
    requires AgentOk(d, own, current, rows, sent, evidence) && CallEnabled(d, c, e) && !AwaitsDatabase(OfCall(c, e))
    ensures AgentOk(ApplyCall(d, c, e), own, current, rows, sent, evidence)
  {
    if e == Promote && d.calls[c].phase.answer == Promoted {
      PromotedKeepsAgent(d, c, own, current, rows, sent, evidence);
    } else {
      GateSafety.CallKeeps(d, c, e);
      CallMoves(d, c, e);
      CallKeepsAgent(d, ApplyCall(d, c, e), own, current, rows, sent, evidence);
    }
  }

  // -- Tasks -----------------------------------------------------------------------------------------

  /** What a step of the task of `op` leaves alone. */
  ghost predicate TaskOnly(d: Process, d': Process, op: Op) {
    && d'.calls == d.calls
    && d'.tasks - {op} == d.tasks - {op}
    && d.f.uncommitted - {op} <= d'.f.uncommitted && d.forgotten <= d'.forgotten
    && (Clears(d'.f, d'.barrier) ==> Clears(d.f, d.barrier))
  }

  lemma CloseMoves(d: Process, op: Op)
    ensures TaskOnly(d, d.(tasks := d.tasks - {op}).EndExclusive(op), op)
  {
    ExclusiveEndClears(d.(tasks := d.tasks - {op}), op);
  }

  lemma FinishMoves(d: Process, op: Op)
    ensures TaskOnly(d, TaskFinished(d, op), op)
  {
  }

  lemma WireMoves(d: Process, op: Op, e: TaskEvent)
    requires TaskEnabled(d, op, e) && (e == Start || e.EndSend?)
    ensures TaskOnly(d, ApplyTask(d, op, e), op)
  {
  }

  lemma EntryMoves(d: Process, op: Op)
    requires TaskEnabled(d, op, EnterSettle)
    ensures TaskOnly(d, SettleEntered(d, op), op)
  {
  }

  lemma SettlingMoves(d: Process, op: Op, e: TaskEvent)
    requires TaskEnabled(d, op, e)
    requires !e.CloseTask? && !e.FinishTask? && e != Start && !e.EndSend? && e != EnterSettle
    ensures TaskOnly(d, ApplyTask(d, op, e), op)
  {
  }

  lemma TaskMoves(d: Process, op: Op, e: TaskEvent)
    requires TaskEnabled(d, op, e)
    ensures TaskOnly(d, ApplyTask(d, op, e), op)
  {
    match e
    case CloseTask => CloseMoves(d, op);
    case FinishTask => FinishMoves(d, op);
    case EnterSettle => EntryMoves(d, op);
    case Start => WireMoves(d, op, e);
    case EndSend(_) => WireMoves(d, op, e);
    case _ => SettlingMoves(d, op, e);
  }

  /** Other tasks, and calls of other operations, see neither the step nor a send of this one. */
  lemma OthersKeepCalls(calls: Calls, own: Ownership, current: bool, tasks: Tasks, tasks': Tasks, rows: Rows,
                        s: multiset<Op>, t: multiset<Op>, op: Op)
    requires CallsOk(calls, own, current, tasks, rows, s) && op in tasks
    requires tasks' - {op} == tasks - {op} && forall x | x != op :: s[x] == t[x]
    ensures CallsOk(calls, own, current, tasks', rows, t)
  {
    forall c | c in calls && Drives(calls[c].phase) ensures DriverOk(calls[c], own, current, tasks', rows, t) {
      assert DriverOk(calls[c], own, current, tasks, rows, s);
      assert calls[c].op !in tasks - {op};
    }
  }

  lemma OthersKeepTasks(own: Ownership, current: bool, tasks: Tasks, tasks': Tasks, rows: Rows, s: multiset<Op>,
                        t: multiset<Op>, e: set<Op>, f: set<Op>, op: Op)
    requires TasksOk(tasks, own, current, rows, s, e) && op in tasks
    requires tasks' - {op} == tasks - {op} && forall x | x != op :: s[x] == t[x]
    requires e <= f
    requires op in tasks' ==> TaskOk(op, tasks'[op], current, rows[op], t, f)
    ensures TasksOk(tasks', own, current, rows, t, f)
  {
    forall x | x in tasks'
      ensures x in rows && rows[x].origin == own && TaskOk(x, tasks'[x], current, rows[x], t, f)
    {
      if x != op {
        assert x in tasks' - {op} && tasks'[x] == (tasks' - {op})[x];
        assert x in tasks - {op} && tasks[x] == (tasks - {op})[x];
      }
    }
  }

  lemma OthersKeepKnown(tasks: Tasks, tasks': Tasks, u: set<Op>, u': set<Op>, rows: Rows, s: multiset<Op>,
                        t: multiset<Op>, e: set<Op>, f: set<Op>, op: Op)
    requires KnownOk(tasks, u, rows, s, e)
    requires tasks' - {op} == tasks - {op} && (forall x | x != op :: s[x] == t[x]) && u - {op} <= u' && e <= f
    requires op in rows && rows[op].state == Running && t[op] > 0 && op !in f ==> op in u' || OnTheWire(tasks', op)
    ensures KnownOk(tasks', u', rows, t, f)
  {
    forall x | x in rows && rows[x].state == Running && t[x] > 0 && x !in f ensures x in u' || OnTheWire(tasks', x) {
      if x != op && x !in u {
        assert x in tasks - {op} && tasks[x] == (tasks - {op})[x];
        assert x in tasks' - {op} && tasks'[x] == (tasks' - {op})[x];
      }
    }
  }

  lemma TaskKeepsAgent(d: Process, d': Process, op: Op, own: Ownership, current: bool, rows: Rows, s: multiset<Op>,
                       t: multiset<Op>, e: set<Op>, f: set<Op>)
    requires AgentOk(d, own, current, rows, s, e) && GateSafety.Valid(d') && op in d.tasks && TaskOnly(d, d', op)
    requires (forall x | x != op :: s[x] == t[x]) && e <= f
    requires op in d'.tasks ==> TaskOk(op, d'.tasks[op], current, rows[op], t, f)
    requires current && rows[op].state == Running && t[op] > 0 && op !in f ==>
               op in Aware(d') || OnTheWire(d'.tasks, op)
    ensures AgentOk(d', own, current, rows, t, f)
  {
    OthersKeepCalls(d.calls, own, current, d.tasks, d'.tasks, rows, s, t, op);
    OthersKeepTasks(own, current, d.tasks, d'.tasks, rows, s, t, e, f, op);
    if current {
      OthersKeepKnown(d.tasks, d'.tasks, Aware(d), Aware(d'), rows, s, t, e, f, op);
    }
  }

  /** The task of `op` itself, where it sends or hears of the end. */
  lemma WireTask(d: Process, op: Op, e: TaskEvent, current: bool, row: Row, sent: multiset<Op>,
                 evidence: set<Op>)
    requires TaskEnabled(d, op, e) && (e == Start || e.EndSend?)
    requires TaskOk(op, d.tasks[op], current, row, sent, evidence)
    ensures var d' := ApplyTask(d, op, e);
      var t, f := sent + SentBy(d, OfTask(op, e)), evidence + EvidenceBy(OfTask(op, e));
      && op in d'.tasks && TaskOk(op, d'.tasks[op], current, row, t, f)
      && (t[op] > 0 && op !in f ==> OnTheWire(d'.tasks, op))
  {
  }

  predicate Settles(e: TaskEvent) {
    e == EnterSettle || e == AbandonNote || e == AbandonSettle || e == SettleResumes
  }

  /** The task of `op` itself, where it settles. */
  lemma SettlingTask(d: Process, op: Op, e: TaskEvent, current: bool, row: Row, sent: multiset<Op>,
                     evidence: set<Op>)
    requires GateSafety.Valid(d) && TaskEnabled(d, op, e)
             && Settles(e)
    requires TaskOk(op, d.tasks[op], current, row, sent, evidence)
    ensures var d' := ApplyTask(d, op, e);
      && op in d'.tasks && TaskOk(op, d'.tasks[op], current, row, sent, evidence)
      && (current && row.state == Running && sent[op] > 0 && op !in evidence ==> op in Aware(d'))
  {
    assert GateSafety.UncertainOk(d.f.uncommitted, d.tasks);
  }

  /** The task of `op` itself, where it ends. */
  lemma EndingTask(d: Process, op: Op, e: TaskEvent, current: bool, rows: Rows, sent: multiset<Op>, evidence: set<Op>)
    requires TaskEnabled(d, op, e) && (e == TaskLoses || e == FinishTask || e == CloseTask)
    requires op in rows && TaskOk(op, d.tasks[op], current, rows[op], sent, evidence)
    requires current ==> KnownOk(d.tasks, Aware(d), rows, sent, evidence)
    ensures var d' := ApplyTask(d, op, e);
      && (op in d'.tasks ==> TaskOk(op, d'.tasks[op], current, rows[op], sent, evidence))
      && (current && rows[op].state == Running && sent[op] > 0 && op !in evidence ==> op in Aware(d'))
  {
  }

  lemma WireElsewhere(d: Process, op: Op, e: TaskEvent, sent: multiset<Op>, evidence: set<Op>)
    requires TaskEnabled(d, op, e)
    ensures forall x | x != op :: (sent + SentBy(d, OfTask(op, e)))[x] == sent[x]
    ensures evidence <= evidence + EvidenceBy(OfTask(op, e)) && op in d.tasks
  {
  }

  lemma WireKeepsAgent(d: Process, op: Op, e: TaskEvent, own: Ownership, current: bool, rows: Rows,
                       sent: multiset<Op>, evidence: set<Op>)
    requires AgentOk(d, own, current, rows, sent, evidence) && TaskEnabled(d, op, e) && (e == Start || e.EndSend?)
    requires GateSafety.Valid(ApplyTask(d, op, e)) && TaskOnly(d, ApplyTask(d, op, e), op)
    ensures AgentOk(ApplyTask(d, op, e), own, current, rows, sent + SentBy(d, OfTask(op, e)),
                    evidence + EvidenceBy(OfTask(op, e)))
  {
    WireTask(d, op, e, current, rows[op], sent, evidence);
    WireElsewhere(d, op, e, sent, evidence);
    TaskKeepsAgent(d, ApplyTask(d, op, e), op, own, current, rows,
                   sent, sent + SentBy(d, OfTask(op, e)), evidence, evidence + EvidenceBy(OfTask(op, e)));
  }

  lemma SettlingKeepsAgent(d: Process, op: Op, e: TaskEvent, own: Ownership, current: bool, rows: Rows,
                           sent: multiset<Op>, evidence: set<Op>)
    requires AgentOk(d, own, current, rows, sent, evidence) && TaskEnabled(d, op, e)
    requires Settles(e)
    requires GateSafety.Valid(ApplyTask(d, op, e)) && TaskOnly(d, ApplyTask(d, op, e), op)
    ensures AgentOk(ApplyTask(d, op, e), own, current, rows, sent, evidence)
  {
    SettlingTask(d, op, e, current, rows[op], sent, evidence);
    TaskKeepsAgent(d, ApplyTask(d, op, e), op, own, current, rows, sent, sent, evidence, evidence);
  }

  lemma EndingKeepsAgent(d: Process, op: Op, e: TaskEvent, own: Ownership, current: bool, rows: Rows,
                         sent: multiset<Op>, evidence: set<Op>)
    requires AgentOk(d, own, current, rows, sent, evidence) && TaskEnabled(d, op, e)
    requires e == TaskLoses || e == FinishTask || e == CloseTask
    requires GateSafety.Valid(ApplyTask(d, op, e)) && TaskOnly(d, ApplyTask(d, op, e), op)
    ensures AgentOk(ApplyTask(d, op, e), own, current, rows, sent, evidence)
  {
    EndingTask(d, op, e, current, rows, sent, evidence);
    TaskKeepsAgent(d, ApplyTask(d, op, e), op, own, current, rows, sent, sent, evidence, evidence);
  }

  lemma Silent(d: Process, op: Op, e: TaskEvent, sent: multiset<Op>, evidence: set<Op>)
    requires e != Start && !e.EndSend?
    ensures sent + SentBy(d, OfTask(op, e)) == sent && evidence + EvidenceBy(OfTask(op, e)) == evidence
  {
  }

  lemma QuietTaskKeepsAgent(d: Process, op: Op, e: TaskEvent, own: Ownership, current: bool, rows: Rows,
                            sent: multiset<Op>, evidence: set<Op>)
    requires AgentOk(d, own, current, rows, sent, evidence) && TaskEnabled(d, op, e)
    requires !e.SettleAnswers? && e != Start && !e.EndSend?
    ensures AgentOk(ApplyTask(d, op, e), own, current, rows, sent, evidence)
  {
    GateSafety.TaskKeeps(d, op, e);
    TaskMoves(d, op, e);
    if Settles(e) {
      SettlingKeepsAgent(d, op, e, own, current, rows, sent, evidence);
    } else {
      EndingKeepsAgent(d, op, e, own, current, rows, sent, evidence);
    }
  }

  lemma LocalTaskKeepsAgent(d: Process, op: Op, e: TaskEvent, own: Ownership, current: bool, rows: Rows,
                            sent: multiset<Op>, evidence: set<Op>)
    requires AgentOk(d, own, current, rows, sent, evidence) && TaskEnabled(d, op, e) && !e.SettleAnswers?
    ensures AgentOk(ApplyTask(d, op, e), own, current, rows, sent + SentBy(d, OfTask(op, e)),
                    evidence + EvidenceBy(OfTask(op, e)))
  {
    if e == Start || e.EndSend? {
      GateSafety.TaskKeeps(d, op, e);
      TaskMoves(d, op, e);
      WireKeepsAgent(d, op, e, own, current, rows, sent, evidence);
    } else {
      Silent(d, op, e, sent, evidence);
      QuietTaskKeepsAgent(d, op, e, own, current, rows, sent, evidence);
    }
  }
}
