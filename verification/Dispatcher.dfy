/**
 The `Dispatcher` object itself. Every method is one region between two awaits, written on the
 fields in place; `process` is the state machine's view of the object and of the coroutines that
 use it, and each method takes exactly the step of that machine it stands for.
 */
module Dispatching {
  import opened Text
  import opened Gate
  import GateSafety
  import GateRuns

  /** The fields after a promotion that was not granted. */
  ghost function Unpromoted(f: Fields, op: Op, answer: PromoteAnswer): Fields {
    (match answer
     case Disowned => f.(gate := Lost)
     case Closed(epoch) => if op.kind.Restore? then f else f.FreezeLocked(epoch)
     case _ => f).Release()
  }

  lemma RefusedFields(p: Process, c: CallId)
    requires c in p.calls && p.calls[c].phase.Answered? && p.calls[c].phase.answer != Promoted
    ensures AfterPromotion(p, c).f == Unpromoted(p.f, p.calls[c].op, p.calls[c].phase.answer)
  {
  }

  /** The exclusive mode that a task or a call ends is its own. */
  lemma CloseEnds(p: Process, op: Op)
    requires GateSafety.Valid(p) && TaskEnabled(p, op, CloseTask)
    ensures p.f.exclusive == Some(op)
    ensures Apply(p, OfTask(op, CloseTask)) == p.(tasks := p.tasks - {op}).EndExclusive(op)
  {
  }

  lemma LeaveEnds(p: Process, c: CallId, op: Op, f: Fields)
    requires GateSafety.Valid(p) && CallEnabled(p, c, Leave) && p.calls[c].op == op && op.kind != Plain
    requires f == p.f.(restoring := p.f.restoring - {op})
    ensures p.f.exclusive == Some(op)
    ensures Apply(p, OfCall(c, Leave)) == p.(calls := p.calls - {c}).Fld(f).EndExclusive(op)
  {
  }

  lemma EndedExclusive(p: Process, op: Op)
    requires p.f.exclusive == Some(op)
    ensures p.EndExclusive(op).f.exclusive == None
    ensures p.EndExclusive(op).f.restoring == p.f.restoring
  {
  }

  lemma UncertainClosed(p: Process)
    requires GateSafety.Valid(p)
    ensures p.f.uncommitted != {} ==> p.f.gate != Serving
  {
  }

  lemma QueueShrinks(p: Process, c: CallId)
    requires GateSafety.Valid(p) && c in p.calls && p.calls[c].op.kind == Plain
    ensures p.f.queued > 0
  {
    assert c in p.queue && |p.queue - {c}| == |p.queue| - 1;
  }

  /** What a thaw leaves the gate to, once the hold is lifted. */
  lemma ThawedFields(p: Process)
    requires p.f.frozen
    ensures var g := p.f.(frozen := false, frozenEpoch := None, interrupted := {});
      Thawed(p) == (if g.gate == Lost then p.Fld(g)
                    else if g.exclusive.Some? || g.heldByOperator then p.Fld(g.(gate := Draining))
                    else p.Fld(g).BeginReopen())
  {
  }

  lemma IdleIffNoneAdmitted(p: Process)
    requires GateSafety.Valid(p)
    ensures p.f.idle <==> p.f.admitted == {}
    ensures p.f.quiet <==> p.f.sending == {}
  {
  }

  class Dispatcher {
    var state: GateState
    var heldByOperator: bool
    var frozen: bool
    var frozenEpoch: Option<nat>
    var exclusive: Option<Op>
    var restoring: map<Op, nat>
    var admitted: set<Op>
    var sending: set<Op>
    var idle: bool
    var quiet: bool
    var interrupted: set<Op>
    var uncommittedUnknown: set<Op>
    var slots: nat
    var queued: nat
    const maxQueued: nat
    ghost var process: Process

    ghost function View(): Fields
      reads this
    {
      Fields(state, heldByOperator, frozen, frozenEpoch, exclusive, restoring, admitted, sending,
             idle, quiet, interrupted, uncommittedUnknown, slots, queued)
    }

    ghost predicate Valid()
      reads this
    {
      process.f == View() && process.room == maxQueued && GateSafety.Valid(process)
    }

    /** Callers arrive only after `reopen`; until then the gate's first value is nobody's to read. */
    constructor (maxInflight: nat, maxQueued: nat)
      requires maxInflight >= 1 && maxQueued >= 1
      ensures Valid() && GateRuns.Fresh(process) && process.slots == maxInflight && state == Serving
    {
      this.maxQueued := maxQueued;
      state, heldByOperator, frozen, frozenEpoch := Serving, false, false, None;
      exclusive, restoring, admitted, sending := None, map[], {}, {};
      idle, quiet, interrupted, uncommittedUnknown := true, true, {}, {};
      slots, queued := maxInflight, 0;
      process := Process(Fields(Serving, false, false, None, None, map[], {}, {}, true, true, {}, {}, maxInflight, 0),
                         map[], map[], Open, Nobody, {}, {}, maxInflight, maxQueued, {});
    }

    /** The object has done what step `e` does to it, and the invariant of every run holds. */
    twostate predicate Took(e: Event)
      requires Enabled(old(process), e)
      reads this
    {
      process == Apply(old(process), e) && Valid()
    }

    ghost method Take(e: Event)
      requires GateSafety.Valid(process) && process.room == maxQueued && Enabled(process, e)
      requires View() == Apply(process, e).f
      modifies this`process
      ensures process == Apply(old(process), e) && Valid()
    {
      GateSafety.EveryStepKeeps(process, e);
      GateRuns.SizesStayStep(process, e);
      process := Apply(process, e);
    }

    // -- Helpers called with the barrier held ------------------------------------------------

    method CloseLocked(to: GateState)
      modifies this`state
      ensures View() == old(View()).CloseLocked(to)
    {
      if state == Lost {
        return;
      }
      if frozen && to != Lost {
        return;
      }
      if to == Draining && state == Blocked {
        return;
      }
      state := to;
    }

    method FreezeLocked(epoch: Option<nat>)
      modifies this`state, this`frozen, this`frozenEpoch
      ensures View() == old(View()).FreezeLocked(epoch)
    {
      if state == Lost {
        return;
      }
      frozen := true;
      frozenEpoch := epoch;
      state := Maintenance;
    }

    method RestorableLocked(epoch: nat, holder: Option<Op>) returns (restorable: bool)
      ensures restorable == View().Restorable(epoch, holder)
    {
      restorable := state == Maintenance && frozen && frozenEpoch == Some(epoch)
                    && exclusive == holder && sending == {};
    }

    /** `_reopen_locked` up to its question to the database; `asks` says that it is asked. */
    method ReopenLocked(ghost before: Process) returns (asks: bool)
      requires before.f == View()
      modifies this`state
      ensures View() == before.BeginReopen().f
      ensures asks ==> before.BeginReopen().barrier == Asking
      ensures !asks ==> before.BeginReopen().barrier == before.barrier
    {
      asks := false;
      if state == Lost || exclusive != None {
        return;
      }
      if frozen {
        state := Maintenance;
        return;
      }
      if uncommittedUnknown != {} {
        state := Blocked;
        return;
      }
      asks := true;
    }

    // -- Gate -------------------------------------------------------------------------------------

    method Freeze(epoch: Option<nat>)
      requires Valid() && process.barrier == Open
      modifies this
      ensures Took(OfGate(GateEvent.Freeze(epoch)))
    {
      FreezeLocked(epoch);
      Take(OfGate(GateEvent.Freeze(epoch)));
    }

    method Block()
      requires Valid() && process.barrier == Open
      modifies this
      ensures Took(OfGate(GateEvent.Block))
    {
      CloseLocked(Blocked);
      Take(OfGate(GateEvent.Block));
    }

    method LoseRole()
      requires Valid() && process.barrier == Open
      modifies this
      ensures Took(OfGate(GateEvent.LoseRole)) && state == Lost
    {
      CloseLocked(Lost);
      Take(OfGate(GateEvent.LoseRole));
    }

    method Drain()
      requires Valid() && process.barrier == Open
      modifies this
      ensures Took(OfGate(GateEvent.Drain))
    {
      heldByOperator := true;
      CloseLocked(Draining);
      Take(OfGate(GateEvent.Drain));
    }

    method Reopen() returns (asks: bool)
      requires Valid() && process.barrier == Open
      modifies this
      ensures Took(OfGate(GateEvent.Reopen)) && (asks <==> process.barrier == Asking)
    {
      heldByOperator := false;
      asks := ReopenLocked(process.Fld(process.f.(heldByOperator := false)));
      Take(OfGate(GateEvent.Reopen));
    }

    method RecheckDrain() returns (asks: bool)
      requires Valid() && process.barrier == Open
      modifies this
      ensures Took(OfGate(Recheck)) && (asks <==> process.barrier == Asking)
    {
      asks := false;
      if state == Draining && exclusive == None && !heldByOperator {
        asks := ReopenLocked(process);
      }
      Take(OfGate(Recheck));
    }

    method Thaw() returns (asks: bool)
      requires Valid() && process.barrier == Open
      modifies this
      ensures Took(OfGate(GateEvent.Thaw)) && (asks <==> process.barrier == Asking)
    {
      asks := false;
      if frozen {
        asks := LiftHold(process);
      }
      Take(OfGate(GateEvent.Thaw));
    }

    method LiftHold(ghost before: Process) returns (asks: bool)
      requires before.f == View() && frozen
      modifies this`frozen, this`frozenEpoch, this`interrupted, this`state
      ensures View() == Thawed(before).f
      ensures before.barrier == Open ==> (asks <==> Thawed(before).barrier == Asking)
    {
      ThawedFields(before);
      asks := false;
      frozen := false;
      frozenEpoch := None;
      interrupted := {};
      if state == Lost {
        return;
      }
      if exclusive != None || heldByOperator {
        state := Draining;
        return;
      }
      asks := ReopenLocked(before.Fld(View()));
    }

    /** The database's answer, read while the barrier was kept. */
    method ConcludeReopen(unknown: bool)
      requires Valid() && process.barrier == Heard(unknown)
      modifies this
      ensures Took(OfGate(Conclude)) && (state == Serving <==> !unknown)
    {
      state := if unknown then Blocked else Serving;
      Take(OfGate(Conclude));
    }

    /** `interrupt`: the relays to cancel; it refuses unless the gate is frozen. */
    method Interrupt() returns (cancelled: Option<set<Op>>)
      requires Valid() && process.barrier == Open
      modifies this
      ensures cancelled.None? <==> !old(frozen)
      ensures cancelled.None? ==> process == old(process) && Valid()
      ensures cancelled.Some? ==> Took(OfGate(GateEvent.Interrupt)) && cancelled == Some(old(sending))
    {
      if !frozen {
        return None;
      }
      cancelled := Some(sending);
      interrupted := interrupted + sending;
      Take(OfGate(GateEvent.Interrupt));
    }

    // -- Admission -------------------------------------------------------------------------------

    /** The first barrier of `submit`: refused, leaving no trace, or counted in the queue. */
    method EnterQueue(c: CallId, op: Op) returns (refused: bool)
      requires Valid() && process.barrier == Open && c !in process.calls && op.kind == Plain
      modifies this
      ensures refused <==> old(state) != Serving || old(queued) >= maxQueued
      ensures refused ==> process == old(process) && Valid()
      ensures !refused ==> Took(OfCall(c, Submit(op))) && queued == old(queued) + 1
    {
      if state != Serving || queued >= maxQueued {
        return true;
      }
      queued := queued + 1;
      Take(OfCall(c, Submit(op)));
      refused := false;
    }

    /** The first barrier of `exclusive`: admission closes, or a restore takes the frozen node. */
    method EnterExclusive(c: CallId, op: Op) returns (refused: bool)
      requires Valid() && process.barrier == Open && c !in process.calls && op.kind != Plain
      modifies this
      ensures refused <==> !ExclusiveAllowed(old(View()), op)
      ensures refused ==> process == old(process) && Valid()
      ensures !refused ==> Took(OfCall(c, Exclusive(op))) && exclusive == Some(op) && state != Serving
    {
      if op.kind.Restore? {
        var restorable := RestorableLocked(op.kind.epoch, None);
        if !restorable {
          return true;
        }
        exclusive := Some(op);
        restoring := restoring[op := op.kind.epoch];
      } else {
        if state != Serving {
          return true;
        }
        exclusive := Some(op);
        CloseLocked(Draining);
      }
      Take(OfCall(c, Exclusive(op)));
      refused := false;
    }

    method AcquireSlot(c: CallId)
      requires Valid() && Enabled(process, OfCall(c, TakeSlot))
      modifies this
      ensures Took(OfCall(c, TakeSlot))
    {
      slots := slots - 1;
      Take(OfCall(c, TakeSlot));
    }

    /** A slot goes back: it came too late, or the wait for the barrier was cancelled. */
    method GiveBackSlot(c: CallId, missedBarrier: bool)
      requires Valid() && At(process, c, Holding)
      modifies this
      ensures Took(OfCall(c, if missedBarrier then MissBarrier else GiveBack)) && slots == old(slots) + 1
    {
      slots := slots + 1;
      Take(OfCall(c, if missedBarrier then MissBarrier else GiveBack));
    }

    /** Refused under the barrier: by the gate, or by the host lock, which loses the role. */
    method Turn(lost: bool)
      modifies this`state, this`slots
      ensures View() == (if lost then old(View()).(gate := Lost) else old(View())).Release()
    {
      if lost {
        state := Lost;
      }
      slots := slots + 1;
    }

    method AdmitsLocked(op: Op) returns (admits: bool)
      ensures admits == View().Admits(op)
    {
      match op.kind {
        case Plain => admits := state == Serving;
        case Lifecycle => admits := state == Draining;
        case Restore(epoch) => admits := RestorableLocked(epoch, Some(op));
      }
    }

    /** Under the barrier, before the promotion: the gate, then the host lock. */
    method ReachPromotion(c: CallId, op: Op, lockHeld: bool) returns (refused: bool)
      requires Valid() && Enabled(process, OfCall(c, TakeBarrier(lockHeld))) && process.calls[c].op == op
      modifies this
      ensures Took(OfCall(c, TakeBarrier(lockHeld)))
      ensures refused <==> !old(View()).Admits(op) || !lockHeld
      ensures !refused ==> process.barrier == Promoter(c)
    {
      var admits := AdmitsLocked(op);
      refused := !admits || !lockHeld;
      if refused {
        Turn(admits);
      }
      Take(OfCall(c, TakeBarrier(lockHeld)));
    }

    /** Still under the barrier: the promotion's answer. A task exists from here on if it was granted. */
    method ConcludePromotion(c: CallId, op: Op, answer: PromoteAnswer) returns (created: bool)
      requires Valid() && Enabled(process, OfCall(c, Promote))
      requires process.calls[c] == Call(op, Answered(answer))
      modifies this
      ensures Took(OfCall(c, Promote))
      ensures created <==> answer == Promoted
      ensures created ==> admitted == old(admitted) + {op} && slots == old(slots) && process.tasks[op] == Created
      ensures !created ==> admitted == old(admitted) && slots == old(slots) + 1
    {
      created := answer == Promoted;
      if created {
        Admit(op);
      } else {
        Refuse(op, answer);
        RefusedFields(process, c);
      }
      Take(OfCall(c, Promote));
    }

    method Admit(op: Op)
      modifies this`idle, this`admitted
      ensures View() == old(View()).Admit(op)
    {
      idle := false;
      admitted := admitted + {op};
    }

    method Refuse(op: Op, answer: PromoteAnswer)
      modifies this`state, this`frozen, this`frozenEpoch, this`slots
      ensures View() == Unpromoted(old(View()), op, answer)
    {
      match answer {
        case Disowned => state := Lost;
        case Closed(epoch) =>
          if !op.kind.Restore? {
            FreezeLocked(epoch);
          }
        case _ =>
      }
      slots := slots + 1;
    }

    method NoteUncertainLocked(op: Op)
      modifies this`uncommittedUnknown, this`state
      ensures View() == old(View()).Uncertain(op)
    {
      uncommittedUnknown := uncommittedUnknown + {op};
      CloseLocked(Blocked);
    }

    /** The row of a promotion that raised could not be settled either. */
    method NoteUnsettled(c: CallId, op: Op)
      requires Valid() && Enabled(process, OfCall(c, NoteUncertain)) && process.calls[c].op == op
      modifies this
      ensures Took(OfCall(c, NoteUncertain)) && op in uncommittedUnknown && state != Serving
    {
      NoteUncertainLocked(op);
      Take(OfCall(c, NoteUncertain));
      UncertainClosed(process);
    }

    method LeaveQueue(c: CallId)
      requires Valid() && Enabled(process, OfCall(c, Leave)) && process.calls[c].op.kind == Plain
      modifies this
      ensures Took(OfCall(c, Leave)) && old(queued) > 0 && queued == old(queued) - 1
    {
      QueueShrinks(process, c);
      queued := queued - 1;
      Take(OfCall(c, Leave));
    }

    // -- The life of a task ------------------------------------------------------------------

    /** The final send barrier: a frozen gate withholds all but the restore of its own hold. */
    method StartSending(op: Op) returns (withheld: bool)
      requires Valid() && Enabled(process, OfTask(op, Start))
      modifies this
      ensures Took(OfTask(op, Start)) && withheld == old(View()).Withholds(op)
      ensures sending == if withheld then old(sending) else old(sending) + {op}
    {
      if op in restoring {
        withheld := !(frozen && frozenEpoch == Some(restoring[op]));
      } else {
        withheld := frozen;
      }
      if !withheld {
        sending := sending + {op};
        quiet := false;
      }
      Take(OfTask(op, Start));
    }

    method StopSending(op: Op, outcome: Outcome)
      requires Valid() && Enabled(process, OfTask(op, EndSend(outcome)))
      modifies this
      ensures Took(OfTask(op, EndSend(outcome))) && sending == old(sending) - {op} && (quiet <==> sending == {})
    {
      sending := sending - {op};
      if sending == {} {
        quiet := true;
      }
      Take(OfTask(op, EndSend(outcome)));
    }

    /** `_settle`, up to its first commit: an uncertain outcome closes the gate first. */
    method BeginSettling(op: Op, outcome: Outcome)
      requires Valid() && Enabled(process, OfTask(op, EnterSettle)) && process.tasks[op] == Ended(outcome)
      modifies this
      ensures Took(OfTask(op, EnterSettle))
      ensures outcome == Outcome.Uncertain ==> op in uncommittedUnknown && state != Serving
    {
      if outcome == Outcome.Uncertain {
        NoteUncertainLocked(op);
      }
      Take(OfTask(op, EnterSettle));
    }

    /** `_settle`, once a commit has answered; `again` says that it is retried. */
    method ResumeSettling(op: Op, outcome: Outcome, answer: SettleAnswer) returns (again: bool)
      requires Valid() && Enabled(process, OfTask(op, SettleResumes)) && process.tasks[op] == Settled(outcome, answer)
      modifies this
      ensures Took(OfTask(op, SettleResumes)) && (again <==> answer == Error)
      ensures outcome == Outcome.Uncertain && answer != Committed ==> op in uncommittedUnknown && state != Serving
    {
      again := answer == Error;
      if answer == Committed && outcome == Outcome.Uncertain {
        uncommittedUnknown := uncommittedUnknown - {op};
      }
      Take(OfTask(op, SettleResumes));
    }

    method Finish(op: Op)
      modifies this`slots, this`admitted, this`idle, this`restoring
      ensures View() == old(View()).Finish(op)
    {
      slots := slots + 1;
      admitted := admitted - {op};
      if admitted == {} {
        idle := true;
      }
      restoring := restoring - {op};
    }

    method FinishRun(op: Op)
      requires Valid() && Enabled(process, OfTask(op, FinishTask))
      modifies this
      ensures Took(OfTask(op, FinishTask))
      ensures admitted == old(admitted) - {op} && slots == old(slots) + 1 && (idle <==> admitted == {})
    {
      Finish(op);
      Take(OfTask(op, FinishTask));
      IdleIffNoneAdmitted(process);
    }

    /** `_end_exclusive` on the fields; both a task and a call end with it. */
    method EndExclusiveLocked(op: Op, ghost before: Process) returns (asks: bool)
      requires before.f == View() && before.barrier == Open
      modifies this`state, this`exclusive
      ensures View() == before.EndExclusive(op).f
      ensures asks <==> before.EndExclusive(op).barrier == Asking
    {
      asks := false;
      if exclusive != Some(op) {
        return;
      }
      exclusive := None;
      if state == Draining && !heldByOperator {
        asks := ReopenLocked(before.(f := View(), owner := Nobody));
      }
    }

    method CloseRun(op: Op) returns (asks: bool)
      requires Valid() && Enabled(process, OfTask(op, CloseTask))
      modifies this
      ensures Took(OfTask(op, CloseTask)) && exclusive == None && (asks <==> process.barrier == Asking)
    {
      CloseEnds(process, op);
      EndedExclusive(process.(tasks := process.tasks - {op}), op);
      asks := EndExclusiveLocked(op, process.(tasks := process.tasks - {op}));
      Take(OfTask(op, CloseTask));
    }

    /** The `finally` clause of `exclusive`, when no task was created. */
    method LeaveExclusive(c: CallId, op: Op) returns (asks: bool)
      requires Valid() && Enabled(process, OfCall(c, Leave)) && process.calls[c].op == op && op.kind != Plain
      modifies this
      ensures Took(OfCall(c, Leave)) && exclusive == None && op !in restoring && (asks <==> process.barrier == Asking)
    {
      restoring := restoring - {op};
      LeaveEnds(process, c, op, View());
      EndedExclusive(process.(calls := process.calls - {c}).Fld(View()), op);
      asks := EndExclusiveLocked(op, process.(calls := process.calls - {c}).Fld(View()));
      Take(OfCall(c, Leave));
    }
  }
}
