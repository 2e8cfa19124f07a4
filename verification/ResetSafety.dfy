/** When a reset is sound, whatever happens on the node meanwhile. */
module ResetSafety {
  import opened Text
  import opened Gate
  import GateSafety
  import GateRuns
  import opened Store
  import opened World
  import opened WorldInv
  import opened WorldSteps
  import opened WorldSafety
  import opened WorldRuns
  import opened Reset

  // -- Who may still start to send ----------------------------------------------------------

  /** The final send barrier is behind this task, whichever way it went. */
  predicate Past(t: Task) {
    t != Created && t != Sending
  }

  /**
   May a task that has not passed the final send barrier still pass it, and the reset of this epoch resolve
   it? A restore needs the gate frozen for its own epoch, now or by a freeze to come. Anything else needs a
   thaw: on an open reading, or on one made after the end test, which only a gate that is frozen for this
   epoch, or can be, ever passes.
   */
  ghost predicate MayStart(f: Fields, readings: multiset<Hold>, kind: Kind, epoch: nat) {
    match kind
    case Restore(own) =>
      (f.frozen && f.frozenEpoch == Some(own)) || (f.gate != Lost && (own >= epoch || Hold(true, own) in readings))
    case _ =>
      !f.frozen || f.gate != Lost || f.frozenEpoch == Some(epoch) || exists h | h in readings :: IsOpen(h)
  }

  ghost predicate MaySend(d: Process, readings: multiset<Hold>, x: Op, epoch: nat) {
    x in d.tasks && (d.tasks[x] == Sending || (d.tasks[x] == Created && MayStart(d.f, readings, x.kind, epoch)))
  }

  /** The reset that begins now may resolve `x` although its bytes reach the runtime that is shown. */
  ghost predicate Escapes(n: Node, x: Op, ground: Ground) {
    && ground.InCohort?
    && n.w.db.hold == Hold(true, ground.epoch)
    && exists pid :: IsOwn(n.w, pid, ground.own) && MaySend(n.w.agents[pid].d, Readings(n, pid), x, ground.epoch)
  }

  // -- One dispatcher ------------------------------------------------------------------------

  predicate NoDriver(calls: map<CallId, Call>, x: Op) {
    forall c | c in calls && Drives(calls[c].phase) :: calls[c].op != x
  }

  /** `x` is held back for good, or, in the corner of a lost role, until the hold is next read open. */
  ghost predicate Caged(d: Process, readings: multiset<Hold>, x: Op, epoch: nat, corner: bool) {
    && NoDriver(d.calls, x)
    && (x in d.tasks ==>
          Past(d.tasks[x]) ||
          (d.tasks[x] == Created && (corner || x.kind.Restore?) && !MayStart(d.f, readings, x.kind, epoch)))
  }

  /** The hold as the gate knows it stays, except for a promotion that finds it closed. */
  predicate SameHold(f: Fields, g: Fields) {
    g.frozen == f.frozen && g.frozenEpoch == f.frozenEpoch && (f.gate == Lost ==> g.gate == Lost)
  }

  predicate FindsClosed(d: Process, e: Event) {
    && e.OfCall? && e.call == Promote && CallEnabled(d, e.c, Promote)
    && d.calls[e.c].phase.answer.Closed? && !d.calls[e.c].op.kind.Restore?
  }

  lemma GateKeepsHold(d: Process, g: GateEvent)
    requires GateSafety.Valid(d) && GateEnabled(d, g) && !g.Freeze? && g != Thaw
    ensures SameHold(d.f, ApplyGate(d, g).f)
  {
    if g == Recheck {
      ReopenKeepsHold(d);
    } else if g == Reopen {
      ReopenKeepsHold(d.Fld(d.f.(heldByOperator := false)));
    }
  }

  lemma ReopenKeepsHold(d: Process)
    ensures SameHold(d.f, d.BeginReopen().f)
  {
  }

  lemma CallKeepsHold(d: Process, c: CallId, e: CallEvent)
    requires CallEnabled(d, c, e) && !FindsClosed(d, OfCall(c, e)) && !GateSafety.Cleanup(e)
    ensures SameHold(d.f, ApplyCall(d, c, e).f)
  {
    if e == Promote {
      PromotionKeepsHold(d, c);
    }
  }

  lemma PromotionKeepsHold(d: Process, c: CallId)
    requires CallEnabled(d, c, Promote) && !FindsClosed(d, OfCall(c, Promote))
    ensures SameHold(d.f, AfterPromotion(d, c).f)
  {
    if d.calls[c].phase.answer == Promoted {
      GrantKeepsHold(d, c);
    }
  }

  lemma GrantKeepsHold(d: Process, c: CallId)
    requires CallEnabled(d, c, Promote) && d.calls[c].phase.answer == Promoted
    ensures SameHold(d.f, AfterPromotion(d, c).f)
  {
  }

  lemma CleanupKeepsHold(d: Process, c: CallId, e: CallEvent)
    requires CallEnabled(d, c, e) && GateSafety.Cleanup(e)
    ensures SameHold(d.f, ApplyCall(d, c, e).f)
  {
  }

  lemma TaskKeepsHold(d: Process, op: Op, e: TaskEvent)
    requires TaskEnabled(d, op, e)
    ensures SameHold(d.f, ApplyTask(d, op, e).f)
  {
  }

  lemma KeepsHold(d: Process, e: Event)
    requires GateSafety.Valid(d) && Enabled(d, e) && !FindsClosed(d, e)
    requires e.OfGate? ==> !e.g.Freeze? && e.g != Thaw
    ensures SameHold(d.f, Apply(d, e).f)
  {
    match e
    case OfGate(g) => GateKeepsHold(d, g);
    case OfCall(c, call) =>
      if GateSafety.Cleanup(call) { CleanupKeepsHold(d, c, call); } else { CallKeepsHold(d, c, call); }
    case OfTask(op, t) => TaskKeepsHold(d, op, t);
  }

  /** A lost gate takes no freeze. */
  lemma LostTakesNoFreeze(d: Process, c: CallId)
    requires FindsClosed(d, OfCall(c, Promote)) && d.f.gate == Lost
    ensures SameHold(d.f, AfterPromotion(d, c).f)
  {
  }

  /** While a restore is admitted, nobody else is under the barrier. */
  lemma RestoreIsAlone(d: Process, x: Op)
    requires GateSafety.Valid(d) && x in d.tasks && d.tasks[x] == Created && x.kind.Restore?
    ensures forall c | c in d.calls :: !GateSafety.UnderBarrier(d.calls[c].phase)
    ensures d.barrier == Open
  {
    assert d.owner == ByTask(x) && d.f.exclusive == Some(x);
  }

  /** What cages an unstarted task cages it through every step but a freeze and a thaw. */
  lemma CageHolds(d: Process, readings: multiset<Hold>, x: Op, epoch: nat, e: Event)
    requires GateSafety.Valid(d) && Enabled(d, e) && (e.OfGate? ==> !e.g.Freeze? && e.g != Thaw)
    requires x in d.tasks && d.tasks[x] == Created && !MayStart(d.f, readings, x.kind, epoch)
    ensures !MayStart(Apply(d, e).f, readings, x.kind, epoch)
  {
    if FindsClosed(d, e) {
      if x.kind.Restore? {
        RestoreIsAlone(d, x);
      } else {
        LostTakesNoFreeze(d, e.c);
      }
    } else {
      KeepsHold(d, e);
    }
  }

  /** A caged task is withheld when it comes to the final send barrier. */
  lemma CagedIsWithheld(d: Process, readings: multiset<Hold>, x: Op, epoch: nat)
    requires GateSafety.Valid(d) && x in d.tasks && d.tasks[x] == Created && !MayStart(d.f, readings, x.kind, epoch)
    ensures d.f.Withholds(x)
  {
    if x.kind.Restore? {
      assert d.owner == ByTask(x) && d.f.restoring == map[x := x.kind.epoch];
    } else {
      NotRestoring(d, x);
    }
  }

  lemma NotRestoring(d: Process, x: Op)
    requires GateSafety.Valid(d) && x in d.tasks && d.tasks[x] == Created && !x.kind.Restore?
    ensures x !in d.f.restoring
  {
    assert x in d.f.admitted;
  }

  lemma CallKeepsNoDriver(d: Process, c: CallId, e: CallEvent, x: Op)
    requires CallEnabled(d, c, e) && NoDriver(d.calls, x)
    requires e == InsertAnswers(Won) ==> d.calls[c].op != x
    ensures NoDriver(ApplyCall(d, c, e).calls, x)
    ensures x in ApplyCall(d, c, e).tasks <==> x in d.tasks
    ensures x in d.tasks ==> ApplyCall(d, c, e).tasks[x] == d.tasks[x]
  {
    if e == Promote && d.calls[c].phase.answer == Promoted {
      AdmissionMoves(d, c);
      assert d.calls[c].op != x;
    } else if e == InsertAnswers(Won) {
      InsertWonMoves(d, c);
    } else if e == PromoteAnswers(Promoted) {
      PromotedMoves(d, c);
    } else {
      CallMoves(d, c, e);
    }
  }

  lemma OwnTaskPasses(d: Process, x: Op, e: TaskEvent)
    requires TaskEnabled(d, x, e) && (Past(d.tasks[x]) || (e == Start && d.f.Withholds(x)))
    ensures x in ApplyTask(d, x, e).tasks ==> Past(ApplyTask(d, x, e).tasks[x])
    ensures ApplyTask(d, x, e).calls == d.calls
  {
  }

  lemma CallCaged(d: Process, readings: multiset<Hold>, x: Op, epoch: nat, corner: bool, c: CallId, e: CallEvent)
    requires GateSafety.Valid(d) && CallEnabled(d, c, e) && Caged(d, readings, x, epoch, corner)
    requires e == InsertAnswers(Won) ==> d.calls[c].op != x
    ensures Caged(ApplyCall(d, c, e), readings, x, epoch, corner)
  {
    CallKeepsNoDriver(d, c, e, x);
    if x in d.tasks && d.tasks[x] == Created {
      CageHolds(d, readings, x, epoch, OfCall(c, e));
    }
  }

  lemma TaskCaged(d: Process, readings: multiset<Hold>, x: Op, epoch: nat, corner: bool, op: Op, e: TaskEvent)
    requires GateSafety.Valid(d) && TaskEnabled(d, op, e) && Caged(d, readings, x, epoch, corner)
    ensures Caged(ApplyTask(d, op, e), readings, x, epoch, corner)
  {
    TaskMoves(d, op, e);
    if op == x {
      if d.tasks[x] == Created {
        CagedIsWithheld(d, readings, x, epoch);
      }
      OwnTaskPasses(d, x, e);
    } else if x in d.tasks {
      OtherTaskStays(d, op, e, x);
      if d.tasks[x] == Created {
        CageHolds(d, readings, x, epoch, OfTask(op, e));
      }
    } else {
      OtherTaskStays(d, op, e, x);
    }
  }

  lemma OtherTaskStays(d: Process, op: Op, e: TaskEvent, x: Op)
    requires TaskEnabled(d, op, e) && x != op
    ensures ApplyTask(d, op, e).calls == d.calls
    ensures x in ApplyTask(d, op, e).tasks <==> x in d.tasks
    ensures x in d.tasks ==> ApplyTask(d, op, e).tasks[x] == d.tasks[x]
  {
    TaskMoves(d, op, e);
    var a, b := d.tasks - {op}, ApplyTask(d, op, e).tasks - {op};
    assert a == b && (x in a <==> x in d.tasks) && (x in b <==> x in ApplyTask(d, op, e).tasks);
  }

  lemma GateCaged(d: Process, readings: multiset<Hold>, x: Op, epoch: nat, corner: bool, g: GateEvent)
    requires GateSafety.Valid(d) && GateEnabled(d, g) && Caged(d, readings, x, epoch, corner)
    requires !g.Freeze? && g != Thaw
    ensures Caged(ApplyGate(d, g), readings, x, epoch, corner)
  {
    GateRuns.GateFrame(d, g);
    if x in d.tasks && d.tasks[x] == Created {
      CageHolds(d, readings, x, epoch, OfGate(g));
    }
  }

  lemma EventCaged(d: Process, readings: multiset<Hold>, x: Op, epoch: nat, corner: bool, e: Event)
    requires GateSafety.Valid(d) && Enabled(d, e) && Caged(d, readings, x, epoch, corner)
    requires e.OfGate? ==> !e.g.Freeze? && e.g != Thaw
    requires e.OfCall? && e.call == InsertAnswers(Won) ==> d.calls[e.c].op != x
    ensures Caged(Apply(d, e), readings, x, epoch, corner)
  {
    match e
    case OfGate(g) => GateCaged(d, readings, x, epoch, corner, g);
    case OfCall(c, call) => CallCaged(d, readings, x, epoch, corner, c, call);
    case OfTask(op, t) => TaskCaged(d, readings, x, epoch, corner, op, t);
  }

  /** Acting on what was read of the hold keeps the cage: there is no reading in it that would open it. */
  lemma MirrorCaged(d: Process, readings: multiset<Hold>, x: Op, epoch: nat, corner: bool, h: Hold)
    requires GateSafety.Valid(d) && Caged(d, readings, x, epoch, corner) && h in readings
    requires GateEnabled(d, MirrorEvent(h))
    ensures Caged(ApplyGate(d, MirrorEvent(h)), readings - multiset{h}, x, epoch, corner)
  {
    GateRuns.GateFrame(d, MirrorEvent(h));
    if x in d.tasks && d.tasks[x] == Created {
      MirrorKeepsBarred(d, readings, x, epoch, h);
    }
  }

  lemma MirrorKeepsBarred(d: Process, readings: multiset<Hold>, x: Op, epoch: nat, h: Hold)
    requires GateSafety.Valid(d) && GateEnabled(d, MirrorEvent(h)) && h in readings
    requires x in d.tasks && d.tasks[x] == Created && !MayStart(d.f, readings, x.kind, epoch)
    ensures !MayStart(ApplyGate(d, MirrorEvent(h)).f, readings - multiset{h}, x.kind, epoch)
  {
    forall k | k in readings - multiset{h} ensures k in readings {
    }
    if IsOpen(h) {
      assert x.kind.Restore?;
      ThawedHold(d);
    }
  }

  lemma ThawedHold(d: Process)
    ensures Thawed(d).f.frozen ==> Thawed(d).f == d.f
    ensures d.f.gate == Lost ==> Thawed(d).f.gate == Lost
    ensures !Thawed(d).f.frozen
  {
  }

  /** Reading the hold keeps the cage, as long as the hold is closed at this epoch, or the cage needs no corner. */
  lemma ReadCaged(d: Process, readings: multiset<Hold>, x: Op, epoch: nat, corner: bool, h: Hold)
    requires Caged(d, readings, x, epoch, corner) && h.Hold? && epoch <= h.epoch
    requires corner ==> h == Hold(true, epoch)
    ensures Caged(d, readings + multiset{h}, x, epoch, corner)
  {
    if x in d.tasks && d.tasks[x] == Created && !x.kind.Restore? {
      forall k | k in readings + multiset{h} ensures k in readings || k == h {
      }
    }
  }

  lemma DropCaged(d: Process, readings: multiset<Hold>, x: Op, epoch: nat, corner: bool, h: Hold)
    requires Caged(d, readings, x, epoch, corner)
    ensures Caged(d, readings - multiset{h}, x, epoch, corner)
  {
    forall k | k in readings - multiset{h} ensures k in readings {
    }
  }

  // -- The whole node ------------------------------------------------------------------------------

  ghost predicate RowIsPast(w: World, x: Op) {
    x in w.db.rows && w.db.rows[x].state != Accepted && w.db.rows[x].state != Running
  }

  ghost predicate AgentCaged(a: Agent, readings: multiset<Hold>, x: Op, own: Ownership, epoch: nat, corner: bool) {
    a.Elected? && a.own == own ==> Caged(a.d, readings, x, epoch, corner)
  }

  /** Of all processes only those of this ownership could send `x`, and they are caged. */
  ghost predicate AllCaged(n: Node, x: Op, own: Ownership, epoch: nat, corner: bool) {
    && x in n.w.db.rows && n.w.db.rows[x].origin == own && own.generation <= n.w.db.owner.generation
    && forall pid | pid in n.w.agents :: AgentCaged(n.w.agents[pid], Readings(n, pid), x, own, epoch, corner)
  }

  ghost predicate Hushed(n: Node, x: Op, ground: Ground, corner: bool)
    requires ground.InCohort?
  {
    RowIsPast(n.w, x) || AllCaged(n, x, ground.own, ground.epoch, corner)
  }

  lemma SettledIsNotSent(w: World, x: Op, pid: Pid)
    requires Inv(w) && RowIsPast(w, x)
    ensures !IsSending(w, pid, x)
  {
    if IsSending(w, pid, x) {
      SenderOwnsNode(w, pid, x);
    }
  }

  lemma HushedIsNotSent(n: Node, x: Op, ground: Ground, corner: bool, pid: Pid)
    requires Inv(n.w) && ground.InCohort? && Hushed(n, x, ground, corner)
    ensures !IsSending(n.w, pid, x)
  {
    if RowIsPast(n.w, x) {
      SettledIsNotSent(n.w, x, pid);
    } else if IsSending(n.w, pid, x) {
      SenderOwnsNode(n.w, pid, x);
    }
  }

  lemma SettledStays(w: World, e: WorldEvent, x: Op)
    requires Can(w, e) && RowIsPast(w, x)
    ensures RowIsPast(Act(w, e), x)
  {
    StepEvolves(w, e);
    assert RowEvolves(w.db.rows[x], Act(w, e).db.rows[x]);
  }

  // One agent takes a step, and the others stand still

  lemma ActorCaged(n: Node, pid: Pid, e: Event, x: Op, own: Ownership, epoch: nat, corner: bool, w': World)
    requires n.w.IsElected(pid) && GateSafety.Valid(n.w.agents[pid].d) && Enabled(n.w.agents[pid].d, e)
    requires forall q | q in n.w.agents :: AgentCaged(n.w.agents[q], Readings(n, q), x, own, epoch, corner)
    requires e.OfGate? ==> !e.g.Freeze? && e.g != Thaw
    requires e.OfCall? && e.call == InsertAnswers(Won) ==> n.w.agents[pid].d.calls[e.c].op != x
    requires w'.agents == n.w.agents[pid := n.w.agents[pid].(d := Apply(n.w.agents[pid].d, e))]
    ensures forall q | q in w'.agents :: AgentCaged(w'.agents[q], Readings(n, q), x, own, epoch, corner)
  {
    if n.w.agents[pid].own == own {
      assert AgentCaged(n.w.agents[pid], Readings(n, pid), x, own, epoch, corner);
      EventCaged(n.w.agents[pid].d, Readings(n, pid), x, epoch, corner, e);
    }
    forall q | q in w'.agents && q != pid ensures AgentCaged(w'.agents[q], Readings(n, q), x, own, epoch, corner) {
      assert AgentCaged(n.w.agents[q], Readings(n, q), x, own, epoch, corner);
    }
  }

  lemma AgentsAreValid(w: World, pid: Pid)
    requires Inv(w) && w.IsElected(pid)
    ensures GateSafety.Valid(w.agents[pid].d)
  {
  }

  /** An insert that won was of an operation the tables did not have. */
  lemma WonIsNew(w: World, pid: Pid, e: Event, commits: bool, x: Op)
    requires Can(w, Answer(pid, e, commits)) && x in w.db.rows
    requires e.OfCall? && e.call == InsertAnswers(Won)
    ensures w.agents[pid].d.calls[e.c].op != x
  {
  }

  lemma StepCaged(n: Node, e: WorldEvent, x: Op, own: Ownership, epoch: nat, corner: bool)
    requires Inv(n.w) && Can(n.w, e) && Aside(n.w, e) && AllCaged(n, x, own, epoch, corner)
    requires e.Local? || e.Answer?
    ensures forall q | q in Act(n.w, e).agents ::
              AgentCaged(Act(n.w, e).agents[q], Readings(n, q), x, own, epoch, corner)
  {
    AgentsAreValid(n.w, e.pid);
    if e.Answer? && e.e.OfCall? && e.e.call == InsertAnswers(Won) {
      WonIsNew(n.w, e.pid, e.e, e.commits, x);
    }
    ActorCaged(n, e.pid, e.e, x, own, epoch, corner, Act(n.w, e));
  }

  lemma ClaimCaged(n: Node, e: WorldEvent, x: Op, own: Ownership, epoch: nat, corner: bool)
    requires Can(n.w, e) && e.Claim? && AllCaged(n, x, own, epoch, corner)
    ensures forall q | q in Act(n.w, e).agents ::
              AgentCaged(Act(n.w, e).agents[q], Readings(n, q), x, own, epoch, corner)
  {
    forall q | q in Act(n.w, e).agents
      ensures AgentCaged(Act(n.w, e).agents[q], Readings(n, q), x, own, epoch, corner)
    {
      if q != e.pid {
        assert AgentCaged(n.w.agents[q], Readings(n, q), x, own, epoch, corner);
      }
    }
  }

  lemma OtherCaged(n: Node, e: WorldEvent, x: Op, own: Ownership, epoch: nat, corner: bool)
    requires Can(n.w, e) && !e.Local? && !e.Answer? && !e.Claim? && AllCaged(n, x, own, epoch, corner)
    ensures forall q | q in Act(n.w, e).agents ::
              AgentCaged(Act(n.w, e).agents[q], Readings(n, q), x, own, epoch, corner)
  {
    forall q | q in Act(n.w, e).agents
      ensures AgentCaged(Act(n.w, e).agents[q], Readings(n, q), x, own, epoch, corner)
    {
      if q in n.w.agents {
        assert AgentCaged(n.w.agents[q], Readings(n, q), x, own, epoch, corner);
      }
    }
  }

  lemma HappenedReadings(n: Node, e: WorldEvent, q: Pid)
    requires Can(n.w, e) && q in Act(n.w, e).agents
    ensures Readings(Happened(n, e), q) == Readings(n, q)
  {
  }

  lemma WorldCaged(n: Node, e: WorldEvent, x: Op, own: Ownership, epoch: nat, corner: bool)
    requires Inv(n.w) && Can(n.w, e) && Aside(n.w, e) && AllCaged(n, x, own, epoch, corner)
    ensures AllCaged(Happened(n, e), x, own, epoch, corner)
  {
    StepEvolves(n.w, e);
    GenerationStep(n.w, e);
    assert RowEvolves(n.w.db.rows[x], Act(n.w, e).db.rows[x]);
    if e.Local? || e.Answer? {
      StepCaged(n, e, x, own, epoch, corner);
    } else if e.Claim? {
      ClaimCaged(n, e, x, own, epoch, corner);
    } else {
      OtherCaged(n, e, x, own, epoch, corner);
    }
    forall q | q in Act(n.w, e).agents
      ensures AgentCaged(Act(n.w, e).agents[q], Readings(Happened(n, e), q), x, own, epoch, corner)
    {
      HappenedReadings(n, e, q);
      assert AgentCaged(Act(n.w, e).agents[q], Readings(n, q), x, own, epoch, corner);
    }
  }

  lemma WorldHushed(n: Node, e: WorldEvent, x: Op, ground: Ground, corner: bool)
    requires Inv(n.w) && Can(n.w, e) && Aside(n.w, e) && ground.InCohort? && Hushed(n, x, ground, corner)
    ensures Hushed(Happened(n, e), x, ground, corner)
  {
    if RowIsPast(n.w, x) {
      SettledStays(n.w, e, x);
    } else {
      WorldCaged(n, e, x, ground.own, ground.epoch, corner);
    }
  }

  // Readings come and go

  lemma MirrorActor(n: Node, pid: Pid, h: Hold, x: Op, own: Ownership, epoch: nat, corner: bool, m: Node)
    requires n.w.IsElected(pid) && GateSafety.Valid(n.w.agents[pid].d) && h in Readings(n, pid)
    requires GateEnabled(n.w.agents[pid].d, MirrorEvent(h))
    requires forall q | q in n.w.agents :: AgentCaged(n.w.agents[q], Readings(n, q), x, own, epoch, corner)
    requires m.w.agents == n.w.agents[pid := n.w.agents[pid].(d := ApplyGate(n.w.agents[pid].d, MirrorEvent(h)))]
    requires m.read == Consumed(n, pid, h).read
    ensures forall q | q in m.w.agents :: AgentCaged(m.w.agents[q], Readings(m, q), x, own, epoch, corner)
  {
    if n.w.agents[pid].own == own {
      assert AgentCaged(n.w.agents[pid], Readings(n, pid), x, own, epoch, corner);
      MirrorCaged(n.w.agents[pid].d, Readings(n, pid), x, epoch, corner, h);
    }
    forall q | q in m.w.agents && q != pid ensures AgentCaged(m.w.agents[q], Readings(m, q), x, own, epoch, corner) {
      assert AgentCaged(n.w.agents[q], Readings(n, q), x, own, epoch, corner);
    }
  }

  lemma MirrorAllCaged(n: Node, pid: Pid, h: Hold, x: Op, ground: Ground, corner: bool)
    requires Inv(n.w) && ground.InCohort? && Able(n, Mirror(pid, h), x, ground)
    requires AllCaged(n, x, ground.own, ground.epoch, corner)
    ensures AllCaged(Do(n, Mirror(pid, h), x, ground), x, ground.own, ground.epoch, corner)
  {
    AgentsAreValid(n.w, pid);
    MirrorActor(n, pid, h, x, ground.own, ground.epoch, corner, Do(n, Mirror(pid, h), x, ground));
  }

  lemma MirrorHushed(n: Node, pid: Pid, h: Hold, x: Op, ground: Ground, corner: bool)
    requires Inv(n.w) && ground.InCohort? && Able(n, Mirror(pid, h), x, ground) && Hushed(n, x, ground, corner)
    ensures Hushed(Do(n, Mirror(pid, h), x, ground), x, ground, corner)
  {
    if RowIsPast(n.w, x) {
      SettledStays(n.w, Local(pid, OfGate(MirrorEvent(h))), x);
    } else {
      MirrorAllCaged(n, pid, h, x, ground, corner);
    }
  }

  lemma ReadingHushed(n: Node, e: NodeStep, x: Op, ground: Ground, corner: bool)
    requires ground.InCohort? && Able(n, e, x, ground) && Hushed(n, x, ground, corner)
    requires e.ReadHold? || e.DropReading?
    requires n.w.db.hold.Hold? && ground.epoch <= n.w.db.hold.epoch
    requires corner ==> n.w.db.hold == Hold(true, ground.epoch)
    ensures Hushed(Do(n, e, x, ground), x, ground, corner)
  {
    var m := Do(n, e, x, ground);
    if !RowIsPast(n.w, x) {
      forall q | q in m.w.agents
        ensures AgentCaged(m.w.agents[q], Readings(m, q), x, ground.own, ground.epoch, corner)
      {
        assert AgentCaged(n.w.agents[q], Readings(n, q), x, ground.own, ground.epoch, corner);
        if q == e.pid && n.w.agents[q].Elected? && n.w.agents[q].own == ground.own {
          if e.ReadHold? {
            ReadCaged(n.w.agents[q].d, Readings(n, q), x, ground.epoch, corner, n.w.db.hold);
          } else {
            DropCaged(n.w.agents[q].d, Readings(n, q), x, ground.epoch, corner, e.h);
          }
        }
      }
    }
  }

  // -- The evidence ----------------------------------------------------------------------------------

  /** Everything `x` has reached listened no later than `i`. */
  ghost predicate ReachedBy(touched: set<(Op, Instance)>, x: Op, i: Instance) {
    forall t | t in touched && t.0 == x :: t.1 <= i
  }

  /** Nothing has touched the runtime for `x` since the first nonce. */
  ghost predicate Reach(n: Node, x: Op) {
    && (n.evidence.Asked? ==> n.evidence.nonce in n.born && ReachedBy(n.touched, x, n.born[n.evidence.nonce]))
    && (HasBaseline(n.evidence) ==>
          n.evidence.baseline.seen.Some? && ReachedBy(n.touched, x, n.evidence.baseline.seen.value))
  }

  /** Could this process still pass the end test, or has it, and resolve the row? */
  predicate CanGoOn(n: Node, epoch: nat) {
    && (n.evidence.HoldRead? || n.evidence.Tested?)
    && IsOwn(n.w, n.evidence.pid, n.w.db.owner)
    && var f := n.w.agents[n.evidence.pid].d.f;
       (n.evidence.HoldRead? ==> f.gate != Lost || f.frozenEpoch == Some(epoch))
  }

  ghost predicate CohortOk(n: Node, x: Op, ground: Ground)
    requires ground.InCohort?
  {
    && n.w.db.hold.Hold? && ground.epoch <= n.w.db.hold.epoch
    && (n.w.db.hold == Hold(true, ground.epoch) ==> Hushed(n, x, ground, true) && Reach(n, x))
    && (CanGoOn(n, ground.epoch) ==> Hushed(n, x, ground, false) && Reach(n, x))
    && (n.evidence.Done? ==> RowIsPast(n.w, x) && Reach(n, x))
    && (n.evidence.HoldRead? || n.evidence.Tested? ==> n.w.IsElected(n.evidence.pid))
  }

  predicate NotHeld(w: World, x: Op, own: Ownership) {
    forall pid | pid in w.agents :: IsOwn(w, pid, own) ==> x !in w.agents[pid].d.f.admitted
  }

  ghost predicate GroundOk(n: Node, x: Op, ground: Ground) {
    match ground
    case RowUnknown(own) => RowIsPast(n.w, x) && NotHeld(n.w, x, own) && Reach(n, x)
                            && own.generation <= n.w.db.owner.generation
    case InCohort(_, _) => CohortOk(n, x, ground)
  }

  ghost predicate Sound(n: Node, x: Op, ground: Ground) {
    Inv(n.w) && OrderOk(n) && (HasBegun(n.evidence) ==> GroundOk(n, x, ground))
  }

  lemma SoundIsGone(n: Node, x: Op, ground: Ground)
    requires Sound(n, x, ground)
    ensures Gone(n, x)
  {
  }
}
