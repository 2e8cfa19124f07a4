/** Every step of the node keeps a reset sound that began with nobody left to send. */
module ResetSound {
  import opened Text
  import opened Gate
  import GateSafety
  import GateRuns
  import opened Store
  import opened World
  import opened WorldInv
  import opened WorldSafety
  import opened WorldRuns
  import opened Reset
  import opened ResetSafety

  // -- The reach of the operation's bytes ------------------------------------------------------

  lemma ReachStays(n: Node, m: Node, x: Op)
    requires Reach(n, x) && m.touched == n.touched && m.evidence == n.evidence
    requires forall k | k in n.born :: k in m.born && m.born[k] == n.born[k]
    ensures Reach(m, x)
  {
  }

  lemma ReachWorld(n: Node, e: WorldEvent, x: Op)
    requires Reach(n, x) && Can(n.w, e)
    ensures Reach(Happened(n, e), x)
  {
  }

  lemma ReachEvidence(n: Node, e: NodeStep, x: Op, ground: Ground)
    requires OrderOk(n) && Reach(n, x) && Able(n, e, x, ground)
    requires e == Ask || e == TakeAnswer || e == Refuse || e.ReadEnd? || e.PassEndTest? || e.ResolveRow?
    ensures Reach(Do(n, e, x, ground), x)
  {
  }

  // -- Who could still go on -----------------------------------------------------------------------

  lemma HoldStays(w: World, e: WorldEvent)
    requires Can(w, e) && !e.SetHold?
    ensures Act(w, e).db.hold == w.db.hold
  {
    match e
    case Answer(pid, l, commits) => TxKeepsOwner(w.db, w.agents[pid].own, w.agents[pid].d, l);
    case _ =>
  }

  lemma OwnerStays(w: World, e: WorldEvent)
    requires Can(w, e) && !e.Claim?
    ensures Act(w, e).db.owner == w.db.owner
  {
    match e
    case Answer(pid, l, commits) => TxKeepsOwner(w.db, w.agents[pid].own, w.agents[pid].d, l);
    case _ =>
  }

  /** A lost gate that is not frozen for an epoch never will be. */
  lemma LostIsNotFrozen(d: Process, e: Event, epoch: nat)
    requires GateSafety.Valid(d) && Enabled(d, e) && d.f.gate == Lost && d.f.frozenEpoch != Some(epoch)
    ensures Apply(d, e).f.gate == Lost && Apply(d, e).f.frozenEpoch != Some(epoch)
  {
    GateRuns.LostStep(d, e);
    if e == OfGate(Thaw) {
      ThawedHold(d);
      ThawedEpoch(d, epoch);
    } else if e.OfGate? && e.g.Freeze? {
    } else if FindsClosed(d, e) {
      LostTakesNoFreeze(d, e.c);
    } else {
      KeepsHold(d, e);
    }
  }

  lemma ThawedEpoch(d: Process, epoch: nat)
    requires d.f.frozenEpoch != Some(epoch)
    ensures Thawed(d).f.frozenEpoch != Some(epoch)
  {
  }

  predicate CouldPass(f: Fields, epoch: nat) {
    f.gate != Lost || f.frozenEpoch == Some(epoch)
  }

  lemma CouldPassBefore(d: Process, e: Event, epoch: nat)
    requires GateSafety.Valid(d) && Enabled(d, e) && CouldPass(Apply(d, e).f, epoch)
    ensures CouldPass(d.f, epoch)
  {
    if !CouldPass(d.f, epoch) {
      LostIsNotFrozen(d, e, epoch);
    }
  }

  lemma AgentCouldPassBefore(w: World, e: WorldEvent, pid: Pid, epoch: nat)
    requires Inv(w) && Can(w, e) && w.IsElected(pid) && Act(w, e).IsElected(pid)
    requires CouldPass(Act(w, e).agents[pid].d.f, epoch)
    ensures CouldPass(w.agents[pid].d.f, epoch)
  {
    if (e.Local? || e.Answer?) && e.pid == pid {
      AgentsAreValid(w, pid);
      CouldPassBefore(w.agents[pid].d, e.e, epoch);
    }
  }

  lemma OwnedBefore(w: World, e: WorldEvent, pid: Pid)
    requires Inv(w) && Can(w, e) && w.IsElected(pid) && IsOwn(Act(w, e), pid, Act(w, e).db.owner)
    ensures IsOwn(w, pid, w.db.owner)
  {
    if e.Claim? {
      ClaimDeposes(w, e, pid);
    } else {
      OwnerStays(w, e);
    }
  }

  lemma ClaimDeposes(w: World, e: WorldEvent, pid: Pid)
    requires Inv(w) && Can(w, e) && e.Claim? && w.IsElected(pid)
    ensures w.agents[pid].own != Act(w, e).db.owner
  {
    assert ElectedOk(w.agents[pid], w.db.owner, w.db.kernel, w.db.domain);
  }

  predicate TesterLives(n: Node) {
    n.evidence.HoldRead? || n.evidence.Tested? ==> n.w.IsElected(n.evidence.pid)
  }

  lemma GoneOnBefore(n: Node, e: WorldEvent, epoch: nat)
    requires Inv(n.w) && Can(n.w, e) && TesterLives(n) && CanGoOn(Happened(n, e), epoch)
    ensures CanGoOn(n, epoch)
  {
    var pid := n.evidence.pid;
    OwnedBefore(n.w, e, pid);
    if n.evidence.HoldRead? {
      AgentCouldPassBefore(n.w, e, pid, epoch);
    }
  }

  lemma TesterStays(n: Node, e: WorldEvent)
    requires Can(n.w, e) && TesterLives(n)
    ensures TesterLives(Happened(n, e))
  {
  }

  // -- A cohort ----------------------------------------------------------------------------------

  lemma CohortWorld(n: Node, e: WorldEvent, x: Op, ground: Ground)
    requires Inv(n.w) && ground.InCohort? && CohortOk(n, x, ground) && Can(n.w, e) && Aside(n.w, e)
    ensures CohortOk(Happened(n, e), x, ground)
  {
    var m := Happened(n, e);
    if !e.SetHold? {
      HoldStays(n.w, e);
    }
    if m.w.db.hold == Hold(true, ground.epoch) {
      WorldHushed(n, e, x, ground, true);
      ReachWorld(n, e, x);
    }
    if CanGoOn(m, ground.epoch) {
      GoneOnBefore(n, e, ground.epoch);
      WorldHushed(n, e, x, ground, false);
      ReachWorld(n, e, x);
    }
    if m.evidence.Done? {
      SettledStays(n.w, e, x);
      ReachWorld(n, e, x);
    }
    TesterStays(n, e);
  }

  lemma CohortMirror(n: Node, pid: Pid, h: Hold, x: Op, ground: Ground)
    requires Inv(n.w) && ground.InCohort? && CohortOk(n, x, ground) && Able(n, Mirror(pid, h), x, ground)
    ensures CohortOk(Do(n, Mirror(pid, h), x, ground), x, ground)
  {
    var m := Do(n, Mirror(pid, h), x, ground);
    var e := Local(pid, OfGate(MirrorEvent(h)));
    if m.w.db.hold == Hold(true, ground.epoch) {
      MirrorHushed(n, pid, h, x, ground, true);
      ReachStays(n, m, x);
    }
    if CanGoOn(m, ground.epoch) {
      assert CanGoOn(Happened(n, e), ground.epoch);
      GoneOnBefore(n, e, ground.epoch);
      MirrorHushed(n, pid, h, x, ground, false);
      ReachStays(n, m, x);
    }
    if m.evidence.Done? {
      SettledStays(n.w, e, x);
      ReachStays(n, m, x);
    }
    TesterStays(n, e);
  }

  lemma CohortReading(n: Node, e: NodeStep, x: Op, ground: Ground)
    requires ground.InCohort? && CohortOk(n, x, ground) && Able(n, e, x, ground) && (e.ReadHold? || e.DropReading?)
    ensures CohortOk(Do(n, e, x, ground), x, ground)
  {
    var m := Do(n, e, x, ground);
    if m.w.db.hold == Hold(true, ground.epoch) {
      ReadingHushed(n, e, x, ground, true);
      ReachStays(n, m, x);
    }
    if CanGoOn(m, ground.epoch) {
      ReadingHushed(n, e, x, ground, false);
      ReachStays(n, m, x);
    }
    if m.evidence.Done? {
      ReachStays(n, m, x);
    }
  }

  lemma HushedStays(n: Node, m: Node, x: Op, ground: Ground, corner: bool)
    requires ground.InCohort? && Hushed(n, x, ground, corner) && m.w == n.w && m.read == n.read
    ensures Hushed(m, x, ground, corner)
  {
    if !RowIsPast(n.w, x) {
      forall q | q in m.w.agents
        ensures AgentCaged(m.w.agents[q], Readings(m, q), x, ground.own, ground.epoch, corner)
      {
        assert AgentCaged(n.w.agents[q], Readings(n, q), x, ground.own, ground.epoch, corner);
      }
    }
  }

  /** Steps that touch neither the node's processes nor the evidence. */
  lemma CohortStays(n: Node, m: Node, x: Op, ground: Ground)
    requires ground.InCohort? && CohortOk(n, x, ground) && m.w == n.w && m.read == n.read
    requires m.evidence == n.evidence && m.touched == n.touched
    requires forall k | k in n.born :: k in m.born && m.born[k] == n.born[k]
    ensures CohortOk(m, x, ground)
  {
    if n.w.db.hold == Hold(true, ground.epoch) {
      HushedStays(n, m, x, ground, true);
      ReachStays(n, m, x);
    }
    if CanGoOn(m, ground.epoch) {
      HushedStays(n, m, x, ground, false);
      ReachStays(n, m, x);
    }
    if m.evidence.Done? {
      ReachStays(n, m, x);
    }
  }

  lemma CohortTouch(n: Node, pid: Pid, op: Op, x: Op, ground: Ground)
    requires Inv(n.w) && ground.InCohort? && CohortOk(n, x, ground) && IsSending(n.w, pid, op)
    ensures CohortOk(n.(touched := n.touched + {(op, n.now)}), x, ground)
  {
    var m := n.(touched := n.touched + {(op, n.now)});
    if n.w.db.hold == Hold(true, ground.epoch) {
      HushedIsNotSent(n, x, ground, true, pid);
      HushedStays(n, m, x, ground, true);
    }
    if CanGoOn(m, ground.epoch) {
      HushedIsNotSent(n, x, ground, false, pid);
      HushedStays(n, m, x, ground, false);
    }
    if m.evidence.Done? {
      SettledIsNotSent(n.w, x, pid);
    }
  }

  /** The evidence advances before the end test. */
  lemma CohortAdvances(n: Node, e: NodeStep, x: Op, ground: Ground)
    requires OrderOk(n) && ground.InCohort? && CohortOk(n, x, ground) && Able(n, e, x, ground)
    requires e == Ask || e == TakeAnswer || e == Refuse
    ensures CohortOk(Do(n, e, x, ground), x, ground)
  {
    var m := Do(n, e, x, ground);
    if n.w.db.hold == Hold(true, ground.epoch) {
      HushedStays(n, m, x, ground, true);
      ReachEvidence(n, e, x, ground);
    }
  }

  /** In the corner of a lost role the only process that could go on is the one that cannot pass the end test. */
  lemma CornerGoesNowhere(n: Node, x: Op, ground: Ground, pid: Pid)
    requires Inv(n.w) && ground.InCohort? && Hushed(n, x, ground, true)
    requires IsOwn(n.w, pid, n.w.db.owner) && CouldPass(n.w.agents[pid].d.f, ground.epoch)
    ensures Hushed(n, x, ground, false)
  {
    if !RowIsPast(n.w, x) {
      forall q | q in n.w.agents
        ensures AgentCaged(n.w.agents[q], Readings(n, q), x, ground.own, ground.epoch, false)
      {
        assert AgentCaged(n.w.agents[q], Readings(n, q), x, ground.own, ground.epoch, true);
        if IsOwn(n.w, q, ground.own) && x in n.w.agents[q].d.tasks && n.w.agents[q].d.tasks[x] == Created {
          UnstartedIsOwners(n.w, q, x);
          assert q == pid;
        }
      }
    }
  }

  lemma UnstartedIsOwners(w: World, pid: Pid, x: Op)
    requires Inv(w) && w.IsElected(pid) && x in w.agents[pid].d.tasks && w.agents[pid].d.tasks[x] == Created
    ensures w.agents[pid].own == w.db.owner
    ensures x in w.db.rows && w.db.rows[x].state == Running && w.db.rows[x].origin == w.db.owner
    ensures forall q | w.IsElected(q) && w.agents[q].own == w.db.owner :: q == pid
  {
    var a := w.agents[pid];
    assert TaskOk(x, Created, a.own == w.db.owner, w.db.rows[x], w.sent, w.evidence);
  }

  lemma CohortReadEnd(n: Node, pid: Pid, x: Op, ground: Ground)
    requires Inv(n.w) && OrderOk(n) && ground.InCohort? && CohortOk(n, x, ground) && Able(n, ReadEnd(pid), x, ground)
    ensures CohortOk(Do(n, ReadEnd(pid), x, ground), x, ground)
  {
    var m := Do(n, ReadEnd(pid), x, ground);
    ReachEvidence(n, ReadEnd(pid), x, ground);
    HushedStays(n, m, x, ground, true);
    if CanGoOn(m, ground.epoch) {
      CornerGoesNowhere(m, x, ground, pid);
    }
  }

  lemma CohortPass(n: Node, pid: Pid, x: Op, ground: Ground)
    requires OrderOk(n) && ground.InCohort? && CohortOk(n, x, ground) && Able(n, PassEndTest(pid), x, ground)
    ensures CohortOk(Do(n, PassEndTest(pid), x, ground), x, ground)
  {
    var m := Do(n, PassEndTest(pid), x, ground);
    if n.w.db.hold == Hold(true, ground.epoch) {
      HushedStays(n, m, x, ground, true);
      ReachEvidence(n, PassEndTest(pid), x, ground);
    }
    if CanGoOn(m, ground.epoch) {
      assert CanGoOn(n, ground.epoch);
      HushedStays(n, m, x, ground, false);
      ReachEvidence(n, PassEndTest(pid), x, ground);
    }
  }

  /** The step that moves the row is `ResolveUnknown` of a process that is the owner. */
  lemma ResolvedRow(n: Node, pid: Pid, x: Op)
    requires n.w.IsElected(pid) && (n.evidence.Shown? || n.evidence.Tested?)
    ensures var m := Resolved(n, pid, x);
      if m.evidence.Done? then
        && n.w.agents[pid].own == n.w.db.owner && IsUnknown(n.w, x)
        && m.w.db.rows == n.w.db.rows[x := n.w.db.rows[x].(state := Failed)]
        && m.w.db.hold == n.w.db.hold && m.w.db.owner == n.w.db.owner && m.w.agents == n.w.agents
      else m == n
  {
  }

  lemma CohortResolve(n: Node, pid: Pid, x: Op, ground: Ground)
    requires OrderOk(n) && ground.InCohort? && CohortOk(n, x, ground) && Able(n, ResolveRow(pid), x, ground)
    ensures CohortOk(Do(n, ResolveRow(pid), x, ground), x, ground)
  {
    var m := Do(n, ResolveRow(pid), x, ground);
    ResolvedRow(n, pid, x);
    if m.evidence.Done? {
      assert CanGoOn(n, ground.epoch);
      ReachEvidence(n, ResolveRow(pid), x, ground);
    }
  }

  lemma GroundHushes(n: Node, pid: Pid, x: Op, ground: Ground)
    requires Inv(n.w) && ground.InCohort? && Grounded(n.w, pid, x, ground) && !Escapes(n, x, ground)
    requires n.w.db.hold == Hold(true, ground.epoch)
    ensures Hushed(n, x, ground, true)
  {
    if !IsUnknown(n.w, x) {
      HeldIsCaged(n, pid, x, ground);
    }
  }

  lemma CohortBegins(n: Node, pid: Pid, x: Op, ground: Ground)
    requires Inv(n.w) && ground.InCohort? && Able(n, Begin(pid), x, ground) && !Escapes(n, x, ground)
    ensures CohortOk(Do(n, Begin(pid), x, ground), x, ground)
  {
    if n.w.db.hold == Hold(true, ground.epoch) {
      GroundHushes(n, pid, x, ground);
    }
    BegunIsOk(n, pid, x, ground);
  }

  lemma BegunIsOk(n: Node, pid: Pid, x: Op, ground: Ground)
    requires ground.InCohort? && Able(n, Begin(pid), x, ground)
    requires n.w.db.hold == Hold(true, ground.epoch) ==> Hushed(n, x, ground, true)
    ensures CohortOk(Do(n, Begin(pid), x, ground), x, ground)
  {
    if n.w.db.hold == Hold(true, ground.epoch) {
      HushedStays(n, Do(n, Begin(pid), x, ground), x, ground, true);
    }
  }

  /** What the agent holds when it fixes the cohort, and cannot escape, is caged. */
  lemma HeldIsCaged(n: Node, pid: Pid, x: Op, ground: Ground)
    requires Inv(n.w) && ground.InCohort? && IsOwn(n.w, pid, ground.own) && x in n.w.agents[pid].d.f.admitted
    requires n.w.db.hold == Hold(true, ground.epoch) && !Escapes(n, x, ground)
    ensures AllCaged(n, x, ground.own, ground.epoch, true)
  {
    var d := n.w.agents[pid].d;
    assert x in d.tasks;
    assert ElectedOk(n.w.agents[pid], n.w.db.owner, n.w.db.kernel, n.w.db.domain);
    assert !MaySend(d, Readings(n, pid), x, ground.epoch);
    HasNoDriver(n.w, pid, x);
    assert Caged(d, Readings(n, pid), x, ground.epoch, true);
  }

  lemma HasNoDriver(w: World, pid: Pid, x: Op)
    requires Inv(w) && w.IsElected(pid) && x in w.agents[pid].d.tasks
    ensures NoDriver(w.agents[pid].d.calls, x)
  {
    var a := w.agents[pid];
    forall c | c in a.d.calls && Drives(a.d.calls[c].phase) ensures a.d.calls[c].op != x {
      assert DriverOk(a.d.calls[c], a.own, a.own == w.db.owner, a.d.tasks, w.db.rows, w.sent);
    }
  }

  // -- An unknown row ---------------------------------------------------------------------------------

  ghost predicate UnknownOk(n: Node, x: Op, own: Ownership) {
    RowIsPast(n.w, x) && NotHeld(n.w, x, own) && Reach(n, x) && own.generation <= n.w.db.owner.generation
  }

  lemma GrantedIsRunning(w: World, pid: Pid, c: CallId)
    requires Inv(w) && w.IsElected(pid) && At(w.agents[pid].d, c, Phase.Answered(Promoted))
    ensures var x := w.agents[pid].d.calls[c].op; x in w.db.rows && w.db.rows[x].state == Running
  {
    var a := w.agents[pid];
    assert DriverOk(a.d.calls[c], a.own, a.own == w.db.owner, a.d.tasks, w.db.rows, w.sent);
  }

  lemma CallAdmits(d: Process, c: CallId, e: CallEvent, x: Op)
    requires CallEnabled(d, c, e) && x !in d.f.admitted && x in ApplyCall(d, c, e).f.admitted
    ensures At(d, c, Phase.Answered(Promoted)) && d.calls[c].op == x
  {
    GateRuns.CallsFrame(d, c, e);
  }

  /** Nobody admits an operation whose row is past running. */
  lemma CallAdmitsNotPast(w: World, pid: Pid, c: CallId, e: CallEvent, x: Op)
    requires Inv(w) && w.IsElected(pid) && RowIsPast(w, x) && CallEnabled(w.agents[pid].d, c, e)
    requires x !in w.agents[pid].d.f.admitted
    ensures x !in ApplyCall(w.agents[pid].d, c, e).f.admitted
  {
    if x in ApplyCall(w.agents[pid].d, c, e).f.admitted {
      CallAdmits(w.agents[pid].d, c, e, x);
      GrantedIsRunning(w, pid, c);
    }
  }

  lemma AdmitsNotPast(w: World, pid: Pid, e: Event, x: Op)
    requires Inv(w) && w.IsElected(pid) && RowIsPast(w, x) && Enabled(w.agents[pid].d, e)
    requires x !in w.agents[pid].d.f.admitted
    ensures x !in Apply(w.agents[pid].d, e).f.admitted
  {
    match e
    case OfGate(g) => GateRuns.GateFrame(w.agents[pid].d, g);
    case OfCall(c, call) => CallAdmitsNotPast(w, pid, c, call, x);
    case OfTask(op, t) => GateRuns.TasksFrame(w.agents[pid].d, op, t);
  }

  lemma NotHeldStays(w: World, e: WorldEvent, x: Op, own: Ownership)
    requires Inv(w) && Can(w, e) && RowIsPast(w, x) && NotHeld(w, x, own) && own.generation <= w.db.owner.generation
    ensures NotHeld(Act(w, e), x, own)
  {
    if e.Local? || e.Answer? {
      if w.agents[e.pid].own == own {
        AdmitsNotPast(w, e.pid, e.e, x);
      }
      OthersNotHeld(w, e, x, own);
    } else {
      NobodyNewHolds(w, e, x, own);
    }
  }

  lemma OthersNotHeld(w: World, e: WorldEvent, x: Op, own: Ownership)
    requires Can(w, e) && (e.Local? || e.Answer?) && NotHeld(w, x, own)
    requires w.agents[e.pid].own == own ==> x !in Apply(w.agents[e.pid].d, e.e).f.admitted
    ensures NotHeld(Act(w, e), x, own)
  {
  }

  lemma NobodyNewHolds(w: World, e: WorldEvent, x: Op, own: Ownership)
    requires Can(w, e) && !e.Local? && !e.Answer? && NotHeld(w, x, own) && own.generation <= w.db.owner.generation
    ensures NotHeld(Act(w, e), x, own)
  {
  }

  lemma UnknownWorld(n: Node, e: WorldEvent, x: Op, own: Ownership)
    requires Inv(n.w) && UnknownOk(n, x, own) && Can(n.w, e)
    ensures UnknownOk(Happened(n, e), x, own)
  {
    SettledStays(n.w, e, x);
    NotHeldStays(n.w, e, x, own);
    GenerationStep(n.w, e);
    ReachWorld(n, e, x);
  }

  lemma UnknownMirror(n: Node, pid: Pid, h: Hold, x: Op, ground: Ground)
    requires Inv(n.w) && ground.RowUnknown? && UnknownOk(n, x, ground.own) && Able(n, Mirror(pid, h), x, ground)
    ensures UnknownOk(Do(n, Mirror(pid, h), x, ground), x, ground.own)
  {
    UnknownWorld(n, Local(pid, OfGate(MirrorEvent(h))), x, ground.own);
    ReachStays(n, Do(n, Mirror(pid, h), x, ground), x);
  }

  lemma UnknownResolve(n: Node, pid: Pid, x: Op, ground: Ground)
    requires OrderOk(n) && ground.RowUnknown? && UnknownOk(n, x, ground.own)
    requires Able(n, ResolveRow(pid), x, ground)
    ensures UnknownOk(Do(n, ResolveRow(pid), x, ground), x, ground.own)
  {
    ResolvedRow(n, pid, x);
    ReachEvidence(n, ResolveRow(pid), x, ground);
  }

  lemma UnknownEvidence(n: Node, e: NodeStep, x: Op, ground: Ground)
    requires OrderOk(n) && ground.RowUnknown? && UnknownOk(n, x, ground.own) && Able(n, e, x, ground)
    requires e == Ask || e == TakeAnswer || e == Refuse
    ensures UnknownOk(Do(n, e, x, ground), x, ground.own)
  {
    ReachEvidence(n, e, x, ground);
  }

  lemma UnknownTouch(n: Node, pid: Pid, op: Op, x: Op, own: Ownership)
    requires Inv(n.w) && UnknownOk(n, x, own) && IsSending(n.w, pid, op)
    ensures UnknownOk(n.(touched := n.touched + {(op, n.now)}), x, own)
  {
    SettledIsNotSent(n.w, x, pid);
  }

  // -- Every step, every run --------------------------------------------------------------------------

  predicate Idles(e: NodeStep) {
    e == RuntimeRestarts || e == OtherAsks || e == Read || e.See? || e == PublishAnswer || e == WitnessRestarts
  }

  lemma IdleKeepsBorn(n: Node, e: NodeStep, x: Op, ground: Ground)
    requires OrderOk(n) && Able(n, e, x, ground) && Idles(e)
    ensures var m := Do(n, e, x, ground);
      && m.w == n.w && m.read == n.read && m.evidence == n.evidence && m.touched == n.touched
      && forall k | k in n.born :: k in m.born && m.born[k] == n.born[k]
  {
  }

  lemma CohortStep(n: Node, e: NodeStep, x: Op, ground: Ground)
    requires Inv(n.w) && OrderOk(n) && ground.InCohort? && CohortOk(n, x, ground)
    requires Able(n, e, x, ground) && !e.Begin? && !e.Check?
    ensures CohortOk(Do(n, e, x, ground), x, ground)
  {
    if Idles(e) {
      IdleKeepsBorn(n, e, x, ground);
      CohortStays(n, Do(n, e, x, ground), x, ground);
    } else if Advances(e) {
      CohortEvidence(n, e, x, ground);
    } else {
      CohortNode(n, e, x, ground);
    }
  }

  predicate Advances(e: NodeStep) {
    e == Ask || e == TakeAnswer || e == Refuse || e.ReadEnd? || e.PassEndTest? || e.ResolveRow?
  }

  lemma CohortEvidence(n: Node, e: NodeStep, x: Op, ground: Ground)
    requires Inv(n.w) && OrderOk(n) && ground.InCohort? && CohortOk(n, x, ground)
    requires Able(n, e, x, ground) && Advances(e)
    ensures CohortOk(Do(n, e, x, ground), x, ground)
  {
    if e.ReadEnd? {
      CohortReadEnd(n, e.pid, x, ground);
    } else if e.PassEndTest? {
      CohortPass(n, e.pid, x, ground);
    } else if e.ResolveRow? {
      CohortResolve(n, e.pid, x, ground);
    } else {
      CohortAdvances(n, e, x, ground);
    }
  }

  lemma CohortNode(n: Node, e: NodeStep, x: Op, ground: Ground)
    requires Inv(n.w) && OrderOk(n) && ground.InCohort? && CohortOk(n, x, ground)
    requires Able(n, e, x, ground) && !Idles(e) && !Advances(e) && !e.Begin? && !e.Check?
    ensures CohortOk(Do(n, e, x, ground), x, ground)
  {
    match e
    case OfWorld(e) => CohortWorld(n, e, x, ground);
    case Touch(pid, op) => CohortTouch(n, pid, op, x, ground);
    case Mirror(pid, h) => CohortMirror(n, pid, h, x, ground);
    case ReadHold(_) => CohortReading(n, e, x, ground);
    case DropReading(_, _) => CohortReading(n, e, x, ground);
  }

  lemma UnknownStep(n: Node, e: NodeStep, x: Op, ground: Ground)
    requires Inv(n.w) && OrderOk(n) && ground.RowUnknown? && UnknownOk(n, x, ground.own)
    requires Able(n, e, x, ground) && !e.Begin? && !e.Check?
    ensures UnknownOk(Do(n, e, x, ground), x, ground.own)
  {
    if Idles(e) {
      IdleKeepsBorn(n, e, x, ground);
      ReachStays(n, Do(n, e, x, ground), x);
      return;
    }
    if e.OfWorld? {
      UnknownWorld(n, e.e, x, ground.own);
    } else if e.Touch? {
      UnknownTouch(n, e.pid, e.op, x, ground.own);
    } else if e.Mirror? {
      UnknownMirror(n, e.pid, e.h, x, ground);
    } else if e.ReadHold? || e.DropReading? {
      ReachStays(n, Do(n, e, x, ground), x);
    } else if e.ResolveRow? {
      UnknownResolve(n, e.pid, x, ground);
    } else {
      UnknownEvidence(n, e, x, ground);
    }
  }

  lemma ResolutionKeepsInv(n: Node, pid: Pid, x: Op, ground: Ground)
    requires Sound(n, x, ground) && Able(n, ResolveRow(pid), x, ground)
    ensures Inv(Resolved(n, pid, x).w)
  {
    assert x !in n.w.agents[pid].d.f.admitted;
    ResolveKeeps(n.w, pid, x);
  }

  lemma StepKeepsWorld(n: Node, e: NodeStep, x: Op, ground: Ground)
    requires Sound(n, x, ground) && Able(n, e, x, ground)
    ensures Inv(Do(n, e, x, ground).w)
  {
    match e
    case OfWorld(e) => StepKeepsInv(n.w, e);
    case Mirror(pid, h) => StepKeepsInv(n.w, Local(pid, OfGate(MirrorEvent(h))));
    case Check(pid) => StepKeepsInv(n.w, Local(pid, OfGate(MirrorEvent(Hold(true, ground.epoch)))));
    case ResolveRow(pid) => ResolutionKeepsInv(n, pid, x, ground);
    case _ =>
  }

  /** An agent that does not hold the operation is the only one of its ownership, and no newer than the owner. */
  lemma NobodyHolds(w: World, pid: Pid, x: Op)
    requires Inv(w) && w.IsElected(pid) && x !in w.agents[pid].d.f.admitted
    ensures NotHeld(w, x, w.agents[pid].own) && w.agents[pid].own.generation <= w.db.owner.generation
  {
    assert ElectedOk(w.agents[pid], w.db.owner, w.db.kernel, w.db.domain);
  }

  lemma UnknownGround(n: Node, pid: Pid, x: Op, own: Ownership)
    requires Inv(n.w) && Grounded(n.w, pid, x, RowUnknown(own))
    ensures UnknownOk(n.(evidence := Begun), x, own)
  {
    NobodyHolds(n.w, pid, x);
  }

  lemma UnknownBegins(n: Node, pid: Pid, x: Op, ground: Ground)
    requires Inv(n.w) && ground.RowUnknown? && Able(n, Begin(pid), x, ground)
    ensures UnknownOk(Do(n, Begin(pid), x, ground), x, ground.own)
  {
    UnknownGround(n, pid, x, ground.own);
  }

  lemma StepSound(n: Node, e: NodeStep, x: Op, ground: Ground)
    requires Sound(n, x, ground) && Able(n, e, x, ground)
    requires e.Begin? ==> !Escapes(n, x, ground)
    ensures Sound(Do(n, e, x, ground), x, ground)
  {
    StepKeepsWorld(n, e, x, ground);
    StepKeepsOrder(n, e, x, ground);
    if e.Begin? || HasBegun(n.evidence) {
      GroundStep(n, e, x, ground);
    }
  }

  lemma GroundStep(n: Node, e: NodeStep, x: Op, ground: Ground)
    requires Inv(n.w) && OrderOk(n) && Able(n, e, x, ground) && (e.Begin? ==> !Escapes(n, x, ground))
    requires !e.Begin? ==> HasBegun(n.evidence) && GroundOk(n, x, ground)
    ensures GroundOk(Do(n, e, x, ground), x, ground)
  {
    if e.Begin? {
      if ground.InCohort? { CohortBegins(n, e.pid, x, ground); } else { UnknownBegins(n, e.pid, x, ground); }
    } else {
      if ground.InCohort? { CohortStep(n, e, x, ground); } else { UnknownStep(n, e, x, ground); }
    }
  }

  /** Once a resolution has begun, it never begins again. */
  lemma StaysBegun(n: Node, e: NodeStep, x: Op, ground: Ground)
    requires Able(n, e, x, ground) && HasBegun(n.evidence)
    ensures HasBegun(Do(n, e, x, ground).evidence) && !e.Begin? && !e.Check?
  {
  }

  lemma {:induction false} RunSound(n: Node, es: seq<NodeStep>, x: Op, ground: Ground)
    requires Sound(n, x, ground) && HasBegun(n.evidence) && Feasible(n, es, x, ground)
    ensures Sound(Afterwards(n, es, x, ground), x, ground)
    decreases |es|
  {
    if es != [] {
      StaysBegun(n, es[0], x, ground);
      StepSound(n, es[0], x, ground);
      RunSound(Do(n, es[0], x, ground), es[1..], x, ground);
    }
  }
}
