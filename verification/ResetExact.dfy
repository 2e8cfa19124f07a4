/**
 The exact condition under which a reset is sound. What cannot be sent any more when the resolution begins
 never is, however the tasks of the node are scheduled; and what is on the wire then reaches, in some run
 that starts every task at once, the runtime that the reset is shown.
 */
module ResetExact {
  import opened Text
  import opened Gate
  import GateSafety
  import GateRuns
  import opened Store
  import opened World
  import opened WorldInv
  import opened WorldSafety
  import opened WorldRuns
  import opened Reset
  import opened ResetSafety
  import opened ResetSound

  // -- Runs, step by step --------------------------------------------------------------------

  ghost predicate Leads(n: Node, m: Node, x: Op, ground: Ground) {
    exists es :: Feasible(n, es, x, ground) && m == Afterwards(n, es, x, ground)
  }

  /** What a process may still do in the very pass of its loop in which it creates a task. */
  predicate IsRegion(e: NodeStep) {
    (e.OfWorld? && e.e.Local?) || e.Mirror? || e.DropReading? || e.Check? || e == Ask || e.PassEndTest?
  }

  ghost predicate NoneUnstarted(w: World) {
    forall pid, op | w.IsElected(pid) && op in w.agents[pid].d.tasks :: w.agents[pid].d.tasks[op] != Created
  }

  /** A created task takes its first step in the next pass: before anything is awaited, or happens elsewhere. */
  ghost predicate Prompt(n: Node, e: NodeStep) {
    IsRegion(e) || NoneUnstarted(n.w)
  }

  ghost predicate AllPrompt(n: Node, es: seq<NodeStep>, x: Op, ground: Ground)
    requires Feasible(n, es, x, ground)
    decreases |es|
  {
    es == [] || (Prompt(n, es[0]) && AllPrompt(Do(n, es[0], x, ground), es[1..], x, ground))
  }

  ghost predicate LeadsPromptly(n: Node, m: Node, x: Op, ground: Ground) {
    exists es :: Feasible(n, es, x, ground) && AllPrompt(n, es, x, ground) && m == Afterwards(n, es, x, ground)
  }

  lemma {:induction false} Append(n: Node, es: seq<NodeStep>, e: NodeStep, x: Op, ground: Ground)
    requires Feasible(n, es, x, ground) && AllPrompt(n, es, x, ground)
    requires Able(Afterwards(n, es, x, ground), e, x, ground) && Prompt(Afterwards(n, es, x, ground), e)
    ensures Feasible(n, es + [e], x, ground) && AllPrompt(n, es + [e], x, ground)
    ensures Afterwards(n, es + [e], x, ground) == Do(Afterwards(n, es, x, ground), e, x, ground)
    decreases |es|
  {
    if es == [] {
      assert (es + [e])[1..] == [];
    } else {
      assert (es + [e])[0] == es[0] && (es + [e])[1..] == es[1..] + [e];
      Append(Do(n, es[0], x, ground), es[1..], e, x, ground);
    }
  }

  lemma LeadsNext(n: Node, m: Node, e: NodeStep, x: Op, ground: Ground)
    requires LeadsPromptly(n, m, x, ground) && Able(m, e, x, ground) && Prompt(m, e)
    ensures LeadsPromptly(n, Do(m, e, x, ground), x, ground)
  {
    var es :| Feasible(n, es, x, ground) && AllPrompt(n, es, x, ground) && m == Afterwards(n, es, x, ground);
    Append(n, es, e, x, ground);
  }

  lemma LeadsSelf(n: Node, x: Op, ground: Ground)
    ensures LeadsPromptly(n, n, x, ground)
  {
    assert Feasible(n, [], x, ground) && AllPrompt(n, [], x, ground) && Afterwards(n, [], x, ground) == n;
  }

  /** A prompt run leads here, and has started every task. */
  ghost predicate Stands(n: Node, m: Node, x: Op, ground: Ground) {
    LeadsPromptly(n, m, x, ground) && NoneUnstarted(m.w)
  }

  /** Steps that no process takes. */
  predicate Elsewhere(e: NodeStep) {
    !e.OfWorld? && !e.Mirror? && !e.Check? && !e.ResolveRow?
  }

  lemma StandsNext(n: Node, m: Node, e: NodeStep, x: Op, ground: Ground)
    requires Stands(n, m, x, ground) && Able(m, e, x, ground) && Elsewhere(e)
    ensures Stands(n, Do(m, e, x, ground), x, ground)
  {
    assert Do(m, e, x, ground).w == m.w;
    LeadsNext(n, m, e, x, ground);
  }

  /** Nothing but the node's processes and their readings differ. */
  predicate SameEvidence(m: Node, k: Node) {
    && k.now == m.now && k.touched == m.touched && k.observer == m.observer && k.incarnation == m.incarnation
    && k.cycles == m.cycles && k.evidence == m.evidence
  }

  // -- Attestations -----------------------------------------------------------------------------

  lemma Looks(m: Node, x: Op, ground: Ground)
    requires m.observer == Idle
    ensures Able(m, Read, x, ground) && Able(Do(m, Read, x, ground), See(true), x, ground)
    ensures Do(Do(m, Read, x, ground), See(true), x, ground)
         == m.(cycles := m.cycles + 1, observer := HasSeen(m.challenge, Some(m.now)))
  {
  }

  lemma Publishes(m: Node, x: Op, ground: Ground)
    requires m.observer.HasSeen?
    ensures Able(m, PublishAnswer, x, ground)
    ensures Do(m, PublishAnswer, x, ground) == m.(observer := Idle, answer :=
              Some(Document(m.observer.nonce, m.incarnation, m.cycles, m.observer.seen)))
  {
  }

  /** One whole cycle of the witness. */
  lemma WitnessAnswers(n: Node, m: Node, x: Op, ground: Ground) returns (k: Node)
    requires Stands(n, m, x, ground) && m.observer == Idle
    ensures Stands(n, k, x, ground)
    ensures k == m.(cycles := m.cycles + 1,
                    answer := Some(Document(m.challenge, m.incarnation, m.cycles + 1, Some(m.now))))
  {
    Looks(m, x, ground);
    StandsNext(n, m, Read, x, ground);
    StandsNext(n, Do(m, Read, x, ground), See(true), x, ground);
    var m1 := m.(cycles := m.cycles + 1, observer := HasSeen(m.challenge, Some(m.now)));
    Publishes(m1, x, ground);
    StandsNext(n, m1, PublishAnswer, x, ground);
    k := Do(m1, PublishAnswer, x, ground);
  }

  lemma Attests(n: Node, m: Node, x: Op, ground: Ground) returns (k: Node)
    requires Stands(n, m, x, ground) && m.evidence == Begun
    ensures Stands(n, k, x, ground) && k.w == m.w && k.read == m.read && k.touched == m.touched && k.now == m.now
    ensures k.observer == Idle && k.evidence.Based?
    ensures k.evidence.baseline.seen == Some(m.now)
    ensures k.evidence.baseline.incarnation == k.incarnation && k.evidence.baseline.number == k.cycles
  {
    StandsNext(n, m, WitnessRestarts, x, ground);
    var m1 := Do(m, WitnessRestarts, x, ground);
    StandsNext(n, m1, Ask, x, ground);
    var m2 := WitnessAnswers(n, Do(m1, Ask, x, ground), x, ground);
    StandsNext(n, m2, TakeAnswer, x, ground);
    k := Do(m2, TakeAnswer, x, ground);
  }

  /** A baseline to which another instance can be shown at any time. */
  predicate Ready(m: Node) {
    && m.observer == Idle && m.evidence.Based?
    && m.evidence.baseline.incarnation == m.incarnation && m.evidence.baseline.number <= m.cycles
    && m.evidence.baseline.seen.Some? && m.evidence.baseline.seen.value < m.now
  }

  lemma AttestsAgain(n: Node, m: Node, x: Op, ground: Ground) returns (k: Node)
    requires Stands(n, m, x, ground) && Ready(m)
    ensures Stands(n, k, x, ground) && k.w == m.w && k.read == m.read && k.touched == m.touched && k.now == m.now
    ensures k.evidence.Shown? && k.evidence.after.seen == Some(m.now)
  {
    StandsNext(n, m, Ask, x, ground);
    var m2 := WitnessAnswers(n, Do(m, Ask, x, ground), x, ground);
    StandsNext(n, m2, TakeAnswer, x, ground);
    k := Do(m2, TakeAnswer, x, ground);
  }

  /** The baseline is taken, and the runtime restarted. */
  lemma BaselineThenRestart(n: Node, m: Node, x: Op, ground: Ground) returns (k: Node)
    requires Stands(n, m, x, ground) && m.evidence == Begun
    ensures Stands(n, k, x, ground) && k.w == m.w && k.read == m.read && Ready(k)
  {
    var m1 := Attests(n, m, x, ground);
    StandsNext(n, m1, RuntimeRestarts, x, ground);
    k := Do(m1, RuntimeRestarts, x, ground);
  }

  lemma ReadStep(n: Node, m: Node, pid: Pid, x: Op, ground: Ground) returns (k: Node)
    requires Stands(n, m, x, ground) && m.w.IsElected(pid)
    ensures Stands(n, k, x, ground) && k.w == m.w && SameEvidence(m, k) && m.w.db.hold in Readings(k, pid)
  {
    StandsNext(n, m, ReadHold(pid), x, ground);
    k := Do(m, ReadHold(pid), x, ground);
  }

  lemma MirrorStarts(w: World, pid: Pid, h: Hold)
    requires NoneUnstarted(w) && Can(w, Local(pid, OfGate(MirrorEvent(h))))
    ensures NoneUnstarted(Act(w, Local(pid, OfGate(MirrorEvent(h)))))
  {
    GateRuns.GateFrame(w.agents[pid].d, MirrorEvent(h));
  }

  lemma MirrorDoes(m: Node, pid: Pid, h: Hold, x: Op, ground: Ground)
    requires m.w.IsElected(pid) && m.w.agents[pid].d.barrier == Open && h in Readings(m, pid)
    ensures Able(m, Mirror(pid, h), x, ground) && Can(m.w, Local(pid, OfGate(MirrorEvent(h))))
    ensures var k := Do(m, Mirror(pid, h), x, ground);
      && k.w == Act(m.w, Local(pid, OfGate(MirrorEvent(h)))) && SameEvidence(m, k) && k.w.db == m.w.db
      && IsOwn(k.w, pid, m.w.agents[pid].own)
      && k.w.agents[pid].d == ApplyGate(m.w.agents[pid].d, MirrorEvent(h))
  {
  }

  lemma MirrorStep(n: Node, m: Node, pid: Pid, h: Hold, x: Op, ground: Ground) returns (k: Node)
    requires Stands(n, m, x, ground) && Inv(m.w) && m.w.IsElected(pid) && m.w.agents[pid].d.barrier == Open
    requires h in Readings(m, pid)
    ensures Stands(n, k, x, ground) && Inv(k.w) && SameEvidence(m, k) && k.w.db == m.w.db
    ensures IsOwn(k.w, pid, m.w.agents[pid].own)
    ensures k.w.agents[pid].d == ApplyGate(m.w.agents[pid].d, MirrorEvent(h))
  {
    MirrorDoes(m, pid, h, x, ground);
    LeadsNext(n, m, Mirror(pid, h), x, ground);
    StepKeepsInv(m.w, Local(pid, OfGate(MirrorEvent(h))));
    MirrorStarts(m.w, pid, h);
    k := Do(m, Mirror(pid, h), x, ground);
  }

  // -- An operation on the wire -------------------------------------------------------------------

  /** `x` has reached the instance that listens, and is still on the wire of `pid`. */
  predicate OnNewRuntime(m: Node, pid: Pid, x: Op) {
    IsSending(m.w, pid, x) && (x, m.now) in m.touched
  }

  lemma Touches(n: Node, m: Node, pid: Pid, x: Op, ground: Ground) returns (k: Node)
    requires Stands(n, m, x, ground) && IsSending(m.w, pid, x)
    ensures Stands(n, k, x, ground) && k == m.(touched := k.touched) && OnNewRuntime(k, pid, x)
  {
    StandsNext(n, m, Touch(pid, x), x, ground);
    k := Do(m, Touch(pid, x), x, ground);
  }

  // -- The agent dies, and its successor goes on ---------------------------------------------------

  lemma CanTakeOver(w: World, pid: Pid)
    requires Inv(w) && IsOwn(w, pid, w.db.owner)
    ensures var v := w.(agents := w.agents - {pid});
      && LockFree(v.agents, w.agents[pid].kernel, w.agents[pid].domain)
      && Claimable(v.db, w.agents[pid].domain, Some(w.agents[pid].kernel))
  {
    assert ElectedOk(w.agents[pid], w.db.owner, w.db.kernel, w.db.domain);
  }

  /** What a successor in the same place finds. */
  ghost predicate Succeeded(m: Node, pid: Pid, x: Op, hold: Hold) {
    && m.w.IsElected(pid) && m.w.agents[pid].own == m.w.db.owner && m.w.agents[pid].d == NewProcess(1, 1)
    && m.w.db.Is(x, Unknown, m.w.db.owner) && m.w.db.hold == hold
  }

  lemma Dies(n: Node, m: Node, pid: Pid, x: Op, ground: Ground) returns (k: Node)
    requires Stands(n, m, x, ground) && Inv(m.w) && m.w.IsElected(pid) && m.evidence.Based?
    ensures Stands(n, k, x, ground) && Inv(k.w) && SameEvidence(m, k)
    ensures k.w == m.w.(agents := m.w.agents - {pid})
  {
    LeadsNext(n, m, OfWorld(Crash(pid)), x, ground);
    StepKeepsInv(m.w, Crash(pid));
    k := Do(m, OfWorld(Crash(pid)), x, ground);
  }

  lemma StartsAgain(n: Node, m: Node, pid: Pid, x: Op, ground: Ground) returns (k: Node)
    requires Stands(n, m, x, ground) && Inv(m.w) && IsOwn(m.w, pid, m.w.db.owner) && m.evidence.Based?
    ensures Stands(n, k, x, ground) && Inv(k.w) && SameEvidence(m, k) && k.w.db == m.w.db
    ensures var a := m.w.agents[pid];
      pid in k.w.agents && k.w.agents[pid] == Starting(a.kernel, a.domain)
      && Claimable(k.w.db, a.domain, Some(a.kernel))
  {
    CanTakeOver(m.w, pid);
    var m1 := Dies(n, m, pid, x, ground);
    var e := Spawn(pid, m.w.agents[pid].kernel, m.w.agents[pid].domain);
    LeadsNext(n, m1, OfWorld(e), x, ground);
    StepKeepsInv(m1.w, e);
    k := Do(m1, OfWorld(e), x, ground);
  }

  lemma TakenOver(m: Node, pid: Pid, x: Op)
    requires Can(m.w, Claim(pid, 0, 1, 1, true)) && x in m.w.db.rows && m.w.db.rows[x].state == Running
    ensures var k := Happened(m, Claim(pid, 0, 1, 1, true));
      SameEvidence(m, k) && Succeeded(k, pid, x, m.w.db.hold) && (NoneUnstarted(m.w) ==> NoneUnstarted(k.w))
  {
  }

  lemma Takes(n: Node, m: Node, pid: Pid, x: Op, ground: Ground) returns (k: Node)
    requires Stands(n, m, x, ground) && Inv(m.w) && Can(m.w, Claim(pid, 0, 1, 1, true))
    requires x in m.w.db.rows && m.w.db.rows[x].state == Running
    ensures Stands(n, k, x, ground) && Inv(k.w) && SameEvidence(m, k) && Succeeded(k, pid, x, m.w.db.hold)
  {
    LeadsNext(n, m, OfWorld(Claim(pid, 0, 1, 1, true)), x, ground);
    StepKeepsInv(m.w, Claim(pid, 0, 1, 1, true));
    TakenOver(m, pid, x);
    k := Happened(m, Claim(pid, 0, 1, 1, true));
  }

  lemma IsSucceeded(n: Node, m: Node, pid: Pid, x: Op, ground: Ground) returns (k: Node)
    requires Stands(n, m, x, ground) && Inv(m.w) && IsOwn(m.w, pid, m.w.db.owner)
    requires x in m.w.db.rows && m.w.db.rows[x].state == Running && m.evidence.Based?
    ensures Stands(n, k, x, ground) && Inv(k.w) && SameEvidence(m, k) && Succeeded(k, pid, x, m.w.db.hold)
  {
    var m1 := StartsAgain(n, m, pid, x, ground);
    k := Takes(n, m1, pid, x, ground);
  }

  lemma FrozenSuccessor(epoch: nat)
    ensures var d := ApplyGate(NewProcess(1, 1), Freeze(Some(epoch)));
      d.f.frozenEpoch == Some(epoch) && d.f.admitted == {}
  {
  }

  /** The end test, with the hold closed and the gate frozen at the reset's epoch. */
  lemma PassesEndTest(n: Node, m: Node, pid: Pid, x: Op, ground: Ground) returns (k: Node)
    requires Stands(n, m, x, ground) && m.evidence.Shown? && m.w.IsElected(pid) && ground.InCohort?
    requires m.w.db.hold == Hold(true, ground.epoch) && m.w.agents[pid].d.f.frozenEpoch == Some(ground.epoch)
    ensures Stands(n, k, x, ground) && k == m.(evidence := Tested(m.evidence.baseline, m.evidence.after, pid))
  {
    StandsNext(n, m, ReadEnd(pid), x, ground);
    var m1 := Do(m, ReadEnd(pid), x, ground);
    StandsNext(n, m1, PassEndTest(pid), x, ground);
    k := Do(m1, PassEndTest(pid), x, ground);
  }

  /** The row is resolved, whatever its operation has reached. */
  lemma Resolves(n: Node, m: Node, pid: Pid, x: Op, ground: Ground) returns (k: Node)
    requires Stands(n, m, x, ground) && ground.InCohort? && m.evidence.Tested? && m.evidence.pid == pid
    requires IsOwn(m.w, pid, m.w.db.owner) && m.w.db.Is(x, Unknown, m.w.db.owner) && x !in m.w.agents[pid].d.f.admitted
    ensures Stands(n, k, x, ground) && k.evidence == Done(m.evidence.baseline, m.evidence.after)
    ensures k.touched == m.touched && k.w.db.hold == m.w.db.hold
  {
    LeadsNext(n, m, ResolveRow(pid), x, ground);
    k := Do(m, ResolveRow(pid), x, ground);
  }

  lemma ReachedIsNotGone(k: Node, x: Op, i: Instance)
    requires k.evidence.Done? && k.evidence.after.seen == Some(i) && (x, i) in k.touched
    ensures !Gone(k, x)
  {
    var t := (x, i);
    assert t in k.touched && t.0 == x && t.1 == i;
  }

  /** What reaches the new runtime before the second attestation is resolved on it by a successor. */
  lemma SuccessorResolves(n: Node, m: Node, pid: Pid, x: Op, ground: Ground) returns (k: Node)
    requires Stands(n, m, x, ground) && Inv(m.w) && Ready(m) && OnNewRuntime(m, pid, x)
    requires ground.InCohort? && m.w.db.hold == Hold(true, ground.epoch)
    ensures Stands(n, k, x, ground) && !Gone(k, x) && k.w.db.hold == m.w.db.hold
  {
    SenderOwnsNode(m.w, pid, x);
    var m1 := IsSucceeded(n, m, pid, x, ground);
    var m2 := ReadStep(n, m1, pid, x, ground);
    FrozenSuccessor(ground.epoch);
    var m3 := MirrorStep(n, m2, pid, Hold(true, ground.epoch), x, ground);
    var m4 := AttestsAgain(n, m3, x, ground);
    var m5 := PassesEndTest(n, m4, pid, x, ground);
    k := Resolves(n, m5, pid, x, ground);
    ReachedIsNotGone(k, x, m.now);
  }

  // -- The exact condition ---------------------------------------------------------------------------

  /** A node on which no resolution has begun, after any run from a fresh one. */
  ghost predicate Arises(m: Node, x: Op, ground: Ground) {
    !HasBegun(m.evidence) && exists n :: Fresh(n) && Leads(n, m, x, ground)
  }

  lemma {:induction false} NotBegunRun(n: Node, es: seq<NodeStep>, x: Op, ground: Ground)
    requires Sound(n, x, ground) && Feasible(n, es, x, ground) && !HasBegun(Afterwards(n, es, x, ground).evidence)
    ensures Sound(Afterwards(n, es, x, ground), x, ground)
    decreases |es|
  {
    if es != [] {
      if es[0].Begin? || HasBegun(n.evidence) {
        BegunRun(Do(n, es[0], x, ground), es[1..], x, ground);
      } else {
        StepSound(n, es[0], x, ground);
        NotBegunRun(Do(n, es[0], x, ground), es[1..], x, ground);
      }
    }
  }

  lemma {:induction false} BegunRun(n: Node, es: seq<NodeStep>, x: Op, ground: Ground)
    requires HasBegun(n.evidence) && Feasible(n, es, x, ground)
    ensures HasBegun(Afterwards(n, es, x, ground).evidence)
    decreases |es|
  {
    if es != [] {
      StaysBegun(n, es[0], x, ground);
      BegunRun(Do(n, es[0], x, ground), es[1..], x, ground);
    }
  }

  lemma ArisenIsSound(m: Node, x: Op, ground: Ground)
    requires Arises(m, x, ground)
    ensures Sound(m, x, ground)
  {
    var n :| Fresh(n) && Leads(n, m, x, ground);
    var es :| Feasible(n, es, x, ground) && m == Afterwards(n, es, x, ground);
    FreshOrder(n);
    NotBegunRun(n, es, x, ground);
  }

  lemma PromptIsARun(n: Node, m: Node, x: Op, ground: Ground)
    requires LeadsPromptly(n, m, x, ground)
    ensures Leads(n, m, x, ground)
  {
  }

  /** However its tasks are scheduled, what cannot escape when the resolution begins never does. */
  lemma SoundUnlessItEscapes(m: Node, pid: Pid, x: Op, ground: Ground)
    requires Arises(m, x, ground) && Able(m, Begin(pid), x, ground) && !Escapes(m, x, ground)
    ensures forall k | Leads(Do(m, Begin(pid), x, ground), k, x, ground) :: Gone(k, x)
  {
    ArisenIsSound(m, x, ground);
    var b := Do(m, Begin(pid), x, ground);
    StepSound(m, Begin(pid), x, ground);
    forall k | Leads(b, k, x, ground) ensures Gone(k, x) {
      var es :| Feasible(b, es, x, ground) && k == Afterwards(b, es, x, ground);
      RunSound(b, es, x, ground);
      SoundIsGone(k, x, ground);
    }
  }

  /** The agent that fixes the cohort has `x` on the wire, and the hold is closed. */
  predicate StillSent(n: Node, pid: Pid, x: Op, ground: Ground) {
    ground.InCohort? && n.w.db.hold == Hold(true, ground.epoch) && IsSending(n.w, pid, x)
  }

  /** With every task started, only what is on the wire can escape. */
  lemma EscapeIsOnTheWire(m: Node, pid: Pid, x: Op, ground: Ground)
    requires Inv(m.w) && IsOwn(m.w, pid, ground.own) && NoneUnstarted(m.w)
    ensures Escapes(m, x, ground) <==> StillSent(m, pid, x, ground)
  {
    var d := m.w.agents[pid].d;
    assert AgentOk(d, ground.own, ground.own == m.w.db.owner, m.w.db.rows, m.w.sent, m.w.evidence);
    if ground.InCohort? {
      assert IsSending(m.w, pid, x) <==> MaySend(d, Readings(m, pid), x, ground.epoch);
    }
  }

  /** What is on the wire when the cohort is fixed can be resolved on the restarted runtime that it reaches. */
  lemma SenderEscapes(n: Node, b: Node, pid: Pid, x: Op, ground: Ground) returns (k: Node)
    requires Stands(n, b, x, ground) && Inv(b.w) && b.evidence == Begun && StillSent(b, pid, x, ground)
    ensures LeadsPromptly(n, k, x, ground) && !Gone(k, x) && k.w.db.hold == b.w.db.hold
  {
    var m := BaselineThenRestart(n, b, x, ground);
    var m1 := Touches(n, m, pid, x, ground);
    k := SuccessorResolves(n, m1, pid, x, ground);
  }

  /**
   A resolution that begins on a node is sound on every continuation if and only if its operation is not on
   the wire then: always for an unknown row, and for a member of a cohort exactly if its relay is not
   sending when the cohort is fixed. It makes no difference to this how late a task may be started
   afterwards; when the resolution begins every task has been, as that is not the pass that created it.
   */
  lemma ResetIsSoundExactly(m: Node, pid: Pid, x: Op, ground: Ground)
    requires Arises(m, x, ground) && Able(m, Begin(pid), x, ground) && Prompt(m, Begin(pid))
    ensures var b, sent := Do(m, Begin(pid), x, ground), StillSent(m, pid, x, ground);
      && ((forall k | LeadsPromptly(b, k, x, ground) :: Gone(k, x)) <==> !sent)
      && ((forall k | Leads(b, k, x, ground) :: Gone(k, x)) <==> !sent)
  {
    ArisenIsSound(m, x, ground);
    EscapeIsOnTheWire(m, pid, x, ground);
    var b := Do(m, Begin(pid), x, ground);
    if StillSent(m, pid, x, ground) {
      LeadsSelf(b, x, ground);
      var k := SenderEscapes(b, b, pid, x, ground);
      PromptIsARun(b, k, x, ground);
    } else {
      SoundUnlessItEscapes(m, pid, x, ground);
      forall k | LeadsPromptly(b, k, x, ground) ensures Leads(b, k, x, ground) {
        PromptIsARun(b, k, x, ground);
      }
    }
  }

  // -- The row --------------------------------------------------------------------------------------

  /** No resolution in this run begins with an operation that could escape. */
  ghost predicate NoneEscapes(n: Node, es: seq<NodeStep>, x: Op, ground: Ground)
    requires Feasible(n, es, x, ground)
    decreases |es|
  {
    es == [] || ((es[0].Begin? ==> !Escapes(n, x, ground)) && NoneEscapes(Do(n, es[0], x, ground), es[1..], x, ground))
  }

  lemma {:induction false} UnescapedRun(n: Node, es: seq<NodeStep>, x: Op, ground: Ground)
    requires Sound(n, x, ground) && Feasible(n, es, x, ground) && NoneEscapes(n, es, x, ground)
    ensures Sound(Afterwards(n, es, x, ground), x, ground)
    decreases |es|
  {
    if es != [] {
      StepSound(n, es[0], x, ground);
      UnescapedRun(Do(n, es[0], x, ground), es[1..], x, ground);
    }
  }

  lemma SettledForAll(w: World, x: Op)
    requires Inv(w) && RowIsPast(w, x)
    ensures forall q :: !IsSending(w, q, x)
  {
    forall q ensures !IsSending(w, q, x) {
      SettledIsNotSent(w, x, q);
    }
  }

  lemma RowMoves(m: Node, pid: Pid, x: Op)
    requires m.w.IsElected(pid) && (m.evidence.Shown? || m.evidence.Tested?) && IsUnknown(m.w, x)
    requires Resolved(m, pid, x).w.db.rows[x].state == Failed
    ensures var k := Resolved(m, pid, x);
      && k.evidence == Done(m.evidence.baseline, m.evidence.after) && k.touched == m.touched && k.now == m.now
      && RowIsPast(k.w, x)
  {
  }

  lemma ReplacedByThen(m: Node, pid: Pid, x: Op, ground: Ground, i: Instance)
    requires m.w.IsElected(pid) && (m.evidence.Shown? || m.evidence.Tested?) && x in m.w.db.rows
    requires Sound(m, x, ground) && Able(m, ResolveRow(pid), x, ground) && IsUnknown(m.w, x)
    requires Resolved(m, pid, x).w.db.rows[x].state == Failed && (x, i) in m.touched
    ensures m.evidence.after.seen.Some? && i < m.evidence.after.seen.value <= m.now
    ensures forall q :: !IsSending(Resolved(m, pid, x).w, q, x)
  {
    var k := Resolved(m, pid, x);
    StepSound(m, ResolveRow(pid), x, ground);
    RowMoves(m, pid, x);
    SoundIsGone(k, x, ground);
    var t := (x, i);
    assert t in k.touched && t.0 == x;
    SettledForAll(k.w, x);
  }

  /**
   In the very step in which a reset turns the row of `x` from unknown to failed, every runtime instance
   that any byte of it ever reached has been replaced by the instance that was shown, or by one before it,
   and no process has it on the wire.
   */
  lemma ResolvedMeansReplaced(n: Node, es: seq<NodeStep>, pid: Pid, x: Op, ground: Ground, i: Instance)
    requires Fresh(n) && Feasible(n, es, x, ground) && NoneEscapes(n, es, x, ground)
    requires var m := Afterwards(n, es, x, ground);
      && Able(m, ResolveRow(pid), x, ground) && IsUnknown(m.w, x)
      && Resolved(m, pid, x).w.db.rows[x].state == Failed
      && (x, i) in m.touched
    ensures var m := Afterwards(n, es, x, ground);
      m.evidence.after.seen.Some? && i < m.evidence.after.seen.value <= m.now
    ensures forall q :: !IsSending(Resolved(Afterwards(n, es, x, ground), pid, x).w, q, x)
  {
    FreshOrder(n);
    UnescapedRun(n, es, x, ground);
    ReplacedByThen(Afterwards(n, es, x, ground), pid, x, ground, i);
  }
}
