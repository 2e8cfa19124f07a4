/**
 What holds in every run of a node: crashes, takeovers, kernel changes, lost acknowledgements,
 cancellations, holds and resets in any order.
 */
module WorldRuns {
  import opened Text
  import opened Gate
  import GateSafety
  import GateRuns
  import opened Store
  import opened World
  import opened WorldInv
  import opened WorldAnswers
  import opened WorldSafety
  import opened WorldKnows

  ghost predicate Possible(w: World, es: seq<WorldEvent>)
    decreases |es|
  {
    es == [] || (Can(w, es[0]) && Possible(Act(w, es[0]), es[1..]))
  }

  ghost function Then(w: World, es: seq<WorldEvent>): World
    requires Possible(w, es)
    decreases |es|
  {
    if es == [] then w else Then(Act(w, es[0]), es[1..])
  }

  ghost predicate Reachable(w: World) {
    exists hold, es :: Possible(Unclaimed(hold), es) && w == Then(Unclaimed(hold), es)
  }

  lemma {:induction false} RunKeepsInv(w: World, es: seq<WorldEvent>)
    requires Inv(w) && Possible(w, es)
    ensures Inv(Then(w, es)) && (KnowsOk(w) ==> KnowsOk(Then(w, es)))
    decreases |es|
  {
    if es != [] {
      StepKeepsInv(w, es[0]);
      if KnowsOk(w) {
        StepKnows(w, es[0]);
      }
      RunKeepsInv(Act(w, es[0]), es[1..]);
    }
  }

  lemma ReachableInv(w: World)
    requires Reachable(w)
    ensures Inv(w) && KnowsOk(w)
  {
    var hold, es :| Possible(Unclaimed(hold), es) && w == Then(Unclaimed(hold), es);
    UnclaimedInv(hold);
    RunKeepsInv(Unclaimed(hold), es);
  }

  // -- Sends --------------------------------------------------------------------------------

  /** However often an operation is submitted, lost, cancelled or inherited, its relay starts at most once. */
  lemma AtMostOneSend(w: World, op: Op)
    requires Reachable(w)
    ensures w.sent[op] <= 1
    ensures op !in w.db.rows || w.db.rows[op].state == Accepted || w.db.rows[op].state == CancelledUnsent ==>
              w.sent[op] == 0
  {
    ReachableInv(w);
    if op in w.db.rows {
      assert RowOk(op, w.db.rows[op], w.db.owner.generation, w.sent, w.evidence, w.resolved);
    }
  }

  predicate StartsSend(w: World, pid: Pid, op: Op) {
    w.IsElected(pid) && Sends(w.agents[pid].d, OfTask(op, Start))
  }

  predicate IsSending(w: World, pid: Pid, op: Op) {
    w.IsElected(pid) && op in w.agents[pid].d.f.sending
  }

  /** Whoever starts a send, or has one on the wire, is the owner by the tables, and the only one. */
  lemma SenderOwnsNode(w: World, pid: Pid, op: Op)
    requires Inv(w) && (StartsSend(w, pid, op) || IsSending(w, pid, op))
    ensures w.agents[pid].own == w.db.owner
    ensures op in w.db.rows && w.db.rows[op].state == Running && w.db.rows[op].origin == w.db.owner
    ensures forall q | w.IsElected(q) && w.agents[q].own == w.db.owner :: q == pid
  {
    var a := w.agents[pid];
    assert op in a.d.tasks && (a.d.tasks[op] == Created || a.d.tasks[op] == Sending);
    assert TaskOk(op, a.d.tasks[op], a.own == w.db.owner, w.db.rows[op], w.sent, w.evidence);
  }

  /** In all of a node there is never more than one process with anything on the wire. */
  lemma SingleSender(w: World, p: Pid, q: Pid, x: Op, y: Op)
    requires Reachable(w) && IsSending(w, p, x) && (IsSending(w, q, y) || StartsSend(w, q, y))
    ensures p == q
  {
    ReachableInv(w);
    SenderOwnsNode(w, p, x);
    SenderOwnsNode(w, q, y);
  }

  lemma GenerationStep(w: World, e: WorldEvent)
    requires Can(w, e)
    ensures w.db.owner.generation <= Act(w, e).db.owner.generation
  {
    match e
    case Answer(pid, e, commits) => TxKeepsOwner(w.db, w.agents[pid].own, w.agents[pid].d, e);
    case _ =>
  }

  lemma TxKeepsOwner(db: Db, own: Ownership, d: Process, e: Event)
    requires Enabled(d, e) && AwaitsDatabase(e)
    ensures Tx(db, own, d, e).0 == db.(rows := Tx(db, own, d, e).0.rows)
  {
  }

  /** The events of a run that put a relay of an older generation than `g` on the wire. */
  ghost predicate StaleSend(w: World, es: seq<WorldEvent>, g: nat)
    requires Possible(w, es)
    decreases |es|
  {
    && es != []
    && (StaleStart(w, es[0], g) || StaleSend(Act(w, es[0]), es[1..], g))
  }

  ghost predicate StaleStart(w: World, e: WorldEvent, g: nat) {
    && e.Local? && e.e.OfTask? && StartsSend(w, e.pid, e.e.op) && e.e.task == Start
    && w.agents[e.pid].own.generation < g
  }

  /** Once a takeover has committed, no process of an older generation ever starts a send again. */
  lemma {:induction false} TakeoverSilencesTheOld(w: World, es: seq<WorldEvent>, g: nat)
    requires Inv(w) && Possible(w, es) && g <= w.db.owner.generation
    ensures !StaleSend(w, es, g)
    decreases |es|
  {
    if es != [] {
      if StaleStart(w, es[0], g) {
        SenderOwnsNode(w, es[0].pid, es[0].e.op);
      }
      StepKeepsInv(w, es[0]);
      GenerationStep(w, es[0]);
      TakeoverSilencesTheOld(Act(w, es[0]), es[1..], g);
    }
  }

  // -- Rows ------------------------------------------------------------------------------------

  lemma SameRowsEvolve(rows: Rows)
    ensures Evolves(rows, rows)
  {
  }

  lemma CallTxEvolves(db: Db, own: Ownership, op: Op, e: CallEvent)
    ensures Evolves(db.rows, CallTx(db, own, op, e).0.rows)
  {
  }

  lemma SettleEvolves(db: Db, own: Ownership, op: Op, o: Outcome)
    ensures Evolves(db.rows, SettleTx(db, own, op, o).0.rows)
  {
  }

  lemma AnswerEvolves(db: Db, own: Ownership, d: Process, e: Event)
    requires Enabled(d, e) && AwaitsDatabase(e)
    ensures Evolves(db.rows, Tx(db, own, d, e).0.rows)
  {
    match e
    case OfGate(_) => SameRowsEvolve(db.rows);
    case OfCall(c, call) => CallTxEvolves(db, own, d.calls[c].op, call);
    case OfTask(op, _) => SettleEvolves(db, own, op, d.tasks[op].outcome);
  }

  lemma StepEvolves(w: World, e: WorldEvent)
    requires Can(w, e)
    ensures Evolves(w.db.rows, Act(w, e).db.rows)
  {
    match e
    case Answer(pid, e, commits) => AnswerEvolves(w.db, w.agents[pid].own, w.agents[pid].d, e);
    case Cancel(pid, op) => CallTxEvolves(w.db, w.agents[pid].own, op, CancelAnswers(Committed));
    case _ =>
  }

  /**
   Rows only move forward: no row is lost or returns to an earlier state, a terminal one never
   changes again, and the origin stays whatever process takes over.
   */
  lemma {:induction false} RowsMoveForward(w: World, es: seq<WorldEvent>)
    requires Possible(w, es)
    ensures Evolves(w.db.rows, Then(w, es).db.rows)
    decreases |es|
  {
    if es != [] {
      StepEvolves(w, es[0]);
      RowsMoveForward(Act(w, es[0]), es[1..]);
      EvolvesTransitive(w.db.rows, Act(w, es[0]).db.rows, Then(w, es).db.rows);
    }
  }

  /** `cancelled_unsent` tells the truth, now and for ever. */
  lemma CancelledStaysUnsent(w: World, es: seq<WorldEvent>, op: Op)
    requires Inv(w) && Possible(w, es) && op in w.db.rows && w.db.rows[op].state == CancelledUnsent
    ensures var v := Then(w, es); op in v.db.rows && v.db.rows[op] == w.db.rows[op] && v.sent[op] == 0
    ensures forall pid :: !IsSending(Then(w, es), pid, op) && !StartsSend(Then(w, es), pid, op)
  {
    RowsMoveForward(w, es);
    RunKeepsInv(w, es);
    var v := Then(w, es);
    assert RowEvolves(w.db.rows[op], v.db.rows[op]);
    assert RowOk(op, v.db.rows[op], v.db.owner.generation, v.sent, v.evidence, v.resolved);
    NotRunningNotSent(v, op);
  }

  lemma NotRunningNotSent(w: World, op: Op)
    requires Inv(w) && (op in w.db.rows ==> w.db.rows[op].state != Running)
    ensures forall pid :: !IsSending(w, pid, op) && !StartsSend(w, pid, op)
  {
    forall pid ensures !IsSending(w, pid, op) && !StartsSend(w, pid, op) {
      if IsSending(w, pid, op) || StartsSend(w, pid, op) {
        SenderOwnsNode(w, pid, op);
      }
    }
  }

  /** An unknown operation is nobody's to send, from then on: what a reset relies on. */
  lemma UnknownIsNeverSentAgain(w: World, es: seq<WorldEvent>, op: Op)
    requires Inv(w) && Possible(w, es) && op in w.db.rows && w.db.rows[op].state == Unknown
    ensures forall pid :: !IsSending(Then(w, es), pid, op) && !StartsSend(Then(w, es), pid, op)
  {
    RowsMoveForward(w, es);
    RunKeepsInv(w, es);
    assert RowEvolves(w.db.rows[op], Then(w, es).db.rows[op]);
    NotRunningNotSent(Then(w, es), op);
  }

  // -- Uncertainty --------------------------------------------------------------------------------

  /** Sent, with neither the runtime's word on its end nor a reset that spoke for it. */
  ghost predicate Uncertain(w: World, op: Op) {
    w.sent[op] > 0 && op !in w.evidence && op !in w.resolved
  }

  /**
   Uncertainty is never lost: the tables hold it open, and as long as they say no more than running, the
   owner, if it lives, has it on its wire or knows of it, unless it was cancelled in between.
   */
  lemma UncertaintyIsKept(w: World, op: Op)
    requires Reachable(w) && Uncertain(w, op)
    ensures op in w.db.rows && (w.db.rows[op].state == Running || w.db.rows[op].state == Unknown)
    ensures forall pid | w.IsElected(pid) && w.agents[pid].own == w.db.owner && w.db.rows[op].state == Running ::
              var d := w.agents[pid].d;
              OnTheWire(d.tasks, op) || op in d.f.uncommitted || op in d.forgotten
  {
    ReachableInv(w);
    assert RowOk(op, w.db.rows[op], w.db.owner.generation, w.sent, w.evidence, w.resolved);
  }

  /** Uncertain, and neither on the wire of the owner nor known to it. */
  ghost predicate Hidden(w: World, pid: Pid, op: Op)
    requires w.IsElected(pid)
  {
    && Uncertain(w, op) && op in w.db.rows && w.db.rows[op].state == Running
    && !OnTheWire(w.agents[pid].d.tasks, op) && op !in w.agents[pid].d.f.uncommitted
  }

  /** What is hidden from the owner is exactly what a cancelled task of its own forgot. */
  lemma HiddenExactly(w: World, pid: Pid, op: Op)
    requires Inv(w) && KnowsOk(w) && w.IsElected(pid) && w.agents[pid].own == w.db.owner
    ensures Hidden(w, pid, op) <==> op in w.agents[pid].d.forgotten
  {
    if Hidden(w, pid, op) {
      assert AgentOk(w.agents[pid].d, w.db.owner, true, w.db.rows, w.sent, w.evidence);
    }
  }

  lemma ForgettingStep(w: World, e: WorldEvent, pid: Pid, op: Op)
    requires Can(w, e) && w.IsElected(pid) && Act(w, e).IsElected(pid)
    requires op !in w.agents[pid].d.forgotten && op in Act(w, e).agents[pid].d.forgotten
    ensures e == Local(pid, OfTask(op, AbandonNote))
  {
    assert e.Local? || e.Answer?;
    GateRuns.OnlyCancellationForgets(w.agents[pid].d, e.e, op);
  }

  /** A step hides an uncertain send from the owner exactly if it cancels the task that waits to note it. */
  lemma OnlyCancellationHides(w: World, e: WorldEvent, pid: Pid, op: Op)
    requires Inv(w) && KnowsOk(w) && Can(w, e) && w.IsElected(pid) && w.agents[pid].own == w.db.owner
    requires Act(w, e).IsElected(pid) && Act(w, e).db.owner == w.db.owner
    ensures !Hidden(w, pid, op) && Hidden(Act(w, e), pid, op) <==> e == Local(pid, OfTask(op, AbandonNote))
  {
    StepKeepsInv(w, e);
    StepKnows(w, e);
    HiddenExactly(w, pid, op);
    OwnStays(w, e, pid);
    HiddenExactly(Act(w, e), pid, op);
    if op !in w.agents[pid].d.forgotten && op in Act(w, e).agents[pid].d.forgotten {
      ForgettingStep(w, e, pid, op);
    }
    if e == Local(pid, OfTask(op, AbandonNote)) {
      assert OnTheWire(w.agents[pid].d.tasks, op);
    }
  }

  lemma OwnStays(w: World, e: WorldEvent, pid: Pid)
    requires Can(w, e) && w.IsElected(pid) && Act(w, e).IsElected(pid)
    ensures Act(w, e).agents[pid].own == w.agents[pid].own
  {
  }

  /**
   When the owner's gate serves, however a reopening raced a commit: no row is unknown, nothing
   uncertain awaits its commit, and the uncertain sends are exactly those on its own wire or just off it,
   and those whose task was cancelled between its end and the barrier; none is both.
   */
  lemma ServingMeansNothingUnknown(w: World, pid: Pid, op: Op)
    requires Reachable(w) && w.IsElected(pid) && w.agents[pid].own == w.db.owner
    requires w.agents[pid].d.f.gate == Serving
    ensures NoneIs(w.db.rows, Unknown) && w.agents[pid].d.f.uncommitted == {}
    ensures Uncertain(w, op) <==> OnTheWire(w.agents[pid].d.tasks, op) || op in w.agents[pid].d.forgotten
    ensures !(OnTheWire(w.agents[pid].d.tasks, op) && op in w.agents[pid].d.forgotten)
  {
    ReachableInv(w);
    var d := w.agents[pid].d;
    if Uncertain(w, op) {
      UncertaintyIsKept(w, op);
    }
    if OnTheWire(d.tasks, op) {
      assert Pending(op, w.sent, w.evidence);
      assert TaskOk(op, d.tasks[op], true, w.db.rows[op], w.sent, w.evidence);
    }
    if op in d.forgotten {
      assert Pending(op, w.sent, w.evidence);
    }
  }

  /** So a serving owner has every uncertain send on its wire exactly as long as no task was cancelled like that. */
  lemma NothingForgottenExactly(w: World, pid: Pid)
    requires Reachable(w) && w.IsElected(pid) && w.agents[pid].own == w.db.owner
    requires w.agents[pid].d.f.gate == Serving
    ensures (forall op | Uncertain(w, op) :: OnTheWire(w.agents[pid].d.tasks, op)) <==> w.agents[pid].d.forgotten == {}
  {
    var d := w.agents[pid].d;
    forall op ensures Uncertain(w, op) <==> OnTheWire(d.tasks, op) || op in d.forgotten {
      ServingMeansNothingUnknown(w, pid, op);
    }
    if op :| op in d.forgotten {
      ServingMeansNothingUnknown(w, pid, op);
      assert Uncertain(w, op) && !OnTheWire(d.tasks, op);
    }
  }

  /** A row that ended by the runtime's word did get it, and at most one result is stored, for a completion. */
  lemma TerminalRowsAreTrue(w: World, op: Op)
    requires Reachable(w) && op in w.db.rows
    ensures w.db.rows[op].state == RowState.Completed ==> w.sent[op] == 1 && op in w.evidence
    ensures w.db.rows[op].state == Failed ==> op in w.evidence || op in w.resolved
    ensures w.db.rows[op].results <= 1
    ensures w.db.rows[op].results == 1 ==> w.db.rows[op].state == RowState.Completed
    ensures !Terminal(w.db.rows[op].state) ==> w.db.rows[op].owner == w.db.owner.generation
  {
    ReachableInv(w);
    assert RowOk(op, w.db.rows[op], w.db.owner.generation, w.sent, w.evidence, w.resolved);
  }

  /**
   However often a settlement was retried, once it is acknowledged the row is exactly what it settled, and
   a result is stored once exactly if the outcome carried one.
   */
  lemma SettlementIsExact(w: World, pid: Pid, op: Op, o: Outcome)
    requires Reachable(w) && w.IsElected(pid) && w.agents[pid].own == w.db.owner
    requires op in w.agents[pid].d.tasks && w.agents[pid].d.tasks[op] == Settled(o, Committed)
    ensures op in w.db.rows && w.db.rows[op].state == Target(o)
    ensures o.Completed? ==> w.db.rows[op].results == if o.stored then 1 else 0
    ensures o == Withheld ==> w.sent[op] == 0
    ensures Evident(o) ==> op in w.evidence
  {
    ReachableInv(w);
    assert TaskOk(op, Settled(o, Committed), true, w.db.rows[op], w.sent, w.evidence);
  }

  // -- Promotions --------------------------------------------------------------------------------

  ghost predicate IsPromoted(w: World, e: WorldEvent, op: Op)
    requires Can(w, e)
  {
    && op in w.db.rows && w.db.rows[op].state != Running
    && op in Act(w, e).db.rows && Act(w, e).db.rows[op].state == Running
  }

  lemma OnlyPromotionRuns(db: Db, own: Ownership, d: Process, e: Event, op: Op)
    requires Enabled(d, e) && AwaitsDatabase(e)
    requires var db' := Tx(db, own, d, e).0;
      op in db.rows && db.rows[op].state != Running && op in db'.rows && db'.rows[op].state == Running
    ensures e.OfCall? && e.call.PromoteAnswers? && d.calls[e.c].op == op
    ensures own == db.owner && HoldAdmits(db.hold, op.kind) && NoneIs(db.rows, Unknown) && db.rows[op].state == Accepted
  {
  }

  /**
   Every promotion, acknowledged or not, was made by the owner, for a caller under the barrier whose
   gate admits it, with nothing unknown, and with the hold open, or closed at the restore's own epoch.
   */
  lemma PromotionsAreAuthorised(w: World, e: WorldEvent, op: Op)
    requires Inv(w) && Can(w, e) && IsPromoted(w, e, op)
    ensures e.Answer? && w.agents[e.pid].own == w.db.owner
    ensures w.agents[e.pid].d.f.Admits(op)
    ensures w.db.rows[op].state == Accepted && NoneIs(w.db.rows, Unknown)
    ensures match op.kind
            case Restore(epoch) => w.db.hold == Hold(true, epoch)
            case _ => w.db.hold.Hold? && !w.db.hold.closed
  {
    OnlyAnswersPromote(w, e, op);
    var a := w.agents[e.pid];
    OnlyPromotionRuns(w.db, a.own, a.d, e.e, op);
    PromoterIsAdmitted(a.d, e.e.c);
  }

  lemma OnlyAnswersPromote(w: World, e: WorldEvent, op: Op)
    requires Can(w, e) && IsPromoted(w, e, op)
    ensures e.Answer? && e.commits
  {
  }

  lemma PromoterIsAdmitted(d: Process, c: CallId)
    requires GateSafety.Valid(d) && At(d, c, Promoting)
    ensures d.f.Admits(d.calls[c].op)
  {
    assert GateSafety.UnderBarrier(d.calls[c].phase);
  }

  /** The promotion a caller is granted never meets a task of the same operation. */
  lemma GrantMeetsNoTask(w: World, pid: Pid, c: CallId)
    requires Reachable(w) && w.IsElected(pid) && At(w.agents[pid].d, c, Phase.Answered(Promoted))
    ensures Enabled(w.agents[pid].d, OfCall(c, Promote))
  {
    ReachableInv(w);
    var a := w.agents[pid];
    assert DriverOk(a.d.calls[c], a.own, a.own == w.db.owner, a.d.tasks, w.db.rows, w.sent);
  }

  // -- Takeover --------------------------------------------------------------------------------------

  /** A takeover is conservative: what may have been sent is unknown, what cannot have been is cancelled. */
  lemma TakeoverIsConservative(w: World, pid: Pid, boot: nat, slots: nat, room: nat, acknowledged: bool, op: Op)
    requires Inv(w) && Can(w, Claim(pid, boot, slots, room, acknowledged)) && op in w.db.rows
    ensures var s, t := w.db.rows[op], Claimed(w, pid, boot, slots, room, acknowledged).db.rows[op];
      && t.state != Accepted && t.state != Running
      && (t.state == Unknown <==> s.state == Running || s.state == Unknown)
      && (s.state == Accepted ==> t.state == CancelledUnsent && w.sent[op] == 0)
      && (Terminal(s.state) ==> t == s) && t.origin == s.origin
      && (t.state == Unknown ==> t.owner == w.db.owner.generation + 1)
  {
    assert RowOk(op, w.db.rows[op], w.db.owner.generation, w.sent, w.evidence, w.resolved);
  }

  /** Nobody promotes anything while any row is unknown. */
  lemma NothingPromotedWhileUnknown(w: World, e: WorldEvent, op: Op)
    requires Inv(w) && Can(w, e) && !NoneIs(w.db.rows, Unknown)
    ensures !IsPromoted(w, e, op)
  {
    if IsPromoted(w, e, op) {
      PromotionsAreAuthorised(w, e, op);
    }
  }
}
