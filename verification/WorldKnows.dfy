/**
 What the owner of a node knows of the sends whose end it has not heard: the converse of the invariant.
 Whatever is on its wire, or was forgotten by a cancelled task, has been sent, and nobody has had the
 runtime's word on it.
 */
module WorldKnows {
  import opened Text
  import opened Gate
  import GateSafety
  import GateRuns
  import opened Store
  import opened World
  import opened WorldInv
  import opened WorldSteps
  import opened WorldAnswers
  import opened WorldSafety

  // -- One agent that owns its node ----------------------------------------------------------------

  /** Sent once, and no word on how it ended. */
  predicate Pending(op: Op, sent: multiset<Op>, evidence: set<Op>) {
    sent[op] == 1 && op !in evidence
  }

  predicate Over(tasks: Tasks, op: Op) {
    op in tasks ==> tasks[op] == Finishing || tasks[op] == Closing
  }

  ghost predicate ForgottenOk(d: Process, rows: Rows, sent: multiset<Op>, evidence: set<Op>) {
    forall op | op in d.forgotten ::
      && op in rows && rows[op].state == Running && Pending(op, sent, evidence)
      && op !in d.f.uncommitted && Over(d.tasks, op)
  }

  ghost predicate WireOk(tasks: Tasks, sent: multiset<Op>, evidence: set<Op>) {
    forall op | OnTheWire(tasks, op) :: Pending(op, sent, evidence)
  }

  /** What awaits its commit has been on the wire, or never comes there. */
  predicate OffTheWire(tasks: Tasks, op: Op) {
    op in tasks ==> tasks[op] != Created && !OnTheWire(tasks, op)
  }

  ghost predicate NotedOk(d: Process, rows: Rows) {
    && (forall op | op in d.f.uncommitted :: op in rows && OffTheWire(d.tasks, op))
    && (forall c | c in d.calls && Drives(d.calls[c].phase) :: d.calls[c].op !in d.f.uncommitted)
  }

  ghost predicate Knows(d: Process, rows: Rows, sent: multiset<Op>, evidence: set<Op>) {
    ForgottenOk(d, rows, sent, evidence) && WireOk(d.tasks, sent, evidence) && NotedOk(d, rows)
  }

  // Calls

  function Noted(d: Process, c: CallId, e: CallEvent): set<Op>
    requires CallEnabled(d, c, e)
  {
    if e == NoteUncertain then {d.calls[c].op} else {}
  }

  lemma ReopenNotes(d: Process)
    ensures d.BeginReopen().f.uncommitted == d.f.uncommitted
  {
  }

  lemma LeaveNotes(d: Process, c: CallId)
    requires CallEnabled(d, c, Leave)
    ensures Left(d, c).f.uncommitted == d.f.uncommitted
  {
    var op := d.calls[c].op;
    if op.kind != Plain {
      ExclusiveEndClears(d.(calls := d.calls - {c}).Fld(d.f.(restoring := d.f.restoring - {op})), op);
    }
  }

  lemma RefusalNotes(d: Process, c: CallId)
    requires CallEnabled(d, c, Promote) && d.calls[c].phase.answer != Promoted
    ensures AfterPromotion(d, c).f.uncommitted == d.f.uncommitted
  {
  }

  lemma PromoteNotes(d: Process, c: CallId)
    requires CallEnabled(d, c, Promote)
    ensures AfterPromotion(d, c).f.uncommitted == d.f.uncommitted
  {
    if d.calls[c].phase.answer == Promoted {
      AdmissionMoves(d, c);
    } else {
      RefusalNotes(d, c);
    }
  }

  lemma CallNotes(d: Process, c: CallId, e: CallEvent)
    requires CallEnabled(d, c, e)
    ensures ApplyCall(d, c, e).f.uncommitted == d.f.uncommitted + Noted(d, c, e)
  {
    match e
    case Leave => LeaveNotes(d, c);
    case Promote => PromoteNotes(d, c);
    case _ =>
  }

  /** A call that moves on without a task. */
  lemma CallKnows(d: Process, c: CallId, e: CallEvent, own: Ownership, rows: Rows, sent: multiset<Op>,
                  evidence: set<Op>)
    requires AgentOk(d, own, true, rows, sent, evidence) && Knows(d, rows, sent, evidence) && CallEnabled(d, c, e)
    requires e != InsertAnswers(Won) && e != PromoteAnswers(Promoted)
    requires e == Promote ==> d.calls[c].phase.answer != Promoted
    ensures Knows(ApplyCall(d, c, e), rows, sent, evidence)
  {
    CallMoves(d, c, e);
    CallNotes(d, c, e);
    if e == NoteUncertain {
      assert DriverOk(d.calls[c], own, true, d.tasks, rows, sent);
      NoteKnows(d, c, own, rows, sent, evidence);
    }
  }

  lemma NoteKnows(d: Process, c: CallId, own: Ownership, rows: Rows, sent: multiset<Op>, evidence: set<Op>)
    requires CallsOk(d.calls, own, true, d.tasks, rows, sent) && Knows(d, rows, sent, evidence)
    requires CallEnabled(d, c, NoteUncertain) && DriverOk(d.calls[c], own, true, d.tasks, rows, sent)
    ensures Knows(ApplyCall(d, c, NoteUncertain), rows, sent, evidence)
  {
    assert d.calls[c].op !in d.forgotten;
  }

  lemma PromotedKnows(d: Process, c: CallId, own: Ownership, rows: Rows, sent: multiset<Op>, evidence: set<Op>)
    requires AgentOk(d, own, true, rows, sent, evidence) && Knows(d, rows, sent, evidence)
    requires CallEnabled(d, c, Promote) && d.calls[c].phase.answer == Promoted
    ensures Knows(AfterPromotion(d, c), rows, sent, evidence)
  {
    AdmissionMoves(d, c);
    assert DriverOk(d.calls[c], own, true, d.tasks, rows, sent);
    assert d.calls[c].op !in d.forgotten;
  }

  /** The caller whose insert won drives an operation that nothing was known of. */
  lemma WonKnows(d: Process, c: CallId, rows: Rows, rows': Rows, sent: multiset<Op>, evidence: set<Op>)
    requires Knows(d, rows, sent, evidence) && CallEnabled(d, c, InsertAnswers(Won))
    requires d.calls[c].op !in rows && Knows(d, rows', sent, evidence)
    ensures Knows(ApplyCall(d, c, InsertAnswers(Won)), rows', sent, evidence)
  {
  }

  lemma GrantedKnows(d: Process, c: CallId, rows: Rows, sent: multiset<Op>, evidence: set<Op>)
    requires Knows(d, rows, sent, evidence) && CallEnabled(d, c, PromoteAnswers(Promoted))
    ensures Knows(ApplyCall(d, c, PromoteAnswers(Promoted)), rows, sent, evidence)
  {
  }

  lemma LocalCallKnows(d: Process, c: CallId, e: CallEvent, own: Ownership, rows: Rows, sent: multiset<Op>,
                       evidence: set<Op>)
    requires AgentOk(d, own, true, rows, sent, evidence) && Knows(d, rows, sent, evidence)
    requires CallEnabled(d, c, e) && !AwaitsDatabase(OfCall(c, e))
    ensures Knows(ApplyCall(d, c, e), rows, sent, evidence)
  {
    if e == Promote && d.calls[c].phase.answer == Promoted {
      PromotedKnows(d, c, own, rows, sent, evidence);
    } else {
      CallKnows(d, c, e, own, rows, sent, evidence);
    }
  }

  // Tasks

  /** What has to be so of the operation itself after a step of its task. */
  ghost predicate KnowsOne(d: Process, op: Op, row: Row, sent: multiset<Op>, evidence: set<Op>) {
    && (op in d.forgotten ==>
          row.state == Running && Pending(op, sent, evidence) && op !in d.f.uncommitted && Over(d.tasks, op))
    && (OnTheWire(d.tasks, op) ==> Pending(op, sent, evidence))
    && (op in d.f.uncommitted ==> OffTheWire(d.tasks, op))
  }

  /** A step of a task adds nothing to what is known of others. */
  ghost predicate AddsOnly(d: Process, d': Process, op: Op) {
    d'.f.uncommitted <= d.f.uncommitted + {op} && d'.forgotten <= d.forgotten + {op}
  }

  lemma SameElsewhere(tasks: Tasks, tasks': Tasks, op: Op, x: Op)
    requires tasks' - {op} == tasks - {op} && x != op
    ensures x in tasks <==> x in tasks'
    ensures x in tasks ==> tasks'[x] == tasks[x]
  {
    assert x in tasks ==> x in tasks - {op} && (tasks - {op})[x] == tasks[x];
    assert x in tasks' ==> x in tasks' - {op} && (tasks' - {op})[x] == tasks'[x];
  }

  lemma OthersKnown(d: Process, d': Process, op: Op, own: Ownership, rows: Rows, s: multiset<Op>, t: multiset<Op>,
                    e: set<Op>, f: set<Op>)
    requires AgentOk(d, own, true, rows, s, e) && Knows(d, rows, s, e) && op in d.tasks
    requires TaskOnly(d, d', op) && AddsOnly(d, d', op)
    requires (forall x | x != op :: s[x] == t[x]) && f <= e + {op} && KnowsOne(d', op, rows[op], t, f)
    ensures Knows(d', rows, t, f)
  {
    forall x | x in d'.forgotten
      ensures x in rows && rows[x].state == Running && Pending(x, t, f) && x !in d'.f.uncommitted && Over(d'.tasks, x)
    {
      if x != op { SameElsewhere(d.tasks, d'.tasks, op, x); }
    }
    forall x | OnTheWire(d'.tasks, x) ensures Pending(x, t, f) {
      if x != op {
        SameElsewhere(d.tasks, d'.tasks, op, x);
        assert OnTheWire(d.tasks, x);
      }
    }
    OthersNoted(d, d', op, own, rows, s, e);
  }

  lemma OthersNoted(d: Process, d': Process, op: Op, own: Ownership, rows: Rows, s: multiset<Op>, e: set<Op>)
    requires AgentOk(d, own, true, rows, s, e) && NotedOk(d, rows) && op in d.tasks
    requires TaskOnly(d, d', op) && AddsOnly(d, d', op) && (op in d'.f.uncommitted ==> OffTheWire(d'.tasks, op))
    ensures NotedOk(d', rows)
  {
    forall x | x in d'.f.uncommitted ensures x in rows && OffTheWire(d'.tasks, x) {
      if x != op { SameElsewhere(d.tasks, d'.tasks, op, x); }
    }
    forall c | c in d'.calls && Drives(d'.calls[c].phase) ensures d'.calls[c].op !in d'.f.uncommitted {
      assert DriverOk(d.calls[c], own, true, d.tasks, rows, s);
    }
  }

  lemma WireAdds(d: Process, op: Op, e: TaskEvent, row: Row, sent: multiset<Op>, evidence: set<Op>)
    requires TaskEnabled(d, op, e) && (e == Start || e.EndSend?) && (op in evidence ==> sent[op] == 1)
    requires TaskOk(op, d.tasks[op], true, row, sent, evidence) && KnowsOne(d, op, row, sent, evidence)
    ensures AddsOnly(d, ApplyTask(d, op, e), op)
    ensures KnowsOne(ApplyTask(d, op, e), op, row, sent + SentBy(d, OfTask(op, e)),
                     evidence + EvidenceBy(OfTask(op, e)))
  {
  }

  lemma SettlingAdds(d: Process, op: Op, e: TaskEvent, row: Row, sent: multiset<Op>, evidence: set<Op>)
    requires TaskEnabled(d, op, e) && e != Start && !e.EndSend? && !e.CloseTask?
    requires TaskOk(op, d.tasks[op], true, row, sent, evidence) && KnowsOne(d, op, row, sent, evidence)
    ensures AddsOnly(d, ApplyTask(d, op, e), op)
    ensures KnowsOne(ApplyTask(d, op, e), op, row, sent, evidence)
  {
  }

  lemma CloseAdds(d: Process, op: Op, row: Row, sent: multiset<Op>, evidence: set<Op>)
    requires TaskEnabled(d, op, CloseTask) && KnowsOne(d, op, row, sent, evidence)
    ensures AddsOnly(d, ApplyTask(d, op, CloseTask), op)
    ensures KnowsOne(ApplyTask(d, op, CloseTask), op, row, sent, evidence)
  {
    ExclusiveEndClears(d.(tasks := d.tasks - {op}), op);
  }

  lemma TaskAdds(d: Process, op: Op, e: TaskEvent, row: Row, sent: multiset<Op>, evidence: set<Op>)
    requires TaskEnabled(d, op, e) && (op in evidence ==> sent[op] == 1)
    requires TaskOk(op, d.tasks[op], true, row, sent, evidence) && KnowsOne(d, op, row, sent, evidence)
    ensures AddsOnly(d, ApplyTask(d, op, e), op)
    ensures KnowsOne(ApplyTask(d, op, e), op, row, sent + SentBy(d, OfTask(op, e)),
                     evidence + EvidenceBy(OfTask(op, e)))
  {
    if e == Start || e.EndSend? {
      WireAdds(d, op, e, row, sent, evidence);
    } else {
      Silent(d, op, e, sent, evidence);
      if e == CloseTask {
        CloseAdds(d, op, row, sent, evidence);
      } else {
        SettlingAdds(d, op, e, row, sent, evidence);
      }
    }
  }

  lemma TaskKnows(d: Process, op: Op, e: TaskEvent, own: Ownership, rows: Rows, sent: multiset<Op>, evidence: set<Op>)
    requires AgentOk(d, own, true, rows, sent, evidence) && Knows(d, rows, sent, evidence)
    requires TaskEnabled(d, op, e) && (op in evidence ==> sent[op] == 1)
    ensures Knows(ApplyTask(d, op, e), rows, sent + SentBy(d, OfTask(op, e)), evidence + EvidenceBy(OfTask(op, e)))
  {
    var t, f := sent + SentBy(d, OfTask(op, e)), evidence + EvidenceBy(OfTask(op, e));
    TaskMoves(d, op, e);
    assert KnowsOne(d, op, rows[op], sent, evidence);
    TaskAdds(d, op, e, rows[op], sent, evidence);
    OthersKnown(d, ApplyTask(d, op, e), op, own, rows, sent, t, evidence, f);
  }

  // Rows

  /** A write to a row that is not one of the forgotten. */
  lemma WriteKnows(d: Process, a: Rows, b: Rows, x: Op, sent: multiset<Op>, evidence: set<Op>)
    requires Knows(d, a, sent, evidence) && OneRow(a, b, x)
    requires b != a ==> x !in d.forgotten
    ensures Knows(d, b, sent, evidence)
  {
  }

  // -- The node -------------------------------------------------------------------------------------

  /** The owner knows what is pending, and only what an operator spoke for has been resolved. */
  ghost predicate KnowsOk(w: World) {
    && (forall pid | w.IsElected(pid) && w.agents[pid].own == w.db.owner ::
          Knows(w.agents[pid].d, w.db.rows, w.sent, w.evidence))
    && (forall op | op in w.resolved :: op in w.db.rows && w.db.rows[op].state == Failed)
  }

  ghost predicate ResolvedStay(a: Rows, b: Rows) {
    forall op | op in a && a[op].state == Failed :: op in b && b[op].state == Failed
  }

  lemma AgentKnows(w: World, pid: Pid, db': Db, d': Process, sent': multiset<Op>, evidence': set<Op>)
    requires Inv(w) && KnowsOk(w) && w.IsElected(pid) && Own(w, pid, db', sent', evidence')
    requires w.agents[pid].own == w.db.owner ==> Knows(d', db'.rows, sent', evidence')
    requires ResolvedStay(w.db.rows, db'.rows)
    ensures KnowsOk(w.Step(pid, db', d').(sent := sent', evidence := evidence'))
  {
    var w' := w.Step(pid, db', d').(sent := sent', evidence := evidence');
    forall q | w'.IsElected(q) && w'.agents[q].own == db'.owner
      ensures Knows(w'.agents[q].d, db'.rows, sent', evidence')
    {
      if q != pid {
        assert w.IsElected(q) && w.agents[q].own != w.agents[pid].own;
      }
    }
  }

  lemma LocalAgentKnows(d: Process, e: Event, own: Ownership, rows: Rows, sent: multiset<Op>, evidence: set<Op>)
    requires AgentOk(d, own, true, rows, sent, evidence) && Knows(d, rows, sent, evidence)
    requires Enabled(d, e) && !AwaitsDatabase(e) && (forall op | op in evidence :: sent[op] == 1)
    ensures Knows(Apply(d, e), rows, sent + SentBy(d, e), evidence + EvidenceBy(e))
  {
    match e
    case OfTask(op, t) => TaskKnows(d, op, t, own, rows, sent, evidence);
    case OfGate(g) =>
      NoTaskNoSend(d, e, sent, evidence);
      GateRuns.GateFrame(d, g);
    case OfCall(c, call) =>
      NoTaskNoSend(d, e, sent, evidence);
      LocalCallKnows(d, c, call, own, rows, sent, evidence);
  }

  lemma LocalKnows(w: World, pid: Pid, e: Event)
    requires Inv(w) && KnowsOk(w) && Can(w, Local(pid, e))
    ensures KnowsOk(Act(w, Local(pid, e)))
  {
    var a := w.agents[pid];
    LocalKeepsRows(w, pid, e);
    if a.own == w.db.owner {
      LocalAgentKnows(a.d, e, a.own, w.db.rows, w.sent, w.evidence);
    }
    AgentKnows(w, pid, w.db, Apply(a.d, e), w.sent + SentBy(a.d, e), w.evidence + EvidenceBy(e));
  }

  // Answers

  /** The one row behind an answer. */
  function RowOf(d: Process, e: Event): Op
    requires Enabled(d, e) && AwaitsDatabase(e)
  {
    match e
    case OfCall(c, _) => d.calls[c].op
    case OfTask(op, _) => op
    case OfGate(_) => Op(0, Plain)
  }

  lemma CallWrites(d: Process, c: CallId, e: CallEvent, own: Ownership, db: Db, past: Past)
    requires ForgottenOk(d, db.rows, past.sent, past.evidence) && CallEnabled(d, c, e) && AwaitsDatabase(OfCall(c, e))
    requires e.RepairAnswers? ==> past.sent[d.calls[c].op] == 0
    ensures var db', op := CallTx(db, own, d.calls[c].op, e).0, d.calls[c].op;
      OneRow(db.rows, db'.rows, op) && (db' != db ==> op !in d.forgotten) && ResolvedStay(db.rows, db'.rows)
  {
  }

  lemma SettlementWrites(d: Process, op: Op, own: Ownership, db: Db, past: Past)
    requires ForgottenOk(d, db.rows, past.sent, past.evidence) && op in d.tasks && d.tasks[op].Settling?
    ensures var db' := SettleTx(db, own, op, d.tasks[op].outcome).0;
      OneRow(db.rows, db'.rows, op) && op !in d.forgotten && ResolvedStay(db.rows, db'.rows)
  {
  }

  lemma AnswerWrites(d: Process, e: Event, own: Ownership, db: Db, past: Past)
    requires Orderly(d, own, db, past) && Knows(d, db.rows, past.sent, past.evidence)
    requires Enabled(d, e) && AwaitsDatabase(e)
    ensures var db' := Tx(db, own, d, e).0;
      && OneRow(db.rows, db'.rows, RowOf(d, e)) && (db' != db ==> RowOf(d, e) !in d.forgotten)
      && ResolvedStay(db.rows, db'.rows)
  {
    match e
    case OfGate(_) =>
    case OfCall(c, call) =>
      if call.RepairAnswers? {
        assert DriverOk(d.calls[c], own, own == db.owner, d.tasks, db.rows, past.sent);
      }
      CallWrites(d, c, call, own, db, past);
    case OfTask(op, _) => SettlementWrites(d, op, own, db, past);
  }

  /** The owner hears an answer, with the rows already written. */
  lemma HeardKnows(d: Process, e: Event, commits: bool, own: Ownership, db: Db, past: Past)
    requires Orderly(d, own, db, past) && own == db.owner && Knows(d, db.rows, past.sent, past.evidence)
    requires Received(db, own, d, e, commits) && Rightly(db, past)
    ensures Knows(Apply(d, e), DbAfter(db, own, d, e, commits).rows, past.sent, past.evidence)
  {
    var db' := DbAfter(db, own, d, e, commits);
    AnswerWrites(d, e, own, db, past);
    WriteKnows(d, db.rows, db'.rows, RowOf(d, e), past.sent, past.evidence);
    match e
    case OfGate(g) => GateRuns.GateFrame(d, g);
    case OfTask(op, t) => SettledKnows(d, op, t.settled, own, db, db'.rows, past);
    case OfCall(c, call) => AnsweredKnows(d, c, call, commits, own, db, past);
  }

  lemma SettledKnows(d: Process, op: Op, answer: SettleAnswer, own: Ownership, db: Db, rows: Rows, past: Past)
    requires Orderly(d, own, db, past) && own == db.owner && TaskEnabled(d, op, SettleAnswers(answer))
    requires Knows(d, rows, past.sent, past.evidence)
    ensures Knows(ApplyTask(d, op, SettleAnswers(answer)), rows, past.sent, past.evidence)
  {
    assert op !in d.forgotten && !OnTheWire(d.tasks, op);
    SettledTask(d, op, answer);
    var d' := ApplyTask(d, op, SettleAnswers(answer));
    forall x | OnTheWire(d'.tasks, x) ensures Pending(x, past.sent, past.evidence) {
      assert OnTheWire(d.tasks, x);
    }
  }

  lemma AnsweredKnows(d: Process, c: CallId, e: CallEvent, commits: bool, own: Ownership, db: Db, past: Past)
    requires Orderly(d, own, db, past) && own == db.owner && Knows(d, db.rows, past.sent, past.evidence)
    requires Received(db, own, d, OfCall(c, e), commits) && Rightly(db, past)
    requires Knows(d, DbAfter(db, own, d, OfCall(c, e), commits).rows, past.sent, past.evidence)
    ensures Knows(ApplyCall(d, c, e), DbAfter(db, own, d, OfCall(c, e), commits).rows, past.sent, past.evidence)
  {
    var db' := DbAfter(db, own, d, OfCall(c, e), commits);
    if e == InsertAnswers(Won) {
      WonKnows(d, c, db.rows, db'.rows, past.sent, past.evidence);
    } else if e == PromoteAnswers(Promoted) {
      GrantedKnows(d, c, db'.rows, past.sent, past.evidence);
    } else {
      CallMoves(d, c, e);
      CallNotes(d, c, e);
    }
  }

  lemma AnswerKnows(w: World, pid: Pid, e: Event, commits: bool)
    requires Inv(w) && KnowsOk(w) && Can(w, Answer(pid, e, commits))
    ensures KnowsOk(Act(w, Answer(pid, e, commits)))
  {
    var a := w.agents[pid];
    AgentAnswered(a.d, e, commits, a.own, w.db, PastOf(w));
    if a.own == w.db.owner {
      HeardKnows(a.d, e, commits, a.own, w.db, PastOf(w));
      AnswerWrites(a.d, e, a.own, w.db, PastOf(w));
    }
    AgentKnows(w, pid, DbAfter(w.db, a.own, a.d, e, commits), Apply(a.d, e), w.sent, w.evidence);
  }

  // The others

  lemma CancellationKnows(d: Process, db: Db, own: Ownership, x: Op, sent: multiset<Op>, evidence: set<Op>)
    requires Knows(d, db.rows, sent, evidence)
    ensures Knows(d, CancelTx(db, own, x).0.rows, sent, evidence)
    ensures ResolvedStay(db.rows, CancelTx(db, own, x).0.rows)
  {
    WriteKnows(d, db.rows, CancelTx(db, own, x).0.rows, x, sent, evidence);
  }

  lemma CancelKnows(w: World, pid: Pid, op: Op)
    requires KnowsOk(w) && Can(w, Cancel(pid, op))
    ensures KnowsOk(Act(w, Cancel(pid, op)))
  {
    var w' := Act(w, Cancel(pid, op));
    forall q | w'.IsElected(q) && w'.agents[q].own == w'.db.owner
      ensures Knows(w'.agents[q].d, w'.db.rows, w.sent, w.evidence)
    {
      assert w.IsElected(q);
      CancellationKnows(w.agents[q].d, w.db, w.agents[pid].own, op, w.sent, w.evidence);
    }
  }

  lemma ResolutionKnows(d: Process, db: Db, own: Ownership, x: Op, sent: multiset<Op>, evidence: set<Op>)
    requires Knows(d, db.rows, sent, evidence)
    ensures Knows(d, MoveTx(db, own, x, Unknown, Failed).0.rows, sent, evidence)
  {
    WriteKnows(d, db.rows, MoveTx(db, own, x, Unknown, Failed).0.rows, x, sent, evidence);
  }

  lemma ResolveKnows(w: World, pid: Pid, op: Op)
    requires KnowsOk(w) && Can(w, Resolve(pid, op))
    ensures KnowsOk(Act(w, Resolve(pid, op)))
  {
    var w' := Act(w, Resolve(pid, op));
    forall q | w'.IsElected(q) && w'.agents[q].own == w'.db.owner
      ensures Knows(w'.agents[q].d, w'.db.rows, w.sent, w.evidence)
    {
      assert w.IsElected(q);
      ResolutionKnows(w.agents[q].d, w.db, w.agents[pid].own, op, w.sent, w.evidence);
    }
  }

  lemma ClaimKnows(w: World, pid: Pid, boot: nat, slots: nat, room: nat, acknowledged: bool)
    requires Inv(w) && KnowsOk(w) && Can(w, Claim(pid, boot, slots, room, acknowledged))
    ensures KnowsOk(Claimed(w, pid, boot, slots, room, acknowledged))
  {
    var w' := Claimed(w, pid, boot, slots, room, acknowledged);
    forall q | w.IsElected(q) ensures w.agents[q].own != w'.db.owner {
      assert ElectedOk(w.agents[q], w.db.owner, w.db.kernel, w.db.domain);
    }
  }

  lemma StepKnows(w: World, e: WorldEvent)
    requires Inv(w) && KnowsOk(w) && Can(w, e)
    ensures KnowsOk(Act(w, e))
  {
    match e
    case Local(pid, e) => LocalKnows(w, pid, e);
    case Answer(pid, e, commits) => AnswerKnows(w, pid, e, commits);
    case Cancel(pid, op) => CancelKnows(w, pid, op);
    case Resolve(pid, op) => ResolveKnows(w, pid, op);
    case Claim(pid, boot, slots, room, acknowledged) => ClaimKnows(w, pid, boot, slots, room, acknowledged);
    case _ =>
      forall q | Act(w, e).IsElected(q) ensures w.IsElected(q) && Act(w, e).agents[q] == w.agents[q] {
      }
  }
}
