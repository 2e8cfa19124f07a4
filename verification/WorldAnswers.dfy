/** Every answer of the database keeps what ties its agent to the rows, and the rows themselves. */
module WorldAnswers {
  import opened Text
  import opened Gate
  import GateSafety
  import opened Store
  import opened World
  import opened WorldInv
  import opened WorldSteps

  /** What the sends have left behind, beside the rows. */
  datatype Past = Past(sent: multiset<Op>, evidence: set<Op>, resolved: set<Op>)

  ghost predicate Rightly(db: Db, past: Past) {
    RowsOk(db.rows, db.owner.generation, past.sent, past.evidence, past.resolved)
  }

  ghost predicate Orderly(d: Process, own: Ownership, db: Db, past: Past) {
    AgentOk(d, own, own == db.owner, db.rows, past.sent, past.evidence)
  }

  /** Nothing of the database but its rows changed, and those only for their owner. */
  ghost predicate RowsOnly(db: Db, db': Db, own: Ownership) {
    && db' == db.(rows := db'.rows)
    && (own != db.owner ==> db' == db)
    && OriginsKept(db.rows, db'.rows)
  }

  /** An answer that reports no driver any step further, on rows already in order. */
  lemma CallAnswerKeeps(d: Process, c: CallId, e: CallEvent, own: Ownership, db: Db, past: Past)
    requires Orderly(d, own, db, past) && CallEnabled(d, c, e)
    requires e != InsertAnswers(Won) && e != PromoteAnswers(Promoted) && e != Promote
    ensures Orderly(ApplyCall(d, c, e), own, db, past)
  {
    GateSafety.CallKeeps(d, c, e);
    CallMoves(d, c, e);
    CallKeepsAgent(d, ApplyCall(d, c, e), own, own == db.owner, db.rows, past.sent, past.evidence);
  }

  // -- Quiet transactions ------------------------------------------------------------------

  lemma QuietKeeps(d: Process, own: Ownership, db: Db, db': Db, past: Past, x: Op)
    requires Orderly(d, own, db, past) && Rightly(db, past)
    requires db' == db.(rows := db'.rows) && QuietWrite(db.rows, db'.rows, x) && (own != db.owner ==> db' == db)
    requires db' != db ==> db'.rows[x].owner == db.owner.generation && db'.rows[x].results == 0
    ensures Orderly(d, own, db', past) && Rightly(db', past) && RowsOnly(db, db', own)
  {
    if db' != db {
      assert past.sent[x] == 0;
      WriteKeepsRows(db.rows, db'.rows, x, db.owner.generation, past.sent, past.evidence, past.resolved);
      QuietKeepsCalls(d.calls, own, d.tasks, db.rows, db'.rows, past.sent, x);
      QuietKeepsTasks(d.tasks, own, db.rows, db'.rows, past.sent, past.evidence, x);
      QuietKeepsKnown(d.tasks, Aware(d), db.rows, db'.rows, past.sent, past.evidence, x);
    }
  }

  lemma CancelKeeps(d: Process, own: Ownership, db: Db, past: Past, op: Op)
    requires Orderly(d, own, db, past) && Rightly(db, past)
    ensures var db' := CancelTx(db, own, op).0;
      Orderly(d, own, db', past) && Rightly(db', past) && RowsOnly(db, db', own)
  {
    var db' := CancelTx(db, own, op).0;
    if op in db.rows {
      assert RowOk(op, db.rows[op], db.owner.generation, past.sent, past.evidence, past.resolved);
    }
    QuietKeeps(d, own, db, db', past, op);
  }

  lemma InsertKeeps(d: Process, own: Ownership, db: Db, past: Past, op: Op)
    requires Orderly(d, own, db, past) && Rightly(db, past)
    ensures var db' := InsertTx(db, own, op).0;
      Orderly(d, own, db', past) && Rightly(db', past) && RowsOnly(db, db', own)
  {
    QuietKeeps(d, own, db, InsertTx(db, own, op).0, past, op);
  }

  /** The caller whose insert won drives a row nobody has driven before. */
  lemma DriverJoins(calls: Calls, c: CallId, own: Ownership, tasks: Tasks, a: Rows, b: Rows, sent: multiset<Op>,
                    evidence: set<Op>)
    requires CallsOk(calls, own, true, tasks, a, sent) && TasksOk(tasks, own, true, a, sent, evidence)
    requires c in calls && calls[c].op !in a && sent[calls[c].op] == 0
    requires calls[c].op in b && b == a[calls[c].op := b[calls[c].op]] && b[calls[c].op].origin == own
    ensures CallsOk(calls[c := calls[c].(phase := Waiting)], own, true, tasks, b, sent)
  {
    var calls' := calls[c := calls[c].(phase := Waiting)];
    forall k | k in calls' && Drives(calls'[k].phase) ensures DriverOk(calls'[k], own, true, tasks, b, sent) {
      if k != c { assert DriverOk(calls[k], own, true, tasks, a, sent); }
    }
  }

  lemma InsertWon(d: Process, c: CallId, own: Ownership, db: Db, past: Past)
    requires Orderly(d, own, db, past) && Rightly(db, past) && CallEnabled(d, c, InsertAnswers(Won))
    requires InsertTx(db, own, d.calls[c].op).1 == Did(true)
    ensures Orderly(ApplyCall(d, c, InsertAnswers(Won)), own, InsertTx(db, own, d.calls[c].op).0, past)
  {
    var op := d.calls[c].op;
    var db' := InsertTx(db, own, op).0;
    InsertKeeps(d, own, db, past, op);
    GateSafety.CallKeeps(d, c, InsertAnswers(Won));
    InsertWonMoves(d, c);
    DriverJoins(d.calls, c, own, d.tasks, db.rows, db'.rows, past.sent, past.evidence);
  }

  // -- Promotion --------------------------------------------------------------------------------

  lemma PromotionKeeps(d: Process, c: CallId, own: Ownership, db: Db, past: Past)
    requires Orderly(d, own, db, past) && Rightly(db, past) && At(d, c, Promoting)
    ensures var db' := PromoteTx(db, own, d.calls[c].op).0;
      Orderly(d, own, db', past) && Rightly(db', past) && RowsOnly(db, db', own)
  {
    var x := d.calls[c].op;
    var db' := PromoteTx(db, own, x).0;
    if db' != db {
      assert DriverOk(d.calls[c], own, true, d.tasks, db.rows, past.sent);
      assert RowOk(x, db.rows[x], db.owner.generation, past.sent, past.evidence, past.resolved);
      WriteKeepsRows(db.rows, db'.rows, x, db.owner.generation, past.sent, past.evidence, past.resolved);
      PromoteKeepsCalls(d.calls, own, d.tasks, db.rows, db'.rows, past.sent, x);
      PromoteKeepsTasks(d.tasks, own, db.rows, db'.rows, past.sent, past.evidence, x);
      PromoteKeepsKnown(d.tasks, Aware(d), db.rows, db'.rows, past.sent, past.evidence, x);
    }
  }

  lemma GrantJoins(calls: Calls, c: CallId, own: Ownership, tasks: Tasks, rows: Rows, sent: multiset<Op>)
    requires CallsOk(calls, own, true, tasks, rows, sent)
    requires c in calls && calls[c].phase == Promoting && rows[calls[c].op].state == Running
    ensures CallsOk(calls[c := calls[c].(phase := Answered(Promoted))], own, true, tasks, rows, sent)
  {
    var calls' := calls[c := calls[c].(phase := Answered(Promoted))];
    forall k | k in calls' && Drives(calls'[k].phase) ensures DriverOk(calls'[k], own, true, tasks, rows, sent) {
      assert DriverOk(calls[k], own, true, tasks, rows, sent);
    }
  }

  lemma PromotionGranted(d: Process, c: CallId, own: Ownership, db: Db, past: Past)
    requires Orderly(d, own, db, past) && Rightly(db, past) && CallEnabled(d, c, PromoteAnswers(Promoted))
    requires PromoteTx(db, own, d.calls[c].op).1 == Did(true)
    ensures Orderly(ApplyCall(d, c, PromoteAnswers(Promoted)), own, PromoteTx(db, own, d.calls[c].op).0, past)
  {
    PromotionKeeps(d, c, own, db, past);
    GateSafety.CallKeeps(d, c, PromoteAnswers(Promoted));
    PromotedMoves(d, c);
    GrantJoins(d.calls, c, own, d.tasks, PromoteTx(db, own, d.calls[c].op).0.rows, past.sent);
  }

  // -- The end of a running row ----------------------------------------------------------------

  lemma RepairKeeps(d: Process, c: CallId, own: Ownership, db: Db, past: Past)
    requires Orderly(d, own, db, past) && Rightly(db, past) && At(d, c, FailedPromotion)
    ensures var db' := RepairTx(db, own, d.calls[c].op).0;
      Orderly(d, own, db', past) && Rightly(db', past) && RowsOnly(db, db', own)
  {
    var x := d.calls[c].op;
    assert DriverOk(d.calls[c], own, own == db.owner, d.tasks, db.rows, past.sent);
    if db.rows[x].state == Accepted {
      CancelKeeps(d, own, db, past, x);
    } else if db.rows[x].state == Running && db.owner == own {
      UnsentKeeps(d, c, own, db, past);
    }
  }

  /** The row of a promotion that raised after all: nobody was given it, so nobody sends it. */
  lemma UnsentKeeps(d: Process, c: CallId, own: Ownership, db: Db, past: Past)
    requires Orderly(d, own, db, past) && Rightly(db, past) && At(d, c, FailedPromotion) && db.owner == own
    requires db.Is(d.calls[c].op, Running, own)
    ensures var db' := db.Set(d.calls[c].op, CancelledUnsent); Orderly(d, own, db', past) && Rightly(db', past)
  {
    var x := d.calls[c].op;
    assert DriverOk(d.calls[c], own, true, d.tasks, db.rows, past.sent);
    UnsentRows(db, own, past, x);
    UnsentCalls(d.calls, c, own, d.tasks, db.rows, db.Set(x, CancelledUnsent).rows, past.sent);
    UnsentTasks(d, own, db.rows, db.Set(x, CancelledUnsent).rows, past, x);
  }

  lemma UnsentRows(db: Db, own: Ownership, past: Past, x: Op)
    requires Rightly(db, past) && db.owner == own && db.Is(x, Running, own) && past.sent[x] == 0
    ensures Rightly(db.Set(x, CancelledUnsent), past)
  {
    assert RowOk(x, db.rows[x], db.owner.generation, past.sent, past.evidence, past.resolved);
    WriteKeepsRows(db.rows, db.Set(x, CancelledUnsent).rows, x, db.owner.generation, past.sent, past.evidence,
                   past.resolved);
  }

  lemma UnsentCalls(calls: Calls, c: CallId, own: Ownership, tasks: Tasks, a: Rows, b: Rows, sent: multiset<Op>)
    requires CallsOk(calls, own, true, tasks, a, sent) && c in calls && calls[c].phase == FailedPromotion
    requires EndWrite(a, b, calls[c].op, CancelledUnsent)
    ensures CallsOk(calls, own, true, tasks, b, sent)
  {
    EndKeepsCalls(calls, own, tasks, a, b, sent, calls[c].op, CancelledUnsent);
  }

  lemma UnsentTasks(d: Process, own: Ownership, a: Rows, b: Rows, past: Past, x: Op)
    requires TasksOk(d.tasks, own, true, a, past.sent, past.evidence) && x !in d.tasks
    requires KnownOk(d.tasks, Aware(d), a, past.sent, past.evidence) && EndWrite(a, b, x, CancelledUnsent)
    ensures TasksOk(d.tasks, own, true, b, past.sent, past.evidence)
    ensures KnownOk(d.tasks, Aware(d), b, past.sent, past.evidence) && (NoneIs(a, Unknown) ==> NoneIs(b, Unknown))
  {
    EndKeepsOtherTasks(d.tasks, own, a, b, past.sent, past.evidence, x, CancelledUnsent);
    assert d.tasks - {x} == d.tasks;
    EndKeepsKnown(d.tasks, Aware(d), a, b, past.sent, past.evidence, x, CancelledUnsent);
  }

  lemma SettleWrites(db: Db, own: Ownership, op: Op, o: Outcome, past: Past)
    requires Rightly(db, past) && op in db.rows && Proved(o, op, past.sent, past.evidence)
    ensures var db' := SettleTx(db, own, op, o).0;
      && Rightly(db', past) && RowsOnly(db, db', own) && EndWrite(db.rows, db'.rows, op, Target(o))
      && (own == db.owner && (db.rows[op].state == Running || Reached(db.rows[op], o)) ==> Reached(db'.rows[op], o))
  {
    assert RowOk(op, db.rows[op], db.owner.generation, past.sent, past.evidence, past.resolved);
    var db' := SettleTx(db, own, op, o).0;
    if db' != db {
      WriteKeepsRows(db.rows, db'.rows, op, db.owner.generation, past.sent, past.evidence, past.resolved);
    }
  }

  lemma SettledTask(d: Process, op: Op, answer: SettleAnswer)
    requires TaskEnabled(d, op, SettleAnswers(answer))
    ensures var d' := ApplyTask(d, op, SettleAnswers(answer));
      d' == d.(tasks := d.tasks[op := Settled(d.tasks[op].outcome, answer)])
  {
  }

  /** The rows after the settling transaction, and the task that hears of it. */
  lemma SettledTasksOk(tasks: Tasks, own: Ownership, a: Rows, b: Rows, past: Past, op: Op, o: Outcome,
                       answer: SettleAnswer)
    requires TasksOk(tasks, own, true, a, past.sent, past.evidence) && op in tasks && tasks[op] == Settling(o)
    requires EndWrite(a, b, op, Target(o)) && answer != NotOwner
    requires Reached(b[op], o) || (answer == Error && b[op].state == Running)
    ensures TasksOk(tasks[op := Settled(o, answer)], own, true, b, past.sent, past.evidence)
  {
    EndKeepsOtherTasks(tasks, own, a, b, past.sent, past.evidence, op, Target(o));
    var tasks' := tasks[op := Settled(o, answer)];
    forall x | x in tasks'
      ensures x in b && b[x].origin == own && TaskOk(x, tasks'[x], true, b[x], past.sent, past.evidence)
    {
      if x != op { assert x in tasks - {op} && tasks'[x] == (tasks - {op})[x]; }
    }
  }

  lemma SettledKnown(tasks: Tasks, u: set<Op>, a: Rows, b: Rows, past: Past, op: Op, o: Outcome, answer: SettleAnswer)
    requires KnownOk(tasks, u, a, past.sent, past.evidence) && op in tasks && tasks[op] == Settling(o)
    requires EndWrite(a, b, op, Target(o)) && (o == Outcome.Uncertain ==> op in u)
    ensures KnownOk(tasks[op := Settled(o, answer)], u, b, past.sent, past.evidence)
  {
    EndKeepsKnown(tasks, u, a, b, past.sent, past.evidence, op, Target(o));
  }

  /** An uncertain outcome keeps the gate from serving while it is settled, any other leaves no row unknown. */
  lemma SettledClears(d: Process, a: Rows, b: Rows, op: Op)
    requires GateSafety.Valid(d) && op in d.tasks && d.tasks[op].Settling?
    requires EndWrite(a, b, op, Target(d.tasks[op].outcome)) && (Clears(d.f, d.barrier) ==> NoneIs(a, Unknown))
    ensures Clears(d.f, d.barrier) ==> NoneIs(b, Unknown)
    ensures d.tasks[op].outcome == Outcome.Uncertain ==> op in d.f.uncommitted
  {
    if d.tasks[op].outcome == Outcome.Uncertain {
      assert op in d.f.uncommitted;
    }
  }

  lemma SettledCalls(d: Process, own: Ownership, a: Rows, b: Rows, past: Past, op: Op, t: Task, to: RowState)
    requires CallsOk(d.calls, own, true, d.tasks, a, past.sent) && op in d.tasks && EndWrite(a, b, op, to)
    ensures CallsOk(d.calls, own, true, d.tasks[op := t], b, past.sent)
  {
    EndKeepsCalls(d.calls, own, d.tasks, a, b, past.sent, op, to);
    OthersKeepCalls(d.calls, own, true, d.tasks, d.tasks[op := t], b, past.sent, past.sent, op);
  }

  lemma SettleOwned(d: Process, op: Op, answer: SettleAnswer, own: Ownership, db: Db, db': Db, past: Past)
    requires Orderly(d, own, db, past) && own == db.owner && TaskEnabled(d, op, SettleAnswers(answer))
             && answer != NotOwner
    requires db' == db.(rows := db'.rows) && EndWrite(db.rows, db'.rows, op, Target(d.tasks[op].outcome))
    requires op in db'.rows
    requires Reached(db'.rows[op], d.tasks[op].outcome) || (answer == Error && db'.rows[op].state == Running)
    ensures Orderly(ApplyTask(d, op, SettleAnswers(answer)), own, db', past)
  {
    var o := d.tasks[op].outcome;
    GateSafety.TaskKeeps(d, op, SettleAnswers(answer));
    SettledTask(d, op, answer);
    SettledTasksOk(d.tasks, own, db.rows, db'.rows, past, op, o, answer);
    SettledClears(d, db.rows, db'.rows, op);
    SettledKnown(d.tasks, Aware(d), db.rows, db'.rows, past, op, o, answer);
    SettledCalls(d, own, db.rows, db'.rows, past, op, Settled(o, answer), Target(o));
  }

  lemma SettleDisowned(d: Process, op: Op, answer: SettleAnswer, own: Ownership, db: Db, past: Past)
    requires Orderly(d, own, db, past) && own != db.owner && TaskEnabled(d, op, SettleAnswers(answer))
             && answer != Committed
    ensures Orderly(ApplyTask(d, op, SettleAnswers(answer)), own, db, past)
  {
    GateSafety.TaskKeeps(d, op, SettleAnswers(answer));
    SettledTask(d, op, answer);
    var tasks' := d.tasks[op := Settled(d.tasks[op].outcome, answer)];
    OthersKeepCalls(d.calls, own, false, d.tasks, tasks', db.rows, past.sent, past.sent, op);
    OthersKeepTasks(own, false, d.tasks, tasks', db.rows, past.sent, past.sent, past.evidence, past.evidence, op);
  }

  // -- All answers -------------------------------------------------------------------------------

  function DbAfter(db: Db, own: Ownership, d: Process, e: Event, commits: bool): Db
    requires Enabled(d, e) && AwaitsDatabase(e)
  {
    if commits then Tx(db, own, d, e).0 else db
  }

  predicate Received(db: Db, own: Ownership, d: Process, e: Event, commits: bool) {
    && Enabled(d, e) && AwaitsDatabase(e)
    && ((commits && Conveys(e, Tx(db, own, d, e).1)) || Errs(e))
  }

  /** What an answer to a settlement says of the row, whether or not it was an error. */
  lemma SettleHeard(d: Process, op: Op, answer: SettleAnswer, commits: bool, own: Ownership, db: Db,
                    past: Past)
    requires Rightly(db, past) && Received(db, own, d, OfTask(op, SettleAnswers(answer)), commits)
             && op in db.rows
    requires TaskOk(op, d.tasks[op], own == db.owner, db.rows[op], past.sent, past.evidence)
    ensures var db' := DbAfter(db, own, d, OfTask(op, SettleAnswers(answer)), commits);
      && Rightly(db', past) && RowsOnly(db, db', own) && op in db'.rows
      && (own != db.owner ==> db' == db && answer != Committed)
      && (own == db.owner ==> EndWrite(db.rows, db'.rows, op, Target(d.tasks[op].outcome)) && answer != NotOwner)
      && (own == db.owner ==> Reached(db'.rows[op], d.tasks[op].outcome)
                              || (answer == Error && db'.rows[op].state == Running))
  {
    SettleWrites(db, own, op, d.tasks[op].outcome, past);
  }

  lemma SettleAnswerKeeps(d: Process, op: Op, answer: SettleAnswer, commits: bool, own: Ownership,
                          db: Db, past: Past)
    requires Orderly(d, own, db, past) && Rightly(db, past)
             && Received(db, own, d, OfTask(op, SettleAnswers(answer)), commits)
    ensures var db' := DbAfter(db, own, d, OfTask(op, SettleAnswers(answer)), commits);
      Orderly(ApplyTask(d, op, SettleAnswers(answer)), own, db', past) && Rightly(db', past) && RowsOnly(db, db', own)
  {
    var db' := DbAfter(db, own, d, OfTask(op, SettleAnswers(answer)), commits);
    SettleHeard(d, op, answer, commits, own, db, past);
    if own == db.owner {
      SettleOwned(d, op, answer, own, db, db', past);
    } else {
      SettleDisowned(d, op, answer, own, db, past);
    }
  }

  lemma InsertAnswerKeeps(d: Process, c: CallId, a: InsertAnswer, commits: bool, own: Ownership, db: Db, past: Past)
    requires Orderly(d, own, db, past) && Rightly(db, past)
             && Received(db, own, d, OfCall(c, InsertAnswers(a)), commits)
    ensures var db' := DbAfter(db, own, d, OfCall(c, InsertAnswers(a)), commits);
      Orderly(ApplyCall(d, c, InsertAnswers(a)), own, db', past) && Rightly(db', past) && RowsOnly(db, db', own)
  {
    InsertKeeps(d, own, db, past, d.calls[c].op);
    if a == Won {
      InsertWon(d, c, own, db, past);
    } else {
      CallAnswerKeeps(d, c, InsertAnswers(a), own, DbAfter(db, own, d, OfCall(c, InsertAnswers(a)), commits),
                      past);
    }
  }

  lemma PromoteAnswerKeeps(d: Process, c: CallId, a: PromoteAnswer, commits: bool, own: Ownership, db: Db, past: Past)
    requires Orderly(d, own, db, past) && Rightly(db, past)
             && Received(db, own, d, OfCall(c, PromoteAnswers(a)), commits)
    ensures var db' := DbAfter(db, own, d, OfCall(c, PromoteAnswers(a)), commits);
      Orderly(ApplyCall(d, c, PromoteAnswers(a)), own, db', past) && Rightly(db', past) && RowsOnly(db, db', own)
  {
    PromotionKeeps(d, c, own, db, past);
    if a == Promoted {
      PromotionGranted(d, c, own, db, past);
    } else {
      CallAnswerKeeps(d, c, PromoteAnswers(a), own, DbAfter(db, own, d, OfCall(c, PromoteAnswers(a)), commits),
                      past);
    }
  }

  lemma CleanupAnswerKeeps(d: Process, c: CallId, e: CallEvent, commits: bool, own: Ownership, db: Db, past: Past)
    requires Orderly(d, own, db, past) && Rightly(db, past) && Received(db, own, d, OfCall(c, e), commits)
    requires e.CancelAnswers? || e.RepairAnswers?
    ensures var db' := DbAfter(db, own, d, OfCall(c, e), commits);
      Orderly(ApplyCall(d, c, e), own, db', past) && Rightly(db', past) && RowsOnly(db, db', own)
  {
    if e.CancelAnswers? {
      CancelKeeps(d, own, db, past, d.calls[c].op);
    } else {
      RepairKeeps(d, c, own, db, past);
    }
    CallAnswerKeeps(d, c, e, own, DbAfter(db, own, d, OfCall(c, e), commits), past);
  }
}
