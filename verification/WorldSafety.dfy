/** The invariant of a node, kept by every step of every process, of its database and of its operator. */
module WorldSafety {
  import opened Text
  import opened Gate
  import GateSafety
  import opened Store
  import opened World
  import opened WorldInv
  import opened WorldSteps
  import opened WorldAnswers

  function PastOf(w: World): Past {
    Past(w.sent, w.evidence, w.resolved)
  }

  lemma UnclaimedInv(hold: Hold)
    ensures Inv(Unclaimed(hold))
  {
  }

  // -- One agent moves --------------------------------------------------------------------

  /** Whatever an agent does to its own rows, the others look elsewhere. */
  ghost predicate Own(w: World, pid: Pid, db': Db, sent': multiset<Op>, evidence': set<Op>)
    requires w.IsElected(pid)
  {
    var own := w.agents[pid].own;
    && RowsOnly(w.db, db', own)
    && w.evidence <= evidence'
    && (own != w.db.owner ==> sent' == w.sent && evidence' == w.evidence)
    && (forall op | op in w.db.rows && w.db.rows[op].origin != own :: sent'[op] == w.sent[op])
  }

  lemma OtherStaysOrderly(w: World, pid: Pid, q: Pid, db': Db, sent': multiset<Op>, evidence': set<Op>)
    requires AgentsOk(w) && ApartOk(w.agents, w.db.owner, w.db.kernel, w.db.domain)
    requires w.IsElected(pid) && w.IsElected(q) && q != pid && Own(w, pid, db', sent', evidence')
    ensures AgentOk(w.agents[q].d, w.agents[q].own, w.agents[q].own == db'.owner, db'.rows, sent', evidence')
  {
    var a := w.agents[q];
    assert a.own != w.agents[pid].own;
    if w.agents[pid].own == w.db.owner {
      BystanderOk(a.d, a.own, w.db.rows, db'.rows, w.sent, sent', w.evidence, evidence');
    }
  }

  lemma OthersApart(agents: map<Pid, Agent>, pid: Pid, d': Process, owner: Ownership, kernel: Option<nat>,
                    domain: Option<nat>)
    requires ApartOk(agents, owner, kernel, domain) && pid in agents && agents[pid].Elected?
    ensures ApartOk(agents[pid := agents[pid].(d := d')], owner, kernel, domain)
  {
  }

  lemma AgentMoves(w: World, pid: Pid, db': Db, d': Process, sent': multiset<Op>, evidence': set<Op>)
    requires Inv(w) && w.IsElected(pid) && Own(w, pid, db', sent', evidence')
    requires RowsOk(db'.rows, db'.owner.generation, sent', evidence', w.resolved)
    requires AgentOk(d', w.agents[pid].own, w.agents[pid].own == db'.owner, db'.rows, sent', evidence')
    ensures Inv(w.Step(pid, db', d').(sent := sent', evidence := evidence'))
  {
    var w' := w.Step(pid, db', d').(sent := sent', evidence := evidence');
    OthersApart(w.agents, pid, d', w.db.owner, w.db.kernel, w.db.domain);
    forall q | w'.IsElected(q)
      ensures AgentOk(w'.agents[q].d, w'.agents[q].own, w'.agents[q].own == db'.owner, db'.rows, sent', evidence')
    {
      if q != pid {
        OtherStaysOrderly(w, pid, q, db', sent', evidence');
      }
    }
  }

  // -- Local steps ---------------------------------------------------------------------------

  lemma SendKeepsWorld(w: World, pid: Pid, op: Op)
    requires Inv(w) && Can(w, Local(pid, OfTask(op, Start)))
    ensures RowsOk(w.db.rows, w.db.owner.generation, w.sent + multiset{op}, w.evidence, w.resolved)
    ensures w.agents[pid].own == w.db.owner && op in w.db.rows && w.db.rows[op].origin == w.db.owner
  {
    var a := w.agents[pid];
    assert TaskOk(op, Created, a.own == w.db.owner, w.db.rows[op], w.sent, w.evidence);
    SendKeepsRows(w.db.rows, op, w.db.owner.generation, w.sent, w.evidence, w.resolved);
  }

  lemma EvidenceKeepsWorld(w: World, pid: Pid, op: Op, o: Outcome)
    requires Inv(w) && Can(w, Local(pid, OfTask(op, EndSend(o))))
    ensures RowsOk(w.db.rows, w.db.owner.generation, w.sent, w.evidence + {op}, w.resolved)
    ensures w.agents[pid].own == w.db.owner
  {
    var a := w.agents[pid];
    assert TaskOk(op, Sending, a.own == w.db.owner, w.db.rows[op], w.sent, w.evidence);
    EvidenceKeepsRows(w.db.rows, op, w.db.owner.generation, w.sent, w.evidence, w.resolved);
  }

  lemma NothingNew(w: World, d: Process, e: Event)
    requires !Sends(d, e) && EvidenceBy(e) == {}
    ensures w.sent + SentBy(d, e) == w.sent && w.evidence + EvidenceBy(e) == w.evidence
  {
  }

  lemma LocalKeepsRows(w: World, pid: Pid, e: Event)
    requires Inv(w) && Can(w, Local(pid, e))
    ensures var d := w.agents[pid].d; var t, f := w.sent + SentBy(d, e), w.evidence + EvidenceBy(e);
      RowsOk(w.db.rows, w.db.owner.generation, t, f, w.resolved) && Own(w, pid, w.db, t, f)
  {
    var d := w.agents[pid].d;
    if Sends(d, e) {
      SendKeepsWorld(w, pid, e.op);
      assert w.evidence + EvidenceBy(e) == w.evidence;
    } else if EvidenceBy(e) != {} {
      EvidenceKeepsWorld(w, pid, e.op, e.task.outcome);
      assert w.sent + SentBy(d, e) == w.sent;
    } else {
      NothingNew(w, d, e);
    }
  }

  lemma NoTaskNoSend(d: Process, e: Event, sent: multiset<Op>, evidence: set<Op>)
    requires !e.OfTask?
    ensures sent + SentBy(d, e) == sent && evidence + EvidenceBy(e) == evidence
  {
  }

  lemma LocalKeepsAgent(d: Process, e: Event, own: Ownership, current: bool, rows: Rows, sent: multiset<Op>,
                        evidence: set<Op>)
    requires AgentOk(d, own, current, rows, sent, evidence) && Enabled(d, e) && !AwaitsDatabase(e)
    ensures AgentOk(Apply(d, e), own, current, rows, sent + SentBy(d, e), evidence + EvidenceBy(e))
  {
    if e.OfTask? {
      LocalTaskKeepsAgent(d, e.op, e.task, own, current, rows, sent, evidence);
      return;
    }
    NoTaskNoSend(d, e, sent, evidence);
    if e.OfGate? {
      GateKeepsAgent(d, e.g, own, current, rows, sent, evidence);
    } else {
      LocalCallKeepsAgent(d, e.c, e.call, own, current, rows, sent, evidence);
    }
  }

  lemma LocalKeeps(w: World, pid: Pid, e: Event)
    requires Inv(w) && Can(w, Local(pid, e))
    ensures Inv(Act(w, Local(pid, e)))
  {
    var d := w.agents[pid].d;
    LocalKeepsRows(w, pid, e);
    var a := w.agents[pid];
    LocalKeepsAgent(a.d, e, a.own, a.own == w.db.owner, w.db.rows, w.sent, w.evidence);
    AgentMoves(w, pid, w.db, Apply(d, e), w.sent + SentBy(d, e), w.evidence + EvidenceBy(e));
  }

  // -- Answers -------------------------------------------------------------------------------

  lemma CallAnswered(d: Process, c: CallId, e: CallEvent, commits: bool, own: Ownership, db: Db,
                     past: Past)
    requires Orderly(d, own, db, past) && Rightly(db, past) && Received(db, own, d, OfCall(c, e), commits)
    ensures var db' := DbAfter(db, own, d, OfCall(c, e), commits);
      Orderly(ApplyCall(d, c, e), own, db', past) && Rightly(db', past) && RowsOnly(db, db', own)
  {
    match e
    case InsertAnswers(a) => InsertAnswerKeeps(d, c, a, commits, own, db, past);
    case PromoteAnswers(a) => PromoteAnswerKeeps(d, c, a, commits, own, db, past);
    case _ => CleanupAnswerKeeps(d, c, e, commits, own, db, past);
  }

  lemma AgentAnswered(d: Process, e: Event, commits: bool, own: Ownership, db: Db, past: Past)
    requires Orderly(d, own, db, past) && Rightly(db, past) && Received(db, own, d, e, commits)
    ensures var db' := DbAfter(db, own, d, e, commits);
      Orderly(Apply(d, e), own, db', past) && Rightly(db', past) && RowsOnly(db, db', own)
  {
    match e
    case OfGate(g) => GateKeepsAgent(d, g, own, own == db.owner, db.rows, past.sent, past.evidence);
    case OfCall(c, call) => CallAnswered(d, c, call, commits, own, db, past);
    case OfTask(op, t) => SettleAnswerKeeps(d, op, t.settled, commits, own, db, past);
  }

  lemma AnswerKeeps(w: World, pid: Pid, e: Event, commits: bool)
    requires Inv(w) && Can(w, Answer(pid, e, commits))
    ensures Inv(Act(w, Answer(pid, e, commits)))
  {
    var a := w.agents[pid];
    AgentAnswered(a.d, e, commits, a.own, w.db, PastOf(w));
    AgentMoves(w, pid, DbAfter(w.db, a.own, a.d, e, commits), Apply(a.d, e), w.sent, w.evidence);
  }

  lemma CancelWorldKeeps(w: World, pid: Pid, op: Op)
    requires Inv(w) && Can(w, Cancel(pid, op))
    ensures Inv(Act(w, Cancel(pid, op)))
  {
    var a := w.agents[pid];
    CancelKeeps(a.d, a.own, w.db, PastOf(w), op);
    AgentMoves(w, pid, CancelTx(w.db, a.own, op).0, a.d, w.sent, w.evidence);
    assert w.agents[pid := a.(d := a.d)] == w.agents;
  }

  // -- Resolution -----------------------------------------------------------------------------

  ghost predicate ResolveWrite(a: Rows, b: Rows, x: Op) {
    OneRow(a, b, x) && (b != a ==> x in a && a[x].state == Unknown && b[x].state == Failed)
  }

  lemma ResolveKeepsTasks(tasks: Tasks, own: Ownership, a: Rows, b: Rows, sent: multiset<Op>, evidence: set<Op>, x: Op)
    requires TasksOk(tasks, own, true, a, sent, evidence) && ResolveWrite(a, b, x)
    requires x in tasks ==> tasks[x] == Closing
    ensures TasksOk(tasks, own, true, b, sent, evidence)
  {
  }

  lemma ResolveKeepsAgent(d: Process, own: Ownership, a: Rows, b: Rows, sent: multiset<Op>, evidence: set<Op>, x: Op)
    requires AgentOk(d, own, true, a, sent, evidence) && ResolveWrite(a, b, x) && x !in d.f.admitted
    ensures AgentOk(d, own, true, b, sent, evidence)
  {
    ResolveKeepsTasks(d.tasks, own, a, b, sent, evidence, x);
    ShrinkKeepsCalls(d.calls, d.calls, own, true, d.tasks, a, sent);
    ResolveKeepsCalls(d.calls, own, d.tasks, a, b, sent, x);
  }

  lemma ResolveKeepsCalls(calls: Calls, own: Ownership, tasks: Tasks, a: Rows, b: Rows, sent: multiset<Op>, x: Op)
    requires CallsOk(calls, own, true, tasks, a, sent) && ResolveWrite(a, b, x)
    ensures CallsOk(calls, own, true, tasks, b, sent)
  {
  }

  lemma ResolveKeepsRows(a: Rows, b: Rows, x: Op, g: nat, sent: multiset<Op>, evidence: set<Op>, resolved: set<Op>)
    requires RowsOk(a, g, sent, evidence, resolved) && ResolveWrite(a, b, x)
    requires b != a ==> b[x].results == a[x].results
    ensures RowsOk(b, g, sent, evidence, resolved + {x}) && OriginsKept(a, b)
  {
    forall op | op in b ensures RowOk(op, b[op], g, sent, evidence, resolved + {x}) {
      assert RowOk(op, a[op], g, sent, evidence, resolved);
    }
  }

  lemma ResolveKeeps(w: World, pid: Pid, op: Op)
    requires Inv(w) && Can(w, Resolve(pid, op))
    ensures Inv(Act(w, Resolve(pid, op)))
  {
    var a := w.agents[pid];
    var (db', answer) := MoveTx(w.db, a.own, op, Unknown, Failed);
    if answer == Did(true) {
      ResolveKeepsRows(w.db.rows, db'.rows, op, w.db.owner.generation, w.sent, w.evidence, w.resolved);
      ResolveKeepsAgent(a.d, a.own, w.db.rows, db'.rows, w.sent, w.evidence, op);
      var v := w.(resolved := w.resolved + {op});
      SpokenForKeeps(w, op);
      AgentMoves(v, pid, db', a.d, w.sent, w.evidence);
      assert v.agents[pid := a.(d := a.d)] == v.agents;
    }
  }

  lemma SpokenForKeeps(w: World, op: Op)
    requires Inv(w)
    ensures Inv(w.(resolved := w.resolved + {op}))
  {
    var v := w.(resolved := w.resolved + {op});
    forall x | x in w.db.rows ensures RowOk(x, w.db.rows[x], w.db.owner.generation, w.sent, w.evidence, v.resolved) {
      assert RowOk(x, w.db.rows[x], w.db.owner.generation, w.sent, w.evidence, w.resolved);
    }
    forall q | v.IsElected(q)
      ensures AgentOk(v.agents[q].d, v.agents[q].own, v.agents[q].own == v.db.owner, v.db.rows, v.sent, v.evidence)
    {
      assert w.IsElected(q);
    }
  }

  // -- Processes come and go ---------------------------------------------------------------------

  lemma SpawnKeeps(w: World, pid: Pid, kernel: nat, domain: nat)
    requires Inv(w) && Can(w, Spawn(pid, kernel, domain))
    ensures Inv(Act(w, Spawn(pid, kernel, domain)))
  {
    var w' := Act(w, Spawn(pid, kernel, domain));
    forall q | w'.IsElected(q)
      ensures AgentOk(w'.agents[q].d, w'.agents[q].own, w'.agents[q].own == w.db.owner, w.db.rows, w.sent, w.evidence)
    {
      assert w.IsElected(q);
    }
  }

  lemma CrashKeeps(w: World, pid: Pid)
    requires Inv(w) && pid in w.agents
    ensures Inv(w.(agents := w.agents - {pid}))
  {
    var w' := w.(agents := w.agents - {pid});
    forall q | w'.IsElected(q)
      ensures AgentOk(w'.agents[q].d, w'.agents[q].own, w'.agents[q].own == w.db.owner, w.db.rows, w.sent, w.evidence)
    {
      assert w.IsElected(q);
    }
  }

  lemma HoldKeeps(w: World, hold: Hold)
    requires Inv(w)
    ensures Inv(w.(db := w.db.(hold := hold)))
  {
    var w' := w.(db := w.db.(hold := hold));
    forall q | w'.IsElected(q)
      ensures AgentOk(w'.agents[q].d, w'.agents[q].own, w'.agents[q].own == w.db.owner, w.db.rows, w.sent, w.evidence)
    {
      assert w.IsElected(q);
    }
  }

  /** The previous kernel is gone and its last owner with it, so nobody is left to mistake the new one. */
  lemma ReleaseKeeps(w: World, pid: Pid, previous: nat)
    requires Inv(w) && Can(w, ReleaseKernel(pid, previous))
    ensures Inv(Act(w, ReleaseKernel(pid, previous)))
  {
    var w' := Act(w, ReleaseKernel(pid, previous));
    forall q | w'.IsElected(q)
      ensures AgentOk(w'.agents[q].d, w'.agents[q].own, w'.agents[q].own == w.db.owner, w.db.rows, w.sent, w.evidence)
    {
      assert w.IsElected(q);
    }
  }

  // -- Takeover ------------------------------------------------------------------------------------

  lemma InheritedRows(rows: Rows, g: nat, g': nat, sent: multiset<Op>, evidence: set<Op>, resolved: set<Op>)
    requires RowsOk(rows, g, sent, evidence, resolved)
    ensures RowsOk(Inherited(rows, g'), g', sent, evidence, resolved)
    ensures OriginsKept(rows, Inherited(rows, g')) && NoneIs(Inherited(rows, g'), Running)
            && NoneIs(Inherited(rows, g'), Accepted)
  {
    forall op | op in rows ensures RowOk(op, Inherited(rows, g')[op], g', sent, evidence, resolved) {
      assert RowOk(op, rows[op], g, sent, evidence, resolved);
    }
  }

  /** Without a running row nothing an agent does needs the node. */
  lemma Deposed(d: Process, own: Ownership, rows: Rows, sent: multiset<Op>, evidence: set<Op>)
    requires AgentOk(d, own, true, rows, sent, evidence) && NoneIs(rows, Running)
    ensures CallsOk(d.calls, own, false, d.tasks, rows, sent)
    ensures TasksOk(d.tasks, own, false, rows, sent, evidence)
  {
    forall c | c in d.calls && Drives(d.calls[c].phase) ensures DriverOk(d.calls[c], own, false, d.tasks, rows, sent) {
      assert DriverOk(d.calls[c], own, true, d.tasks, rows, sent);
    }
    forall op | op in d.tasks
      ensures op in rows && rows[op].origin == own && TaskOk(op, d.tasks[op], false, rows[op], sent, evidence)
    {
      assert TaskOk(op, d.tasks[op], true, rows[op], sent, evidence);
    }
  }

  /** Any other process that still lives was deposed before, or the claim found no running row. */
  lemma SurvivorOk(w: World, pid: Pid, q: Pid, rows': Rows)
    requires Inv(w) && pid in w.agents && w.agents[pid].Starting? && w.IsElected(q)
    requires Claimable(w.db, w.agents[pid].domain, Some(w.agents[pid].kernel)) && OriginsKept(w.db.rows, rows')
    ensures AgentOk(w.agents[q].d, w.agents[q].own, false, rows', w.sent, w.evidence)
  {
    var a := w.agents[q];
    if a.own == w.db.owner {
      assert ElectedOk(a, w.db.owner, w.db.kernel, w.db.domain);
      assert w.agents[pid].kernel != a.kernel;
      Deposed(a.d, a.own, w.db.rows, w.sent, w.evidence);
    }
    BystanderOk(a.d, a.own, w.db.rows, rows', w.sent, w.sent, w.evidence, w.evidence);
  }

  lemma NewcomerOk(own: Ownership, rows: Rows, sent: multiset<Op>, evidence: set<Op>, slots: nat, room: nat)
    requires NoneIs(rows, Running)
    ensures AgentOk(NewProcess(slots, room), own, true, rows, sent, evidence)
  {
  }

  lemma ClaimApart(w: World, pid: Pid, boot: nat, slots: nat, room: nat, acknowledged: bool)
    requires Inv(w) && Can(w, Claim(pid, boot, slots, room, acknowledged))
    ensures var w' := Claimed(w, pid, boot, slots, room, acknowledged);
      ApartOk(w'.agents, w'.db.owner, w'.db.kernel, w'.db.domain)
  {
  }

  lemma ClaimKeeps(w: World, pid: Pid, boot: nat, slots: nat, room: nat, acknowledged: bool)
    requires Inv(w) && Can(w, Claim(pid, boot, slots, room, acknowledged))
    ensures Inv(Claimed(w, pid, boot, slots, room, acknowledged))
  {
    var w' := Claimed(w, pid, boot, slots, room, acknowledged);
    ClaimApart(w, pid, boot, slots, room, acknowledged);
    InheritedRows(w.db.rows, w.db.owner.generation, w'.db.owner.generation, w.sent, w.evidence, w.resolved);
    forall q | w'.IsElected(q)
      ensures AgentOk(w'.agents[q].d, w'.agents[q].own, w'.agents[q].own == w'.db.owner, w'.db.rows, w.sent, w.evidence)
    {
      if q == pid {
        NewcomerOk(w'.db.owner, w'.db.rows, w.sent, w.evidence, slots, room);
      } else {
        assert ElectedOk(w.agents[q], w.db.owner, w.db.kernel, w.db.domain);
        SurvivorOk(w, pid, q, w'.db.rows);
      }
    }
  }

  /** The invariant of the node. */
  lemma StepKeepsInv(w: World, e: WorldEvent)
    requires Inv(w) && Can(w, e)
    ensures Inv(Act(w, e))
  {
    match e
    case Local(pid, e) => LocalKeeps(w, pid, e);
    case Answer(pid, e, commits) => AnswerKeeps(w, pid, e, commits);
    case Cancel(pid, op) => CancelWorldKeeps(w, pid, op);
    case Resolve(pid, op) => ResolveKeeps(w, pid, op);
    case SetHold(hold) => HoldKeeps(w, hold);
    case Spawn(pid, kernel, domain) => SpawnKeeps(w, pid, kernel, domain);
    case Crash(pid) => CrashKeeps(w, pid);
    case Claim(pid, boot, slots, room, acknowledged) => ClaimKeeps(w, pid, boot, slots, room, acknowledged);
    case ReleaseKernel(pid, previous) => ReleaseKeeps(w, pid, previous);
  }
}
