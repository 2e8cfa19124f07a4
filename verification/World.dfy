/**
 A node as all its processes and its database: elected agents, each with its dispatcher, the tables
 they share, and the steps of the environment. Every await of a dispatcher on the database is
 one step that runs the transaction, or loses it, and hands the answer over.
 */
module World {
  import opened Text
  import opened Gate
  import opened Store

  type Pid = nat

  /** A live process; it holds the host lock of its domain in its kernel from the start to its end. */
  datatype Agent =
    | Starting(kernel: nat, domain: nat)
    | Elected(kernel: nat, domain: nat, own: Ownership, d: Process)

  /**
   `sent` counts the relays started for each operation, `evidence` are the operations whose runtime
   answered for the end, `resolved` those an operator's reset spoke for.
   */
  datatype World = World(db: Db, agents: map<Pid, Agent>, sent: multiset<Op>, evidence: set<Op>, resolved: set<Op>)
  {
    predicate IsElected(pid: Pid) {
      pid in agents && agents[pid].Elected?
    }

    /** One agent and its database take a step; nothing else does. */
    function Step(pid: Pid, db': Db, d': Process): World
      requires IsElected(pid)
    {
      this.(db := db', agents := agents[pid := agents[pid].(d := d')])
    }
  }

  datatype WorldEvent =
    | Local(pid: Pid, e: Event)
    | Answer(pid: Pid, e: Event, commits: bool)
    | Cancel(pid: Pid, op: Op)
    | Resolve(pid: Pid, op: Op)
    | SetHold(hold: Hold)
    | Spawn(pid: Pid, kernel: nat, domain: nat)
    | Crash(pid: Pid)
    | Claim(pid: Pid, boot: nat, slots: nat, room: nat, acknowledged: bool)
    | ReleaseKernel(pid: Pid, previous: nat)

  // -- The database's answers --------------------------------------------------------------

  predicate AwaitsDatabase(e: Event) {
    match e
    case OfGate(g) => g.AskAnswers?
    case OfCall(_, c) => c.InsertAnswers? || c.PromoteAnswers? || c.CancelAnswers? || c.RepairAnswers?
    case OfTask(_, t) => t.SettleAnswers?
  }

  /** The transaction behind an answer. */
  function CallTx(db: Db, own: Ownership, op: Op, e: CallEvent): (Db, Store.Answer) {
    match e
    case InsertAnswers(_) => InsertTx(db, own, op)
    case PromoteAnswers(_) => PromoteTx(db, own, op)
    case CancelAnswers(_) => CancelTx(db, own, op)
    case _ => RepairTx(db, own, op)
  }

  function Tx(db: Db, own: Ownership, d: Process, e: Event): (Db, Store.Answer)
    requires Enabled(d, e) && AwaitsDatabase(e)
  {
    match e
    case OfGate(_) => (db, Did(!NoneIs(db.rows, Unknown)))
    case OfCall(c, call) => CallTx(db, own, d.calls[c].op, call)
    case OfTask(op, _) => SettleTx(db, own, op, d.tasks[op].outcome)
  }

  /** Is this what the caller makes of an answer that arrived? */
  predicate Conveys(e: Event, answer: Store.Answer) {
    match e
    case OfGate(g) => g.AskAnswers? && answer == Did(g.unknown)
    case OfCall(_, call) => CallConveys(call, answer)
    case OfTask(_, t) => t.SettleAnswers? && match t.settled
                                             case Committed => answer.Did?
                                             case NotOwner => answer == Superseded
                                             case Error => false
  }

  predicate CallConveys(e: CallEvent, answer: Store.Answer) {
    match e
    case InsertAnswers(inserted) =>
      answer == (match inserted case Won => Did(true) case Exists => Did(false) case _ => Superseded)
      && !inserted.InsertError? && !inserted.InsertCancelled?
    case PromoteAnswers(promoted) =>
      answer == (match promoted
                 case Promoted => Did(true)
                 case NotPromoted => Did(false)
                 case Closed(epoch) => AdmissionClosed(epoch)
                 case _ => Superseded)
      && !promoted.Raised?
    case CancelAnswers(cancelled) =>
      (cancelled == Committed && answer.Did?) || (cancelled == NotOwner && answer == Superseded)
    case RepairAnswers(repaired) => repaired && answer.Did?
    case _ => false
  }

  /** Is this what the caller makes of an error, whether or not the transaction committed? */
  predicate Errs(e: Event) {
    match e
    case OfGate(_) => false
    case OfCall(_, call) =>
      call == InsertAnswers(InsertError) || call == InsertAnswers(InsertCancelled)
      || call == PromoteAnswers(Raised) || call == CancelAnswers(Error) || call == RepairAnswers(false)
    case OfTask(_, t) => t == SettleAnswers(Error)
  }

  // -- Steps ---------------------------------------------------------------------------------

  /** A new dispatcher: no caller reaches it before `reopen`, so its gate counts as closed. */
  function NewProcess(slots: nat, room: nat): Process {
    Process(Fields(Blocked, false, false, None, None, map[], {}, {}, true, true, {}, {}, slots, 0),
            map[], map[], Open, Nobody, {}, {}, slots, room, {})
  }

  predicate Sends(d: Process, e: Event) {
    Enabled(d, e) && e.OfTask? && e.task == Start && !d.f.Withholds(e.op)
  }

  function SentBy(d: Process, e: Event): multiset<Op> {
    if Sends(d, e) then multiset{e.op} else multiset{}
  }

  /** The runtime's own word on how an operation ended, or that it never began. */
  predicate Evident(o: Outcome) {
    o.Completed? || o == RuntimeRefused || o == NotSent
  }

  function EvidenceBy(e: Event): set<Op> {
    if e.OfTask? && e.task.EndSend? && Evident(e.task.outcome) then {e.op} else {}
  }

  predicate LockFree(agents: map<Pid, Agent>, kernel: nat, domain: nat) {
    forall pid | pid in agents :: agents[pid].kernel != kernel || agents[pid].domain != domain
  }

  predicate KernelGone(agents: map<Pid, Agent>, kernel: nat) {
    forall pid | pid in agents :: agents[pid].kernel != kernel
  }

  predicate Can(w: World, e: WorldEvent) {
    match e
    case Local(pid, e) => w.IsElected(pid) && Enabled(w.agents[pid].d, e) && !AwaitsDatabase(e)
    case Answer(pid, e, commits) =>
      && w.IsElected(pid) && Enabled(w.agents[pid].d, e) && AwaitsDatabase(e)
      && ((commits && Conveys(e, Tx(w.db, w.agents[pid].own, w.agents[pid].d, e).1)) || Errs(e))
    case Cancel(pid, _) => w.IsElected(pid)
    case Resolve(pid, op) => w.IsElected(pid) && op !in w.agents[pid].d.f.admitted
    case SetHold(_) => true
    case Spawn(pid, kernel, domain) => pid !in w.agents && LockFree(w.agents, kernel, domain)
    case Crash(pid) => pid in w.agents
    case Claim(pid, _, _, _, _) =>
      && pid in w.agents && w.agents[pid].Starting?
      && Claimable(w.db, w.agents[pid].domain, Some(w.agents[pid].kernel))
    case ReleaseKernel(pid, previous) =>
      && pid in w.agents && w.agents[pid].Starting?
      && Releasable(w.db, w.agents[pid].domain, previous, w.agents[pid].kernel)
      && KernelGone(w.agents, previous)
  }

  function Claimed(w: World, pid: Pid, boot: nat, slots: nat, room: nat, acknowledged: bool): World
    requires Can(w, Claim(pid, boot, slots, room, acknowledged))
  {
    var a := w.agents[pid];
    var db' := ClaimTx(w.db, a.domain, Some(a.kernel), boot);
    w.(db := db',
       agents := if acknowledged
                 then w.agents[pid := Elected(a.kernel, a.domain, db'.owner, NewProcess(slots, room))]
                 else w.agents - {pid})
  }

  function Act(w: World, e: WorldEvent): World
    requires Can(w, e)
  {
    match e
    case Local(pid, e) =>
      var d := w.agents[pid].d;
      w.Step(pid, w.db, Apply(d, e)).(sent := w.sent + SentBy(d, e), evidence := w.evidence + EvidenceBy(e))
    case Answer(pid, e, commits) =>
      var a := w.agents[pid];
      w.Step(pid, if commits then Tx(w.db, a.own, a.d, e).0 else w.db, Apply(a.d, e))
    case Cancel(pid, op) => w.(db := CancelTx(w.db, w.agents[pid].own, op).0)
    case Resolve(pid, op) =>
      var (db', answer) := MoveTx(w.db, w.agents[pid].own, op, Unknown, Failed);
      w.(db := db', resolved := if answer == Did(true) then w.resolved + {op} else w.resolved)
    case SetHold(hold) => w.(db := w.db.(hold := hold))
    case Spawn(pid, kernel, domain) => w.(agents := w.agents[pid := Starting(kernel, domain)])
    case Crash(pid) => w.(agents := w.agents - {pid})
    case Claim(pid, boot, slots, room, acknowledged) => Claimed(w, pid, boot, slots, room, acknowledged)
    case ReleaseKernel(pid, _) => w.(db := ReleaseTx(w.db, w.agents[pid].kernel))
  }

  /** No agent has ever been elected and no operation submitted. */
  function Unclaimed(hold: Hold): World {
    World(Db(map[], Ownership(0, 0), None, None, hold), map[], multiset{}, {}, {})
  }
}
