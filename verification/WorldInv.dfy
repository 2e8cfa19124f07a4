/** What ties the agents of a node to its rows. */
module WorldInv {
  import opened Text
  import opened Gate
  import GateSafety
  import opened Store
  import opened World

  type Calls = map<CallId, Call>
  type Tasks = map<Op, Task>

  // -- Rows ----------------------------------------------------------------------------

  ghost predicate RowOk(op: Op, row: Row, generation: nat, sent: multiset<Op>, evidence: set<Op>, resolved: set<Op>) {
    && (Terminal(row.state) || row.owner == generation)
    && (row.state == Accepted || row.state == CancelledUnsent ==> sent[op] == 0)
    && (row.state == RowState.Completed ==> op in evidence)
    && (row.state == Failed ==> op in evidence || op in resolved)
    && row.results <= (if row.state == RowState.Completed then 1 else 0)
  }

  ghost predicate RowsOk(rows: Rows, generation: nat, sent: multiset<Op>, evidence: set<Op>, resolved: set<Op>) {
    && (forall op | op in rows :: RowOk(op, rows[op], generation, sent, evidence, resolved))
    && (forall op :: sent[op] <= if op in rows then 1 else 0)
    && (forall op | op in evidence :: sent[op] == 1)
  }

  // -- One agent --------------------------------------------------------------------------

  /** Calls that answer for a row that has not been sent: to promote it, or to settle that it was not. */
  predicate Drives(phase: Phase) {
    match phase
    case Waiting | Ready | Holding | Promoting | FailedPromotion | Unsettled => true
    case Answered(_) => true
    case _ => false
  }

  /** A driven operation is the agent's own, unsent and without a task; a granted promotion is current. */
  ghost predicate DriverOk(call: Call, own: Ownership, current: bool, tasks: Tasks, rows: Rows, sent: multiset<Op>) {
    && call.op in rows && rows[call.op].origin == own
    && sent[call.op] == 0 && call.op !in tasks
    && (call.phase == Answered(Promoted) ==> current && rows[call.op].state == Running)
  }

  ghost predicate CallsOk(calls: Calls, own: Ownership, current: bool, tasks: Tasks, rows: Rows, sent: multiset<Op>) {
    && (forall c | c in calls && Drives(calls[c].phase) :: DriverOk(calls[c], own, current, tasks, rows, sent))
    && (forall c, e | c in calls && e in calls && Drives(calls[c].phase) && Drives(calls[e].phase)
          && calls[c].op == calls[e].op :: c == e)
  }

  /** What an outcome claims about the runtime is true. */
  ghost predicate Proved(o: Outcome, op: Op, sent: multiset<Op>, evidence: set<Op>) {
    if Evident(o) then op in evidence else o == Withheld ==> sent[op] == 0
  }

  /** What the settlement of an outcome leaves behind. */
  predicate Reached(row: Row, o: Outcome) {
    row.state == Target(o) && (o.Completed? ==> row.results == if o.stored then 1 else 0)
  }

  /** The row of a task is where the task takes it to be, as long as its agent owns the node. */
  ghost predicate TaskOk(op: Op, t: Task, current: bool, row: Row, sent: multiset<Op>, evidence: set<Op>) {
    match t
    case Created => current && row.state == Running && sent[op] == 0
    case Sending => current && row.state == Running && sent[op] == 1
    case Ended(o) => Proved(o, op, sent, evidence) && (current ==> row.state == Running)
    case Settling(o) => Proved(o, op, sent, evidence) && (current ==> row.state == Running || Reached(row, o))
    case Settled(o, answer) =>
      && Proved(o, op, sent, evidence)
      && (answer == NotOwner ==> !current)
      && (current ==> Reached(row, o) || (answer == Error && row.state == Running))
    case LosingRole => !current
    case _ => true
  }

  ghost predicate TasksOk(tasks: Tasks, own: Ownership, current: bool, rows: Rows, sent: multiset<Op>,
                          evidence: set<Op>) {
    forall op | op in tasks ::
      op in rows && rows[op].origin == own && TaskOk(op, tasks[op], current, rows[op], sent, evidence)
  }

  /** Operations whose uncertain outcome awaits its commit, or was forgotten by a cancelled task. */
  function Aware(d: Process): set<Op> {
    d.f.uncommitted + d.forgotten
  }

  predicate OnTheWire(tasks: Tasks, op: Op) {
    op in tasks && (tasks[op] == Sending || tasks[op] == Ended(Outcome.Uncertain))
  }

  /** The current agent knows of every send whose end it has not seen and has not recorded. */
  ghost predicate KnownOk(tasks: Tasks, uncommitted: set<Op>, rows: Rows, sent: multiset<Op>, evidence: set<Op>) {
    forall op | op in rows && rows[op].state == Running && sent[op] > 0 && op !in evidence ::
      op in uncommitted || OnTheWire(tasks, op)
  }

  /** Serving, or about to, on the word that nothing is unknown. */
  predicate Clears(f: Fields, barrier: Barrier) {
    f.gate == Serving || barrier == Heard(false)
  }

  ghost predicate AgentOk(d: Process, own: Ownership, current: bool, rows: Rows, sent: multiset<Op>,
                          evidence: set<Op>) {
    && GateSafety.Valid(d)
    && CallsOk(d.calls, own, current, d.tasks, rows, sent)
    && TasksOk(d.tasks, own, current, rows, sent, evidence)
    && (current ==> KnownOk(d.tasks, Aware(d), rows, sent, evidence))
    && (current && Clears(d.f, d.barrier) ==> NoneIs(rows, Unknown))
  }

  // -- The node -----------------------------------------------------------------------------

  ghost predicate AgentsOk(w: World) {
    forall pid | w.IsElected(pid) ::
      AgentOk(w.agents[pid].d, w.agents[pid].own, w.agents[pid].own == w.db.owner, w.db.rows, w.sent, w.evidence)
  }

  /** Locks and generations keep processes apart. */
  ghost predicate ApartOk(agents: map<Pid, Agent>, owner: Ownership, kernel: Option<nat>, domain: Option<nat>) {
    && (forall p, q | p in agents && q in agents ::
          agents[p].kernel == agents[q].kernel && agents[p].domain == agents[q].domain ==> p == q)
    && (forall p, q | p in agents && q in agents && agents[p].Elected? && agents[q].Elected? ::
          agents[p].own == agents[q].own ==> p == q)
    && (forall p | p in agents && agents[p].Elected? :: ElectedOk(agents[p], owner, kernel, domain))
  }

  ghost predicate ElectedOk(a: Agent, owner: Ownership, kernel: Option<nat>, domain: Option<nat>)
    requires a.Elected?
  {
    && a.own.generation <= owner.generation
    && (a.own == owner ==> kernel == Some(a.kernel) && domain == Some(a.domain))
  }

  ghost predicate Inv(w: World) {
    && RowsOk(w.db.rows, w.db.owner.generation, w.sent, w.evidence, w.resolved)
    && AgentsOk(w)
    && ApartOk(w.agents, w.db.owner, w.db.kernel, w.db.domain)
  }

  // -- Transactions ------------------------------------------------------------------------------

  /** One row, at most, is written. */
  ghost predicate OneRow(a: Rows, b: Rows, x: Op) {
    b == a || (x in b && b == a[x := b[x]] && (x in a ==> b[x].origin == a[x].origin))
  }

  /** An operation is accepted or cancelled, and none is promoted. */
  ghost predicate QuietWrite(a: Rows, b: Rows, x: Op) {
    && OneRow(a, b, x)
    && (b != a ==> (x !in a || a[x].state == Accepted) && (b[x].state == Accepted || b[x].state == CancelledUnsent))
  }

  ghost predicate PromoteWrite(a: Rows, b: Rows, x: Op) {
    && OneRow(a, b, x)
    && (b != a ==> x in a && a[x].state == Accepted && b[x].state == Running && NoneIs(a, Unknown))
  }

  ghost predicate EndWrite(a: Rows, b: Rows, x: Op, to: RowState) {
    && OneRow(a, b, x)
    && (b != a ==> x in a && a[x].state == Running && b[x].state == to)
  }

  // Quiet writes

  lemma QuietKeepsCalls(calls: Calls, own: Ownership, tasks: Tasks, a: Rows, b: Rows, sent: multiset<Op>, x: Op)
    requires CallsOk(calls, own, true, tasks, a, sent) && QuietWrite(a, b, x)
    ensures CallsOk(calls, own, true, tasks, b, sent)
  {
  }

  lemma QuietKeepsTasks(tasks: Tasks, own: Ownership, a: Rows, b: Rows, sent: multiset<Op>, evidence: set<Op>, x: Op)
    requires TasksOk(tasks, own, true, a, sent, evidence) && QuietWrite(a, b, x)
    ensures TasksOk(tasks, own, true, b, sent, evidence)
  {
    forall op | op in tasks
      ensures op in b && b[op].origin == own && TaskOk(op, tasks[op], true, b[op], sent, evidence)
    {
      assert op in a && TaskOk(op, tasks[op], true, a[op], sent, evidence);
      if b != a && op == x { assert a[op].state == Accepted; }
    }
  }

  lemma QuietKeepsKnown(tasks: Tasks, unc: set<Op>, a: Rows, b: Rows, sent: multiset<Op>, evidence: set<Op>, x: Op)
    requires KnownOk(tasks, unc, a, sent, evidence) && QuietWrite(a, b, x)
    ensures KnownOk(tasks, unc, b, sent, evidence)
    ensures NoneIs(a, Unknown) ==> NoneIs(b, Unknown)
  {
  }

  // Promotions

  lemma PromoteKeepsCalls(calls: Calls, own: Ownership, tasks: Tasks, a: Rows, b: Rows, sent: multiset<Op>, x: Op)
    requires CallsOk(calls, own, true, tasks, a, sent) && PromoteWrite(a, b, x)
    ensures CallsOk(calls, own, true, tasks, b, sent)
  {
  }

  lemma PromoteKeepsTasks(tasks: Tasks, own: Ownership, a: Rows, b: Rows, sent: multiset<Op>, evidence: set<Op>, x: Op)
    requires TasksOk(tasks, own, true, a, sent, evidence) && PromoteWrite(a, b, x) && x !in tasks
    ensures TasksOk(tasks, own, true, b, sent, evidence)
  {
  }

  lemma PromoteKeepsKnown(tasks: Tasks, unc: set<Op>, a: Rows, b: Rows, sent: multiset<Op>, evidence: set<Op>, x: Op)
    requires KnownOk(tasks, unc, a, sent, evidence) && PromoteWrite(a, b, x) && sent[x] == 0
    ensures KnownOk(tasks, unc, b, sent, evidence)
    ensures NoneIs(a, Unknown) ==> NoneIs(b, Unknown)
  {
  }

  // Ends

  lemma EndKeepsCalls(calls: Calls, own: Ownership, tasks: Tasks, a: Rows, b: Rows, sent: multiset<Op>, x: Op,
                      to: RowState)
    requires CallsOk(calls, own, true, tasks, a, sent) && EndWrite(a, b, x, to)
    requires forall c | c in calls && calls[c].op == x :: calls[c].phase != Answered(Promoted)
    ensures CallsOk(calls, own, true, tasks, b, sent)
  {
  }

  lemma EndKeepsOtherTasks(tasks: Tasks, own: Ownership, a: Rows, b: Rows, sent: multiset<Op>, evidence: set<Op>,
                           x: Op, to: RowState)
    requires TasksOk(tasks, own, true, a, sent, evidence) && EndWrite(a, b, x, to)
    ensures TasksOk(tasks - {x}, own, true, b, sent, evidence)
  {
  }

  lemma EndKeepsKnown(tasks: Tasks, unc: set<Op>, a: Rows, b: Rows, sent: multiset<Op>, evidence: set<Op>, x: Op,
                      to: RowState)
    requires KnownOk(tasks, unc, a, sent, evidence) && EndWrite(a, b, x, to) && to != Running
    ensures KnownOk(tasks, unc, b, sent, evidence)
    ensures NoneIs(a, Unknown) && to != Unknown ==> NoneIs(b, Unknown)
  {
  }

  // -- Bystanders -----------------------------------------------------------------------------

  /** The rows another agent has an interest in keep their origin, whoever writes them. */
  ghost predicate OriginsKept(a: Rows, b: Rows) {
    forall op | op in a :: op in b && b[op].origin == a[op].origin
  }

  /** An agent that no longer owns the node looks at nothing else. */
  lemma BystanderCalls(calls: Calls, own: Ownership, tasks: Tasks, a: Rows, b: Rows, s: multiset<Op>, t: multiset<Op>)
    requires CallsOk(calls, own, false, tasks, a, s) && OriginsKept(a, b)
    requires forall op | op in a && a[op].origin == own :: s[op] == t[op]
    ensures CallsOk(calls, own, false, tasks, b, t)
  {
  }

  lemma BystanderTasks(tasks: Tasks, own: Ownership, a: Rows, b: Rows, s: multiset<Op>, t: multiset<Op>, e: set<Op>,
                       f: set<Op>)
    requires TasksOk(tasks, own, false, a, s, e) && OriginsKept(a, b) && e <= f
    requires forall op | op in a && a[op].origin == own :: s[op] == t[op]
    ensures TasksOk(tasks, own, false, b, t, f)
  {
  }

  lemma BystanderOk(d: Process, own: Ownership, a: Rows, b: Rows, s: multiset<Op>, t: multiset<Op>, e: set<Op>,
                    f: set<Op>)
    requires AgentOk(d, own, false, a, s, e) && OriginsKept(a, b) && e <= f
    requires forall op | op in a && a[op].origin == own :: s[op] == t[op]
    ensures AgentOk(d, own, false, b, t, f)
  {
    BystanderCalls(d.calls, own, d.tasks, a, b, s, t);
    BystanderTasks(d.tasks, own, a, b, s, t, e, f);
  }
}
