/**
 The ordered evidence of a reset (`resolution.py`, `runtime_witness.py`): an agent issues a nonce, the
 host's witness reads it and only then looks at the runtime, the runtime is restarted, a second nonce
 must find another instance, and only then is the row resolved. The node it runs beside is the whole
 of `World`; its gates are frozen and thawed by whoever last read the platform's hold, however long ago.
 */
module Reset {
  import opened Text
  import opened Gate
  import GateSafety
  import GateRuns
  import opened Store
  import opened World
  import opened WorldInv
  import opened WorldSteps
  import opened WorldSafety
  import opened WorldRuns

  type Nonce = nat
  type Instance = nat  // the runtime's instances in the order in which they listen

  /** The witness's published answer; `seen` is absent when its look was inconclusive. */
  datatype Document = Document(nonce: Option<Nonce>, incarnation: nat, number: nat, seen: Option<Instance>)

  datatype WitnessPc = Idle | HasRead(nonce: Option<Nonce>) | HasSeen(nonce: Option<Nonce>, seen: Option<Instance>)

  /** The resolution that is followed; its attestations are documents that answered its nonces. */
  datatype Evidence =
    | NotBegun
    | Checked(pid: Pid)      // the node interface froze the gate and found nobody on the wire
    | Begun
    | Asked(nonce: Nonce)
    | Based(baseline: Document)
    | AskedAgain(baseline: Document, nonce: Nonce)
    | Shown(baseline: Document, after: Document)
    | HoldRead(baseline: Document, after: Document, pid: Pid)  // the end test read the hold closed
    | Tested(baseline: Document, after: Document, pid: Pid)    // and found the gate frozen for it
    | Done(baseline: Document, after: Document)                // and the row has been resolved

  /** How the senders of the operation are taken to be gone. */
  datatype Ground =
    | RowUnknown(own: Ownership)             // `start`: the row is unknown, and this agent does not hold it
    | InCohort(own: Ownership, epoch: nat)   // `maintenance_reset`: unknown or held when this agent fixed its cohort

  datatype Node = Node(
    w: World,
    now: Instance,                  // the instance that listens
    touched: set<(Op, Instance)>,   // which operation's bytes have reached which instance
    challenge: Option<Nonce>,
    answer: Option<Document>,
    observer: WitnessPc,
    incarnation: nat,
    cycles: nat,
    issued: nat,                    // nonces below it have been issued
    born: map<Nonce, Instance>,     // the instance that listened when each was
    read: map<Pid, multiset<Hold>>, // what coroutines of a process have read of the hold and not acted on
    evidence: Evidence)

  datatype NodeStep =
    | OfWorld(e: WorldEvent)
    | Touch(pid: Pid, op: Op)
    | RuntimeRestarts
    | ReadHold(pid: Pid)
    | Mirror(pid: Pid, h: Hold)       // `follow_hold` or an entry acts on what it read
    | DropReading(pid: Pid, h: Hold)  // and finds nothing to do
    | Ask                             // the followed resolution issues a nonce
    | OtherAsks                       // somebody else issues one over it
    | Read
    | See(conclusive: bool)
    | PublishAnswer
    | WitnessRestarts
    | Check(pid: Pid)                 // the node interface, before it lets a reset begin
    | Begin(pid: Pid)                 // `start`, or the cohort of a reset is fixed
    | TakeAnswer
    | Refuse
    | ReadEnd(pid: Pid)
    | PassEndTest(pid: Pid)
    | ResolveRow(pid: Pid)

  predicate IsOpen(h: Hold) {
    h.Hold? && !h.closed
  }

  /** What any number of liftings and entries make of the hold: each entry raises its epoch. */
  predicate NextHold(a: Hold, b: Hold) {
    b.Hold? && (a.Hold? ==> b.epoch > a.epoch || (b.epoch == a.epoch && (b.closed ==> a.closed)))
  }

  function Readings(n: Node, pid: Pid): multiset<Hold> {
    if pid in n.read then n.read[pid] else multiset{}
  }

  predicate HasBegun(e: Evidence) {
    !e.NotBegun? && !e.Checked?
  }

  /** What a reading of the hold makes of the gate. */
  function MirrorEvent(h: Hold): GateEvent {
    if IsOpen(h) then Thaw else Freeze(HoldEpoch(h))
  }

  /** Steps of the node that have no part here of their own. */
  predicate Aside(w: World, e: WorldEvent) {
    match e
    case Local(_, l) => !l.OfGate? || (!l.g.Freeze? && l.g != Thaw)
    case SetHold(h) => NextHold(w.db.hold, h)
    case _ => true
  }

  predicate Answers(n: Node, nonce: Nonce) {
    n.answer.Some? && n.answer.value.nonce == Some(nonce) && n.answer.value.seen.Some?
  }

  /** The test of `complete` and `_after` on the second attestation. */
  predicate Accepts(baseline: Document, after: Document) {
    after.incarnation == baseline.incarnation && after.number > baseline.number && after.seen != baseline.seen
  }

  predicate IsOwn(w: World, pid: Pid, own: Ownership) {
    w.IsElected(pid) && w.agents[pid].own == own
  }

  predicate IsUnknown(w: World, x: Op) {
    x in w.db.rows && w.db.rows[x].state == Unknown
  }

  /** May `pid` begin a resolution of `x` on this ground? An entry's epoch has been read of the hold before. */
  predicate Grounded(w: World, pid: Pid, x: Op, ground: Ground) {
    && IsOwn(w, pid, ground.own)
    && match ground
       case RowUnknown(_) => IsUnknown(w, x) && x !in w.agents[pid].d.f.admitted
       case InCohort(_, epoch) =>
         && w.db.hold.Hold? && epoch <= w.db.hold.epoch
         && (IsUnknown(w, x) || x in w.agents[pid].d.f.admitted)
  }

  /** May `pid` resolve the row now? A reset asks the end test first, `complete` the evidence only. */
  predicate MayResolve(n: Node, pid: Pid, x: Op, ground: Ground) {
    match ground
    case RowUnknown(own) => n.evidence.Shown? && IsOwn(n.w, pid, own)
    case InCohort(_, _) =>
      && n.evidence.Tested? && n.evidence.pid == pid && n.w.IsElected(pid)
      && x !in n.w.agents[pid].d.f.admitted
  }

  predicate Able(n: Node, e: NodeStep, x: Op, ground: Ground) {
    match e
    case OfWorld(e) => Can(n.w, e) && Aside(n.w, e)
    case Touch(pid, op) => IsSending(n.w, pid, op)
    case ReadHold(pid) => n.w.IsElected(pid)
    case Mirror(pid, h) => h in Readings(n, pid) && Can(n.w, Local(pid, OfGate(MirrorEvent(h))))
    case DropReading(pid, h) => h in Readings(n, pid)
    case Ask => n.evidence == Begun || n.evidence.Based?
    case Read => n.observer == Idle
    case See(_) => n.observer.HasRead?
    case PublishAnswer => n.observer.HasSeen?
    case Check(pid) =>
      && !HasBegun(n.evidence) && ground.InCohort? && IsOwn(n.w, pid, ground.own)
      && Hold(true, ground.epoch) in Readings(n, pid)
      && Can(n.w, Local(pid, OfGate(Freeze(Some(ground.epoch))))) && n.w.agents[pid].d.f.sending == {}
    case Begin(pid) =>
      n.evidence == (if ground.InCohort? then Checked(pid) else NotBegun) && Grounded(n.w, pid, x, ground)
    case TakeAnswer =>
      (n.evidence.Asked? && Answers(n, n.evidence.nonce))
      || (n.evidence.AskedAgain? && Answers(n, n.evidence.nonce) && Accepts(n.evidence.baseline, n.answer.value))
    case Refuse => n.evidence.AskedAgain?
    case ReadEnd(pid) =>
      n.evidence.Shown? && n.w.IsElected(pid) && ground.InCohort? && n.w.db.hold == Hold(true, ground.epoch)
    case PassEndTest(pid) =>
      n.evidence.HoldRead? && n.evidence.pid == pid && n.w.IsElected(pid) && ground.InCohort?
      && n.w.agents[pid].d.f.frozenEpoch == Some(ground.epoch)
    case ResolveRow(pid) => MayResolve(n, pid, x, ground)
    case _ => true
  }

  function Issue(n: Node): Node {
    n.(challenge := Some(n.issued), born := n.born[n.issued := n.now], issued := n.issued + 1)
  }

  function Consumed(n: Node, pid: Pid, h: Hold): Node {
    n.(read := n.read[pid := Readings(n, pid) - multiset{h}])
  }

  function Mirrored(n: Node, pid: Pid, h: Hold): Node
    requires Can(n.w, Local(pid, OfGate(MirrorEvent(h))))
  {
    Consumed(n, pid, h).(w := Act(n.w, Local(pid, OfGate(MirrorEvent(h)))))
  }

  /** The end test dies with its process; the baseline is in the audit, and another may go on from it. */
  function Suspended(evidence: Evidence, pid: Pid): Evidence {
    if evidence == Checked(pid) then NotBegun
    else if (evidence.HoldRead? || evidence.Tested?) && evidence.pid == pid then Based(evidence.baseline) else evidence
  }

  function Resolved(n: Node, pid: Pid, x: Op): Node
    requires n.w.IsElected(pid) && (n.evidence.Shown? || n.evidence.Tested?)
  {
    var (db', answer) := MoveTx(n.w.db, n.w.agents[pid].own, x, Unknown, Failed);
    if answer == Did(true) then
      n.(w := n.w.(db := db', resolved := n.w.resolved + {x}), evidence := Done(n.evidence.baseline, n.evidence.after))
    else n
  }

  function Happened(n: Node, e: WorldEvent): Node
    requires Can(n.w, e)
  {
    var m := n.(w := Act(n.w, e));
    if e.Crash? then m.(read := n.read - {e.pid}, evidence := Suspended(n.evidence, e.pid)) else m
  }

  function Do(n: Node, e: NodeStep, x: Op, ground: Ground): Node
    requires Able(n, e, x, ground)
  {
    match e
    case OfWorld(e) => Happened(n, e)
    case Touch(_, op) => n.(touched := n.touched + {(op, n.now)})
    case RuntimeRestarts => n.(now := n.now + 1)
    case ReadHold(pid) => n.(read := n.read[pid := Readings(n, pid) + multiset{n.w.db.hold}])
    case Mirror(pid, h) => Mirrored(n, pid, h)
    case DropReading(pid, h) => Consumed(n, pid, h)
    case Ask =>
      Issue(n).(evidence := if n.evidence == Begun then Asked(n.issued) else AskedAgain(n.evidence.baseline, n.issued))
    case OtherAsks => Issue(n)
    case Read => n.(cycles := n.cycles + 1, observer := HasRead(n.challenge))
    case See(conclusive) => n.(observer := HasSeen(n.observer.nonce, if conclusive then Some(n.now) else None))
    case PublishAnswer =>
      n.(answer := Some(Document(n.observer.nonce, n.incarnation, n.cycles, n.observer.seen)), observer := Idle)
    case WitnessRestarts => n.(observer := Idle, incarnation := n.incarnation + 1, cycles := 0)
    case Check(pid) => Mirrored(n, pid, Hold(true, ground.epoch)).(evidence := Checked(pid))
    case Begin(_) => n.(evidence := Begun)
    case TakeAnswer =>
      n.(evidence := if n.evidence.Asked? then Based(n.answer.value) else Shown(n.evidence.baseline, n.answer.value))
    case Refuse => n.(evidence := Based(n.evidence.baseline))
    case ReadEnd(pid) => n.(evidence := HoldRead(n.evidence.baseline, n.evidence.after, pid))
    case PassEndTest(pid) => n.(evidence := Tested(n.evidence.baseline, n.evidence.after, pid))
    case ResolveRow(pid) => Resolved(n, pid, x)
  }

  ghost predicate Feasible(n: Node, es: seq<NodeStep>, x: Op, ground: Ground)
    decreases |es|
  {
    es == [] || (Able(n, es[0], x, ground) && Feasible(Do(n, es[0], x, ground), es[1..], x, ground))
  }

  ghost function Afterwards(n: Node, es: seq<NodeStep>, x: Op, ground: Ground): Node
    requires Feasible(n, es, x, ground)
    decreases |es|
  {
    if es == [] then n else Afterwards(Do(n, es[0], x, ground), es[1..], x, ground)
  }

  /** A node that runs, whose witness has just started, and with no resolution begun. */
  ghost predicate Fresh(n: Node) {
    && Reachable(n.w)
    && n.challenge == None && n.answer == None && n.observer == Idle
    && n.issued == 0 && n.born == map[] && n.read == map[] && n.evidence == NotBegun
    && forall t | t in n.touched :: t.1 <= n.now
  }

  /**
   What a reset promises of the row it resolves: every runtime instance that bytes of the operation ever
   reached listened before the one that was shown, which is the one that listens, or has been replaced too.
   */
  ghost predicate Gone(n: Node, x: Op) {
    n.evidence.Done? ==>
      && n.evidence.after.seen.Some? && n.evidence.after.seen.value <= n.now
      && forall t | t in n.touched && t.0 == x :: t.1 < n.evidence.after.seen.value
  }

  // -- Nonces order observations ---------------------------------------------------------------

  /** What claims to have been seen under a nonce was seen after the nonce was issued. */
  ghost predicate SeenAfter(nonce: Option<Nonce>, seen: Option<Instance>, born: map<Nonce, Instance>, now: Instance) {
    && (nonce.Some? ==> nonce.value in born)
    && (seen.Some? ==> seen.value <= now && (nonce.Some? ==> born[nonce.value] <= seen.value))
  }

  ghost predicate WitnessOk(n: Node) {
    && (forall k: Nonce :: k in n.born <==> k < n.issued)
    && (forall k | k in n.born :: n.born[k] <= n.now)
    && (n.challenge.Some? ==> n.challenge.value in n.born)
    && (n.observer.HasRead? ==> SeenAfter(n.observer.nonce, None, n.born, n.now))
    && (n.observer.HasSeen? ==> SeenAfter(n.observer.nonce, n.observer.seen, n.born, n.now))
    && (n.answer.Some? ==> SeenAfter(n.answer.value.nonce, n.answer.value.seen, n.born, n.now))
    && (n.answer.Some? ==> NumberedOk(n.answer.value, n))
    && (forall t | t in n.touched :: t.1 <= n.now)
  }

  /** Documents of one incarnation are numbered in the order of their cycles. */
  ghost predicate NumberedOk(d: Document, n: Node) {
    && d.incarnation <= n.incarnation
    && (d.incarnation == n.incarnation ==> d.number <= n.cycles && (n.observer != Idle ==> d.number < n.cycles))
  }

  predicate HasBaseline(e: Evidence) {
    e.Based? || e.AskedAgain? || HasAfter(e)
  }

  predicate HasAfter(e: Evidence) {
    e.Shown? || e.HoldRead? || e.Tested? || e.Done?
  }

  /** The evidence is in the order of the nonces, and the numbers are in the order of the evidence. */
  ghost predicate EvidenceOk(n: Node) {
    && (n.evidence.Asked? ==> n.evidence.nonce in n.born)
    && (HasBaseline(n.evidence) ==> BaselineOk(n, n.evidence.baseline))
    && (n.evidence.AskedAgain? ==> SecondNonceOk(n, n.evidence.baseline, n.evidence.nonce))
    && (HasAfter(n.evidence) ==>
          && n.evidence.after.seen.Some? && Accepts(n.evidence.baseline, n.evidence.after)
          && n.evidence.baseline.seen.value < n.evidence.after.seen.value <= n.now)
  }

  ghost predicate BaselineOk(n: Node, b: Document) {
    b.seen.Some? && b.seen.value <= n.now && NumberedOk(b, n)
  }

  ghost predicate SecondNonceOk(n: Node, b: Document, k: Nonce)
    requires b.seen.Some?
  {
    && k in n.born && b.seen.value <= n.born[k]
    && (n.answer.Some? && n.answer.value.nonce == Some(k) && n.answer.value.incarnation == b.incarnation ==>
          n.answer.value.number > b.number)
  }

  ghost predicate OrderOk(n: Node) {
    WitnessOk(n) && EvidenceOk(n)
  }

  lemma HappenedKeepsOrder(n: Node, e: WorldEvent)
    requires OrderOk(n) && Can(n.w, e)
    ensures OrderOk(Happened(n, e))
  {
    var m := Happened(n, e);
    assert m.answer == n.answer && m.observer == n.observer && m.born == n.born && m.now == n.now;
  }

  lemma ResolvedKeepsOrder(n: Node, pid: Pid, x: Op)
    requires OrderOk(n) && n.w.IsElected(pid) && (n.evidence.Shown? || n.evidence.Tested?)
    ensures OrderOk(Resolved(n, pid, x))
  {
  }

  lemma NodeKeepsOrder(n: Node, e: NodeStep, x: Op, ground: Ground)
    requires OrderOk(n) && Able(n, e, x, ground)
    requires e.Touch? || e == RuntimeRestarts || e.ReadHold? || e.DropReading? || e.Begin?
    ensures OrderOk(Do(n, e, x, ground))
  {
    var m := Do(n, e, x, ground);
    assert m.answer == n.answer && m.observer == n.observer && m.born == n.born;
  }

  lemma MirrorKeepsOrder(n: Node, e: NodeStep, x: Op, ground: Ground)
    requires OrderOk(n) && Able(n, e, x, ground) && (e.Mirror? || e.Check?)
    ensures OrderOk(Do(n, e, x, ground))
  {
    var m := Do(n, e, x, ground);
    assert m.answer == n.answer && m.observer == n.observer && m.born == n.born && m.now == n.now;
  }

  lemma WitnessKeepsOrder(n: Node, e: NodeStep, x: Op, ground: Ground)
    requires OrderOk(n) && Able(n, e, x, ground)
    requires e == Read || e.See? || e == PublishAnswer || e == WitnessRestarts
    ensures OrderOk(Do(n, e, x, ground))
  {
  }

  lemma AskKeepsOrder(n: Node, e: NodeStep, x: Op, ground: Ground)
    requires OrderOk(n) && Able(n, e, x, ground) && (e == Ask || e == OtherAsks)
    ensures OrderOk(Do(n, e, x, ground))
  {
  }

  lemma EvidenceKeepsOrder(n: Node, e: NodeStep, x: Op, ground: Ground)
    requires OrderOk(n) && Able(n, e, x, ground)
    requires e == TakeAnswer || e == Refuse || e.ReadEnd? || e.PassEndTest?
    ensures OrderOk(Do(n, e, x, ground))
  {
  }

  lemma StepKeepsOrder(n: Node, e: NodeStep, x: Op, ground: Ground)
    requires OrderOk(n) && Able(n, e, x, ground)
    ensures OrderOk(Do(n, e, x, ground))
  {
    if e.OfWorld? {
      HappenedKeepsOrder(n, e.e);
    } else if e.ResolveRow? {
      ResolvedKeepsOrder(n, e.pid, x);
    } else if e == Ask || e == OtherAsks {
      AskKeepsOrder(n, e, x, ground);
    } else if e == Read || e.See? || e == PublishAnswer || e == WitnessRestarts {
      WitnessKeepsOrder(n, e, x, ground);
    } else if e == TakeAnswer || e == Refuse || e.ReadEnd? || e.PassEndTest? {
      EvidenceKeepsOrder(n, e, x, ground);
    } else if e.Mirror? || e.Check? {
      MirrorKeepsOrder(n, e, x, ground);
    } else {
      NodeKeepsOrder(n, e, x, ground);
    }
  }

  lemma {:induction false} RunKeepsOrder(n: Node, es: seq<NodeStep>, x: Op, ground: Ground)
    requires OrderOk(n) && Feasible(n, es, x, ground)
    ensures OrderOk(Afterwards(n, es, x, ground))
    decreases |es|
  {
    if es != [] {
      StepKeepsOrder(n, es[0], x, ground);
      RunKeepsOrder(Do(n, es[0], x, ground), es[1..], x, ground);
    }
  }

  lemma FreshOrder(n: Node)
    requires Fresh(n)
    ensures OrderOk(n) && Inv(n.w)
  {
    ReachableInv(n.w);
  }

  /**
   In every run, an answer to the second nonce is accepted exactly when its witness has not restarted and
   it shows another instance: the order of the sequence numbers follows from the nonces.
   */
  lemma SequenceNumbersFollow(n: Node, es: seq<NodeStep>, x: Op, ground: Ground)
    requires Fresh(n) && Feasible(n, es, x, ground)
    requires var m := Afterwards(n, es, x, ground); m.evidence.AskedAgain? && Answers(m, m.evidence.nonce)
    ensures var m := Afterwards(n, es, x, ground);
      var b, a := m.evidence.baseline, m.answer.value;
      Accepts(b, a) <==> a.incarnation == b.incarnation && a.seen != b.seen
  {
    FreshOrder(n);
    RunKeepsOrder(n, es, x, ground);
  }
}
