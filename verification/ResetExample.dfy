/**
 Two resets that find nobody on the wire, as the node interface asks, and yet resolve an operation on the
 very runtime it reached, on runs that start every task at once.
 */
module ResetExample {
  import opened Text
  import opened Gate
  import opened Store
  import opened World
  import opened WorldInv
  import opened WorldRuns
  import opened Reset
  import opened ResetSafety
  import opened ResetExact
  import WorldExample

  function Me(): Ownership { WorldExample.Me() }

  function Entry(): Ground { InCohort(Me(), 1) }

  /** A node that runs beside a witness that has just started. */
  function Beside(w: World): Node {
    Node(w, 0, {}, None, None, Idle, 0, 0, 0, map[], map[], NotBegun)
  }

  lemma BesideIsFresh(w: World)
    requires Reachable(w)
    ensures Fresh(Beside(w))
  {
  }

  /**
   The node interface tests the gate it has frozen and finds nobody on the wire; and still the reset resolves
   `x` on a runtime that its bytes reached. As the hold is closed at the same epoch in the end, the platform
   was never reopened meanwhile.
   */
  ghost predicate TestedInVain(n: Node, m: Node, pid: Pid, x: Op, ground: Ground) {
    && Fresh(n) && LeadsPromptly(n, m, x, ground)
    && Able(m, Check(pid), x, ground) && m.w.db.hold == Hold(true, ground.epoch)
    && var c := Do(m, Check(pid), x, ground);
       exists k :: LeadsPromptly(c, k, x, ground) && !Gone(k, x) && k.w.db.hold == m.w.db.hold
  }

  // -- Runs ------------------------------------------------------------------------------------------

  /** A step of the node's processes or tables, with nothing but those changed. */
  lemma Moves(c: Node, m: Node, e: WorldEvent, v: World, x: Op) returns (k: Node)
    requires LeadsPromptly(c, m, x, Entry()) && Can(m.w, e) && Aside(m.w, e) && !e.Crash? && Act(m.w, e) == v
    requires Prompt(m, OfWorld(e))
    ensures LeadsPromptly(c, k, x, Entry()) && k == m.(w := v)
  {
    LeadsNext(c, m, OfWorld(e), x, Entry());
    k := Do(m, OfWorld(e), x, Entry());
  }

  lemma Reads(c: Node, m: Node, x: Op) returns (k: Node)
    requires LeadsPromptly(c, m, x, Entry()) && m.w.IsElected(1) && NoneUnstarted(m.w)
    ensures LeadsPromptly(c, k, x, Entry()) && k == m.(read := m.read[1 := Readings(m, 1) + multiset{m.w.db.hold}])
  {
    LeadsNext(c, m, ReadHold(1), x, Entry());
    k := Do(m, ReadHold(1), x, Entry());
  }

  /** The test freezes the gate, and is all that happens. */
  lemma Checks(m: Node, v: World, x: Op)
    requires WorldExample.Becomes(m.w, Local(1, OfGate(Freeze(Some(1)))), v) && IsOwn(m.w, 1, Me())
    requires Hold(true, 1) in Readings(m, 1) && m.w.agents[1].d.f.sending == {} && m.evidence == NotBegun
    ensures Able(m, Check(1), x, Entry())
    ensures var left := Readings(m, 1) - multiset{Hold(true, 1)};
      Do(m, Check(1), x, Entry()) == m.(w := v, read := m.read[1 := left], evidence := Checked(1))
  {
  }

  lemma StillInOrder(c: Node, s: Node, x: Op)
    requires Arises(c, x, Entry()) && LeadsPromptly(c, s, x, Entry()) && !HasBegun(s.evidence)
    ensures Inv(s.w)
  {
    ArisenIsSound(c, x, Entry());
    PromptIsARun(c, s, x, Entry());
    var es :| Feasible(c, es, x, Entry()) && s == Afterwards(c, es, x, Entry());
    NotBegunRun(c, es, x, Entry());
  }

  /** The cohort is fixed with `x` on the wire, and the rest takes its course. */
  lemma FixedTooLate(n: Node, m: Node, c: Node, s: Node, x: Op)
    requires Fresh(n) && LeadsPromptly(n, m, x, Entry()) && Able(m, Check(1), x, Entry())
    requires m.w.db.hold == Hold(true, 1) && Prompt(m, Check(1)) && c == Do(m, Check(1), x, Entry())
    requires LeadsPromptly(c, s, x, Entry()) && s.evidence == Checked(1) && NoneUnstarted(s.w)
    requires s.w.db.hold == Hold(true, 1) && Grounded(s.w, 1, x, Entry()) && IsSending(s.w, 1, x)
    ensures TestedInVain(n, m, 1, x, Entry())
  {
    LeadsNext(n, m, Check(1), x, Entry());
    PromptIsARun(n, c, x, Entry());
    StillInOrder(c, s, x);
    LeadsNext(c, s, Begin(1), x, Entry());
    var k := SenderEscapes(c, Do(s, Begin(1), x, Entry()), 1, x, Entry());
  }

  // -- A thaw on an old reading ---------------------------------------------------------------

  function X(): Op { WorldExample.X() }

  function WithHold(w: World, hold: Hold): World {
    w.(db := w.db.(hold := hold))
  }

  /** The agent of one admitted task, with the hold closed. */
  function A(gate: GateState, frozen: Option<nat>, sending: set<Op>, task: Task, barrier: Barrier): World {
    var calls, tasks := WorldExample.C(Leaving), WorldExample.T(task);
    var d := WorldExample.P(gate, 0, 1, {X()}, sending, calls, tasks, barrier, {}, {0});
    WithHold(WorldExample.W(WorldExample.R(Running, 0), d.(f := d.f.(frozen := frozen.Some?, frozenEpoch := frozen)),
                            if sending == {} then multiset{} else multiset{X()}, {}), Hold(true, 1))
  }

  function JustCreated(): World { A(Serving, None, {}, Created, Open) }

  function Halted(): World { A(Maintenance, Some(1), {}, Created, Open) }

  function Released(): World { A(Maintenance, None, {}, Created, Asking) }

  function Sent(): World { A(Maintenance, None, {X()}, Sending, Asking) }

  lemma IsAdmittedLate()
    ensures WorldExample.Becomes(WithHold(WorldExample.IsPromoted(), Hold(true, 1)), Local(1, OfCall(0, Promote)),
                                 JustCreated())
  {
  }

  lemma IsHalted()
    ensures WorldExample.Becomes(JustCreated(), Local(1, OfGate(Freeze(Some(1)))), Halted())
  {
  }

  lemma IsReleased()
    ensures WorldExample.Becomes(Halted(), Local(1, OfGate(Thaw)), Released())
  {
  }

  lemma IsSent()
    ensures WorldExample.Becomes(Released(), Local(1, OfTask(X(), Start)), Sent())
  {
  }

  /** `follow_hold` has read the hold open, and the node interface has read it closed. */
  function TwoReadings(): map<Pid, multiset<Hold>> {
    map[1 := multiset{Hold(false, 0), Hold(true, 1)}]
  }

  lemma ReadsOpen(n: Node) returns (m: Node)
    requires n == Beside(WorldExample.IsPromoted())
    ensures LeadsPromptly(n, m, X(), Entry()) && m == n.(read := map[1 := multiset{Hold(false, 0)}])
  {
    LeadsSelf(n, X(), Entry());
    m := Reads(n, n, X());
    assert m.read[1] == multiset{Hold(false, 0)};
    assert m.read == map[1 := multiset{Hold(false, 0)}];
  }

  lemma ReadsClosed(n: Node, m: Node) returns (k: Node)
    requires LeadsPromptly(n, m, X(), Entry()) && m.w == WithHold(WorldExample.IsPromoted(), Hold(true, 1))
    requires m.read == map[1 := multiset{Hold(false, 0)}]
    ensures LeadsPromptly(n, k, X(), Entry()) && k == m.(read := TwoReadings())
  {
    k := Reads(n, m, X());
    assert k.read[1] == TwoReadings()[1];
    assert k.read == TwoReadings();
  }

  lemma ReadsTwice(n: Node) returns (m: Node)
    requires n == Beside(WorldExample.IsPromoted())
    ensures LeadsPromptly(n, m, X(), Entry())
    ensures m == n.(w := WithHold(n.w, Hold(true, 1)), read := TwoReadings())
  {
    var m1 := ReadsOpen(n);
    var m2 := Moves(n, m1, SetHold(Hold(true, 1)), WithHold(n.w, Hold(true, 1)), X());
    m := ReadsClosed(n, m2);
  }

  /** Only then is the task created. */
  lemma ReadsThenCreates() returns (n: Node, m: Node)
    ensures Fresh(n) && LeadsPromptly(n, m, X(), Entry())
    ensures m == Beside(JustCreated()).(read := TwoReadings())
  {
    WorldExample.Promotes();
    n := Beside(WorldExample.IsPromoted());
    BesideIsFresh(n.w);
    var m1 := ReadsTwice(n);
    IsAdmittedLate();
    m := Moves(n, m1, Local(1, OfCall(0, Promote)), JustCreated(), X());
  }

  lemma Thaws(c: Node) returns (m: Node)
    requires c.w == Halted() && Hold(false, 0) in Readings(c, 1)
    ensures LeadsPromptly(c, m, X(), Entry()) && m.w == Released() && m.evidence == c.evidence
  {
    IsReleased();
    LeadsSelf(c, X(), Entry());
    LeadsNext(c, c, Mirror(1, Hold(false, 0)), X(), Entry());
    m := Do(c, Mirror(1, Hold(false, 0)), X(), Entry());
  }

  /** The frozen gate thaws on what was read before the entry, and the task starts. */
  lemma ThawsAndStarts(m: Node) returns (s: Node)
    requires m == Beside(JustCreated()).(read := TwoReadings())
    ensures Able(m, Check(1), X(), Entry())
    ensures LeadsPromptly(Do(m, Check(1), X(), Entry()), s, X(), Entry())
    ensures s.evidence == Checked(1) && s.w == Sent()
  {
    IsHalted();
    Checks(m, Halted(), X());
    var c := Do(m, Check(1), X(), Entry());
    assert Hold(false, 0) in Readings(c, 1);
    var m1 := Thaws(c);
    IsSent();
    s := Moves(c, m1, Local(1, OfTask(X(), Start)), Sent(), X());
  }

  lemma SentIsGrounded()
    ensures Grounded(Sent(), 1, X(), Entry()) && IsSending(Sent(), 1, X()) && NoneUnstarted(Sent())
  {
  }

  /** A reading of the hold that was open before the entry thaws the gate behind the back of both tests. */
  lemma OldReadingDefeatsEndTest()
    ensures exists n: Node, m: Node, pid: Pid, x: Op, ground: Ground ::
              x.kind == Plain && TestedInVain(n, m, pid, x, ground)
  {
    var n, m := ReadsThenCreates();
    var s := ThawsAndStarts(m);
    SentIsGrounded();
    FixedTooLate(n, m, Do(m, Check(1), X(), Entry()), s, X());
  }

  // -- A restore that starts between the test and the cohort ------------------------------------------

  function Y(): Op { Op(0, Kind.Restore(1)) }

  function R(state: RowState): Rows { map[Y() := Row(state, Me(), 1, 0)] }

  function C(phase: Phase): map<CallId, Call> { map[0 := Call(Y(), phase)] }

  function D(exclusive: Option<Op>, restoring: map<Op, nat>, admitted: set<Op>, free: nat, calls: map<CallId, Call>,
             tasks: map<Op, Task>, barrier: Barrier, owner: Owner, holders: set<CallId>): Process {
    Process(Fields(Maintenance, false, true, Some(1), exclusive, restoring, admitted, {}, admitted == {}, true, {}, {},
                   free, 0),
            calls, tasks, barrier, owner, holders, {}, 1, 1, {})
  }

  function W(rows: Rows, d: Process): World {
    World(Db(rows, Me(), Some(0), Some(0), Hold(true, 1)), map[1 := Agent.Elected(0, 0, Me(), d)], multiset{}, {}, {})
  }

  function Frozen(): World {
    W(map[], D(None, map[], {}, 1, map[], map[], Open, Nobody, {}))
  }

  function Asked(): World {
    W(map[], D(Some(Y()), map[Y() := 1], {}, 1, C(Inserting), map[], Open, ByCall(0), {}))
  }

  function Inserted(): World {
    W(R(Accepted), D(Some(Y()), map[Y() := 1], {}, 1, C(Waiting), map[], Open, ByCall(0), {}))
  }

  function FoundIdle(): World {
    W(R(Accepted), D(Some(Y()), map[Y() := 1], {}, 1, C(Ready), map[], Open, ByCall(0), {}))
  }

  function SlotTaken(): World {
    W(R(Accepted), D(Some(Y()), map[Y() := 1], {}, 0, C(Holding), map[], Open, ByCall(0), {0}))
  }

  function Promoting(): World {
    W(R(Accepted), D(Some(Y()), map[Y() := 1], {}, 0, C(Phase.Promoting), map[], Promoter(0), ByCall(0), {0}))
  }

  function Granted(): World {
    W(R(Running),
      D(Some(Y()), map[Y() := 1], {}, 0, C(Phase.Answered(Promoted)), map[], Promoter(0), ByCall(0), {0}))
  }

  function Held(): World {
    W(R(Running), D(Some(Y()), map[Y() := 1], {Y()}, 0, map[], map[Y() := Created], Open, ByTask(Y()), {}))
  }

  function OnItsWay(): World {
    var d := D(Some(Y()), map[Y() := 1], {Y()}, 0, map[], map[Y() := Sending], Open, ByTask(Y()), {});
    W(R(Running), d.(f := d.f.(sending := {Y()}, quiet := false))).(sent := multiset{Y()})
  }

  lemma Enters()
    ensures Reachable(WithHold(WorldExample.Elected(), Hold(true, 1)))
  {
    WorldExample.Elects();
    WorldExample.Next(WorldExample.Elected(), SetHold(Hold(true, 1)), WithHold(WorldExample.Elected(), Hold(true, 1)));
  }

  lemma IsFrozen()
    ensures Reachable(Frozen())
  {
    Enters();
    WorldExample.Next(WithHold(WorldExample.Elected(), Hold(true, 1)), Local(1, OfGate(Freeze(Some(1)))), Frozen());
  }

  lemma AsksToRestore()
    ensures Reachable(Asked())
  {
    IsFrozen();
    WorldExample.Next(Frozen(), Local(1, OfCall(0, Exclusive(Y()))), Asked());
  }

  lemma IsInserted()
    ensures Reachable(Inserted())
  {
    AsksToRestore();
    WorldExample.Next(Asked(), Answer(1, OfCall(0, InsertAnswers(Won)), true), Inserted());
  }

  lemma FindsIdle()
    ensures Reachable(FoundIdle())
  {
    IsInserted();
    WorldExample.Next(Inserted(), Local(1, OfCall(0, SeeIdle)), FoundIdle());
  }

  lemma TakesItsSlot()
    ensures Reachable(SlotTaken())
  {
    FindsIdle();
    WorldExample.Next(FoundIdle(), Local(1, OfCall(0, TakeSlot)), SlotTaken());
  }

  lemma TakesBarrier()
    ensures WorldExample.Becomes(SlotTaken(), Local(1, OfCall(0, TakeBarrier(true))), Promoting())
  {
  }

  lemma IsGranted()
    ensures WorldExample.Becomes(Promoting(), Answer(1, OfCall(0, PromoteAnswers(Promoted)), true), Granted())
  {
  }

  lemma IsCreated()
    ensures WorldExample.Becomes(Granted(), Local(1, OfCall(0, Promote)), Held())
  {
  }

  lemma IsStarted()
    ensures WorldExample.Becomes(Held(), Local(1, OfTask(Y(), Start)), OnItsWay())
  {
  }

  lemma ItIsGrounded()
    ensures Grounded(OnItsWay(), 1, Y(), Entry()) && IsSending(OnItsWay(), 1, Y()) && NoneUnstarted(OnItsWay())
  {
  }

  lemma StaysFrozen()
    ensures WorldExample.Becomes(SlotTaken(), Local(1, OfGate(Freeze(Some(1)))), SlotTaken())
  {
  }

  /** Nobody is on the wire; then the restore is promoted, and starts. */
  lemma StartsThen(c: Node) returns (s: Node)
    requires c.w == SlotTaken()
    ensures LeadsPromptly(c, s, Y(), Entry()) && s == c.(w := OnItsWay())
  {
    LeadsSelf(c, Y(), Entry());
    TakesBarrier();
    var m1 := Moves(c, c, Local(1, OfCall(0, TakeBarrier(true))), Promoting(), Y());
    IsGranted();
    var m2 := Moves(c, m1, Answer(1, OfCall(0, PromoteAnswers(Promoted)), true), Granted(), Y());
    IsCreated();
    var m3 := Moves(c, m2, Local(1, OfCall(0, Promote)), Held(), Y());
    IsStarted();
    s := Moves(c, m3, Local(1, OfTask(Y(), Start)), OnItsWay(), Y());
  }

  lemma ReadsOnce() returns (n: Node, m: Node)
    ensures Fresh(n) && LeadsPromptly(n, m, Y(), Entry())
    ensures m == Beside(SlotTaken()).(read := map[1 := multiset{Hold(true, 1)}])
  {
    TakesItsSlot();
    n := Beside(SlotTaken());
    BesideIsFresh(n.w);
    LeadsSelf(n, Y(), Entry());
    m := Reads(n, n, Y());
    assert m.read[1] == multiset{Hold(true, 1)};
    assert m.read == map[1 := multiset{Hold(true, 1)}];
  }

  /** A restore into the hold starts after nobody was found on the wire, and before the cohort is fixed. */
  lemma LateRestoreDefeatsReset()
    ensures exists n: Node, m: Node, pid: Pid, x: Op, ground: Ground ::
              x.kind.Restore? && TestedInVain(n, m, pid, x, ground)
  {
    var n, m := ReadsOnce();
    StaysFrozen();
    Checks(m, SlotTaken(), Y());
    var c := Do(m, Check(1), Y(), Entry());
    var s := StartsThen(c);
    ItIsGrounded();
    FixedTooLate(n, m, c, s, Y());
  }
}
