/**
 Two runs from an empty node: to a completed operation, through a settlement whose answer was lost, and to
 a serving gate that knows nothing of an uncertain send.
 */
module WorldExample {
  import opened Text
  import opened Gate
  import opened Store
  import opened World
  import opened WorldInv
  import opened WorldRuns

  function X(): Op { Op(0, Plain) }

  function Me(): Ownership { Ownership(1, 5) }

  function R(state: RowState, results: nat): Rows { map[X() := Row(state, Me(), 1, results)] }

  function C(phase: Phase): map<CallId, Call> { map[0 := Call(X(), phase)] }

  function T(task: Task): map<Op, Task> { map[X() := task] }

  function P(gate: GateState, free: nat, queued: nat, admitted: set<Op>, sending: set<Op>, calls: map<CallId, Call>,
             tasks: map<Op, Task>, barrier: Barrier, holders: set<CallId>, queue: set<CallId>): Process {
    Process(Fields(gate, false, false, None, None, map[], admitted, sending, admitted == {}, sending == {}, {}, {},
                   free, queued),
            calls, tasks, barrier, Nobody, holders, queue, 1, 1, {})
  }

  function W(rows: Rows, d: Process, sent: multiset<Op>, evidence: set<Op>): World {
    World(Db(rows, Me(), Some(0), Some(0), Hold(false, 0)), map[1 := Agent.Elected(0, 0, Me(), d)], sent, evidence, {})
  }

  // -- The worlds it passes through --------------------------------------------------------

  function Elected(): World {
    W(map[], NewProcess(1, 1), multiset{}, {})
  }

  function Asked(): World {
    W(map[], P(Blocked, 1, 0, {}, {}, map[], map[], Asking, {}, {}), multiset{}, {})
  }

  function Heard(): World {
    W(map[], P(Blocked, 1, 0, {}, {}, map[], map[], Barrier.Heard(false), {}, {}), multiset{}, {})
  }

  function Opened(): World {
    W(map[], P(Serving, 1, 0, {}, {}, map[], map[], Open, {}, {}), multiset{}, {})
  }

  function Submitted(): World {
    W(map[], P(Serving, 1, 1, {}, {}, C(Inserting), map[], Open, {}, {0}), multiset{}, {})
  }

  function Inserted(): World {
    W(R(Accepted, 0), P(Serving, 1, 1, {}, {}, C(Waiting), map[], Open, {}, {0}), multiset{}, {})
  }

  function SlotTaken(): World {
    W(R(Accepted, 0), P(Serving, 0, 1, {}, {}, C(Holding), map[], Open, {0}, {0}), multiset{}, {})
  }

  function BarrierTaken(): World {
    W(R(Accepted, 0), P(Serving, 0, 1, {}, {}, C(Promoting), map[], Promoter(0), {0}, {0}), multiset{}, {})
  }

  function IsPromoted(): World {
    W(R(Running, 0), P(Serving, 0, 1, {}, {}, C(Phase.Answered(Promoted)), map[], Promoter(0), {0}, {0}), multiset{},
      {})
  }

  function IsAdmitted(): World {
    W(R(Running, 0), P(Serving, 0, 1, {X()}, {}, C(Leaving), T(Created), Open, {}, {0}), multiset{}, {})
  }

  function Started(): World {
    W(R(Running, 0), P(Serving, 0, 1, {X()}, {X()}, C(Leaving), T(Sending), Open, {}, {0}), multiset{X()}, {})
  }

  function IsOver(): World {
    W(R(Running, 0), P(Serving, 0, 1, {X()}, {}, C(Leaving), T(Ended(Outcome.Completed(true))), Open, {}, {0}),
      multiset{X()}, {X()})
  }

  function IsSettling(): World {
    W(R(Running, 0), P(Serving, 0, 1, {X()}, {}, C(Leaving), T(Settling(Outcome.Completed(true))), Open, {}, {0}),
      multiset{X()}, {X()})
  }

  function AnswerLost(): World {
    W(R(RowState.Completed, 1), P(Serving, 0, 1, {X()}, {}, C(Leaving), T(Settled(Outcome.Completed(true), Error)),
                                  Open,
                                  {}, {0}), multiset{X()}, {X()})
  }

  function Retried(): World {
    W(R(RowState.Completed, 1), P(Serving, 0, 1, {X()}, {}, C(Leaving), T(Settling(Outcome.Completed(true))), Open, {},
                                  {0}), multiset{X()}, {X()})
  }

  function Acknowledged(): World {
    W(R(RowState.Completed, 1), P(Serving, 0, 1, {X()}, {}, C(Leaving), T(Settled(Outcome.Completed(true), Committed)),
                                  Open, {}, {0}), multiset{X()}, {X()})
  }

  // The same task, while an operator's reopening holds the barrier, and its relay ends without a word

  function Reopening(): World {
    W(R(Running, 0), P(Serving, 0, 1, {X()}, {X()}, C(Leaving), T(Sending), Asking, {}, {0}), multiset{X()}, {})
  }

  function Unheard(): World {
    W(R(Running, 0), P(Serving, 0, 1, {X()}, {}, C(Leaving), T(Ended(Outcome.Uncertain)), Asking, {}, {0}),
      multiset{X()}, {})
  }

  function Forgetful(barrier: Barrier): World {
    var d := P(Serving, 0, 1, {X()}, {}, C(Leaving), T(Finishing), barrier, {}, {0});
    W(R(Running, 0), d.(forgotten := {X()}), multiset{X()}, {})
  }

  // -- From each to the next ------------------------------------------------------------------

  lemma {:induction false} Append(w: World, es: seq<WorldEvent>, e: WorldEvent)
    requires Possible(w, es) && Can(Then(w, es), e)
    ensures Possible(w, es + [e]) && Then(w, es + [e]) == Act(Then(w, es), e)
    decreases |es|
  {
    if es == [] {
      assert (es + [e])[1..] == [];
    } else {
      assert (es + [e])[0] == es[0] && (es + [e])[1..] == es[1..] + [e];
      Append(Act(w, es[0]), es[1..], e);
    }
  }

  lemma ReachNext(w: World, e: WorldEvent)
    requires Reachable(w) && Can(w, e)
    ensures Reachable(Act(w, e))
  {
    var hold, es :| Possible(Unclaimed(hold), es) && w == Then(Unclaimed(hold), es);
    Append(Unclaimed(hold), es, e);
  }

  /** Process 1 and the tables are the same, collection by collection. */
  ghost predicate SameCollections(d: Process, e: Process) {
    && d.calls == e.calls && d.tasks == e.tasks && d.holders == e.holders && d.queue == e.queue
    && d.f.admitted == e.f.admitted && d.f.sending == e.f.sending && d.f.restoring == e.f.restoring
    && d.forgotten == e.forgotten
  }

  ghost predicate Becomes(w: World, e: WorldEvent, v: World) {
    && Can(w, e) && v.IsElected(1) && Act(w, e).IsElected(1)
    && SameCollections(Act(w, e).agents[1].d, v.agents[1].d)
    && Act(w, e).db.rows == v.db.rows && Act(w, e).sent == v.sent && Act(w, e).evidence == v.evidence
    && Act(w, e).agents == v.agents
    && Act(w, e) == v
  }

  lemma Next(w: World, e: WorldEvent, v: World)
    requires Reachable(w) && Becomes(w, e, v)
    ensures Reachable(v)
  {
    ReachNext(w, e);
  }

  lemma Elects()
    ensures Reachable(Elected())
  {
    var w := Unclaimed(Hold(false, 0));
    assert Possible(w, []) && Then(w, []) == w;
    ReachNext(w, Spawn(1, 0, 0));
    var v := Act(w, Spawn(1, 0, 0));
    ReachNext(v, Claim(1, 5, 1, 1, true));
    var u := Act(v, Claim(1, 5, 1, 1, true));
    assert u.db.rows == map[];
    assert u.agents == map[1 := Agent.Elected(0, 0, Me(), NewProcess(1, 1))];
  }

  lemma Asks()
    ensures Reachable(Asked())
  {
    Elects();
    Next(Elected(), Local(1, OfGate(Reopen)), Asked());
  }

  lemma Hears()
    ensures Reachable(Heard())
  {
    Asks();
    Next(Asked(), Answer(1, OfGate(AskAnswers(false)), true), Heard());
  }

  lemma Opens()
    ensures Reachable(Opened())
  {
    Hears();
    Next(Heard(), Local(1, OfGate(Conclude)), Opened());
  }

  lemma Submits()
    ensures Reachable(Submitted())
  {
    Opens();
    Next(Opened(), Local(1, OfCall(0, Submit(X()))), Submitted());
  }

  lemma Inserts()
    ensures Reachable(Inserted())
  {
    Submits();
    Next(Submitted(), Answer(1, OfCall(0, InsertAnswers(Won)), true), Inserted());
  }

  lemma TakesSlot()
    ensures Reachable(SlotTaken())
  {
    Inserts();
    Next(Inserted(), Local(1, OfCall(0, TakeSlot)), SlotTaken());
  }

  lemma TakesBarrier()
    ensures Reachable(BarrierTaken())
  {
    TakesSlot();
    Next(SlotTaken(), Local(1, OfCall(0, TakeBarrier(true))), BarrierTaken());
  }

  lemma Promotes()
    ensures Reachable(IsPromoted())
  {
    TakesBarrier();
    Next(BarrierTaken(), Answer(1, OfCall(0, PromoteAnswers(Promoted)), true), IsPromoted());
  }

  lemma Admits()
    ensures Reachable(IsAdmitted())
  {
    Promotes();
    Next(IsPromoted(), Local(1, OfCall(0, Promote)), IsAdmitted());
  }

  lemma Starts()
    ensures Reachable(Started())
  {
    Admits();
    Next(IsAdmitted(), Local(1, OfTask(X(), Start)), Started());
  }

  lemma Ends()
    ensures Reachable(IsOver())
  {
    Starts();
    Next(Started(), Local(1, OfTask(X(), EndSend(Outcome.Completed(true)))), IsOver());
  }

  lemma Settles()
    ensures Reachable(IsSettling())
  {
    Ends();
    Next(IsOver(), Local(1, OfTask(X(), EnterSettle)), IsSettling());
  }

  lemma LosesTheAnswer()
    ensures Reachable(AnswerLost())
  {
    Settles();
    Next(IsSettling(), Answer(1, OfTask(X(), SettleAnswers(Error)), true), AnswerLost());
  }

  lemma TriesAgain()
    ensures Reachable(Retried())
  {
    LosesTheAnswer();
    Next(AnswerLost(), Local(1, OfTask(X(), SettleResumes)), Retried());
  }

  lemma Acknowledges()
    ensures Reachable(Acknowledged())
  {
    TriesAgain();
    Next(Retried(), Answer(1, OfTask(X(), SettleAnswers(Committed)), true), Acknowledged());
  }

  /** Operations do get through: this one was sent once, and its result stored once. */
  lemma SomethingCompletes()
    ensures exists w, op :: Reachable(w) && w.sent[op] == 1 && op in w.db.rows
                            && w.db.rows[op].state == RowState.Completed && w.db.rows[op].results == 1
  {
    Acknowledges();
    var w := Acknowledged();
    assert X() in w.db.rows && w.sent[X()] == 1;
  }

  lemma IsReopened()
    ensures Reachable(Reopening())
  {
    Starts();
    Next(Started(), Local(1, OfGate(Reopen)), Reopening());
  }

  lemma EndsUnheard()
    ensures Reachable(Unheard())
  {
    IsReopened();
    Next(Reopening(), Local(1, OfTask(X(), EndSend(Outcome.Uncertain))), Unheard());
  }

  lemma IsCancelled()
    ensures Reachable(Forgetful(Asking))
  {
    EndsUnheard();
    Next(Unheard(), Local(1, OfTask(X(), AbandonNote)), Forgetful(Asking));
  }

  lemma HearsOfNothing()
    ensures Reachable(Forgetful(Barrier.Heard(false)))
  {
    IsCancelled();
    Next(Forgetful(Asking), Answer(1, OfGate(AskAnswers(false)), true), Forgetful(Barrier.Heard(false)));
  }

  lemma ServesOn()
    ensures Reachable(Forgetful(Open))
  {
    HearsOfNothing();
    Next(Forgetful(Barrier.Heard(false)), Local(1, OfGate(Conclude)), Forgetful(Open));
  }

  /**
   A task cancelled while a reopening holds the barrier it waits for leaves a gate that serves, on the word that
   nothing is unknown, and an uncertain send that is hidden from it.
   */
  lemma CancellationHidesUncertainty()
    ensures exists w, pid, op :: Reachable(w) && w.IsElected(pid) && w.agents[pid].own == w.db.owner
              && w.agents[pid].d.f.gate == Serving && w.agents[pid].d.barrier == Open && Hidden(w, pid, op)
  {
    ServesOn();
    var w := Forgetful(Open);
    assert w.IsElected(1) && Hidden(w, 1, X());
  }
}
