/**
 The file protocol between a node agent (`supervisor.py`) and the host's runtime supervisor
 (`runtime_supervisor.py`). The two share three sets of files; every `exists`, `rename`, `unlink`
 and `replace` is one step, and either side may die between any two of its steps.
 */
module Supervision {
  type Id = nat
  type AgentId = nat

  /**
   Where an agent stands in `Supervisor.run`, which has no await before its write, nor between the
   reads of one turn of its waiting loop.
   */
  datatype AgentPc =
    | Resting
    | NoReceipt(id: Id)      // about to write: no receipt was there
    | NoRequest(id: Id)      // no request file either
    | NoClaim(id: Id)        // no claim either: the request will be written
    | Missing(id: Id)        // waiting: no request file
    | Vanished(id: Id)       // nor a claim

  /** Where the supervisor stands in `cycle`, with the requests it has listed and not yet handled. */
  datatype SupervisorPc =
    | Listing
    | Handling(todo: seq<Id>)
    | Spent(id: Id, todo: seq<Id>)     // a receipt was there: the request is discarded
    | Cleared(id: Id, todo: seq<Id>)   // no receipt was there
    | Claimed(id: Id, todo: seq<Id>)   // renamed, nothing executed
    | Executed(id: Id, todo: seq<Id>)
    | Published(id: Id, todo: seq<Id>)

  /** Where an agent stands in `runtime_quiet_for_serving`, which asks before it lets the node serve. */
  datatype Watch =
    | Unasked
    | Withdrawing(todo: set<Id>)   // what was waiting when it looked
    | Checking(left: set<Id>)      // what was claimed when it looked again, and has not been found answered
    | FoundQuiet
    | FoundRunning

  datatype Files = Files(
    requests: set<Id>,
    claimed: set<Id>,
    receipts: set<Id>,
    ran: multiset<Id>,         // how often each request was executed
    host: SupervisorPc,
    agents: map<AgentId, AgentPc>,
    watch: Watch)

  datatype Step =
    // the agent
    | FindNoReceipt(a: AgentId, id: Id)
    | LookForRequest(a: AgentId)
    | LookForClaim(a: AgentId)
    | Write(a: AgentId)
    | Withdraw(a: AgentId, id: Id)
    | MissRequest(a: AgentId, id: Id)
    | MissClaim(a: AgentId)
    | ConcludeWithdrawn(a: AgentId)
    | AgentRests(a: AgentId)
    // the agent, before it serves
    | ListWaiting
    | WithdrawListed(id: Id)
    | ListClaims
    | FindAnswered(id: Id)
    | FindRunning(id: Id)
    | ConcludeQuiet
    // the supervisor
    | List(todo: seq<Id>)
    | CheckReceipt
    | Discard
    | Rename
    | Execute
    | Reject
    | Publish
    | Unclaim
    | HostDies

  predicate Is(s: Files, a: AgentId) {
    a in s.agents
  }

  predicate AgentCan(s: Files, e: Step) {
    match e
    case FindNoReceipt(a, id) => Is(s, a) && s.agents[a] == Resting && id !in s.receipts
    case LookForRequest(a) => Is(s, a) && s.agents[a].NoReceipt?
    case LookForClaim(a) => Is(s, a) && s.agents[a].NoRequest?
    case Write(a) => Is(s, a) && s.agents[a].NoClaim?
    case Withdraw(a, id) => Is(s, a) && s.agents[a] == Resting
    case MissRequest(a, id) => Is(s, a) && s.agents[a] == Resting && id !in s.requests
    case MissClaim(a) => Is(s, a) && s.agents[a].Missing?
    case ConcludeWithdrawn(a) => Is(s, a) && s.agents[a].Vanished? && s.agents[a].id !in s.receipts
    case AgentRests(a) => Is(s, a)
    case _ => false
  }

  predicate WatchCan(s: Files, e: Step) {
    match e
    case ListWaiting => true
    case WithdrawListed(id) => s.watch.Withdrawing? && id in s.watch.todo
    case ListClaims => s.watch == Withdrawing({})
    case FindAnswered(id) => s.watch.Checking? && id in s.watch.left && id in s.receipts
    case FindRunning(id) => s.watch.Checking? && id in s.watch.left && id !in s.receipts
    case ConcludeQuiet => s.watch == Checking({})
    case _ => false
  }

  predicate HostCan(s: Files, e: Step) {
    match e
    case List(todo) => s.host == Listing && (forall id | id in todo :: id in s.requests)
    case CheckReceipt => s.host.Handling? && s.host.todo != []
    case Discard => s.host.Spent?
    case Rename => s.host.Cleared?
    case Execute => s.host.Claimed?
    case Reject => s.host.Claimed?
    case Publish => s.host.Executed?
    case Unclaim => s.host.Published?
    case HostDies => true
    case _ => false
  }

  function AgentDoes(s: Files, e: Step): Files
    requires AgentCan(s, e)
  {
    match e
    case FindNoReceipt(a, id) => s.(agents := s.agents[a := NoReceipt(id)])
    case LookForRequest(a) =>
      var id := s.agents[a].id;
      s.(agents := s.agents[a := if id in s.requests then Resting else NoRequest(id)])
    case LookForClaim(a) =>
      var id := s.agents[a].id;
      s.(agents := s.agents[a := if id in s.claimed then Resting else NoClaim(id)])
    case Write(a) => s.(requests := s.requests + {s.agents[a].id}, agents := s.agents[a := Resting])
    case Withdraw(a, id) => s.(requests := s.requests - {id})
    case MissRequest(a, id) => s.(agents := s.agents[a := Missing(id)])
    case MissClaim(a) =>
      var id := s.agents[a].id;
      s.(agents := s.agents[a := if id in s.claimed then Resting else Vanished(id)])
    case ConcludeWithdrawn(a) => s.(agents := s.agents[a := Resting])
    case AgentRests(a) => s.(agents := s.agents[a := Resting])
  }

  function WatchDoes(s: Files, e: Step): Files
    requires WatchCan(s, e)
  {
    match e
    case ListWaiting => s.(watch := Withdrawing(s.requests))
    case WithdrawListed(id) => s.(requests := s.requests - {id}, watch := Withdrawing(s.watch.todo - {id}))
    case ListClaims => s.(watch := Checking(s.claimed))
    case FindAnswered(id) => s.(watch := Checking(s.watch.left - {id}))
    case FindRunning(_) => s.(watch := FoundRunning)
    case ConcludeQuiet => s.(watch := FoundQuiet)
  }

  function HostDoes(s: Files, e: Step): Files
    requires HostCan(s, e)
  {
    match e
    case List(todo) => s.(host := Handling(todo))
    case CheckReceipt =>
      var id, rest := s.host.todo[0], s.host.todo[1..];
      s.(host := if id in s.receipts then Spent(id, rest) else Cleared(id, rest))
    case Discard => s.(requests := s.requests - {s.host.id}, host := Handling(s.host.todo))
    case Rename =>
      var id := s.host.id;
      if id !in s.requests then s.(host := Handling(s.host.todo))
      else s.(requests := s.requests - {id}, claimed := s.claimed + {id}, host := Claimed(id, s.host.todo))
    case Execute => s.(ran := s.ran + multiset{s.host.id}, host := Executed(s.host.id, s.host.todo))
    case Reject => s.(host := Executed(s.host.id, s.host.todo))
    case Publish => s.(receipts := s.receipts + {s.host.id}, host := Published(s.host.id, s.host.todo))
    case Unclaim => s.(claimed := s.claimed - {s.host.id}, host := Handling(s.host.todo))
    case HostDies => s.(host := Listing)
  }

  predicate Can(s: Files, e: Step) {
    AgentCan(s, e) || WatchCan(s, e) || HostCan(s, e)
  }

  function Do(s: Files, e: Step): Files
    requires Can(s, e)
  {
    if AgentCan(s, e) then AgentDoes(s, e) else if WatchCan(s, e) then WatchDoes(s, e) else HostDoes(s, e)
  }

  ghost predicate Possible(s: Files, es: seq<Step>)
    decreases |es|
  {
    es == [] || (Can(s, es[0]) && Possible(Do(s, es[0]), es[1..]))
  }

  ghost function Then(s: Files, es: seq<Step>): Files
    requires Possible(s, es)
    decreases |es|
  {
    if es == [] then s else Then(Do(s, es[0]), es[1..])
  }

  /** Nothing asked, nothing answered. */
  function Empty(agents: map<AgentId, AgentPc>): Files {
    Files({}, {}, {}, multiset{}, Listing, agents, Unasked)
  }

  // -- The invariant -------------------------------------------------------------------------

  /** Taken, and not answered: the claim may be executing, or its supervisor died over it. */
  predicate Taken(s: Files, id: Id) {
    id in s.claimed && id !in s.receipts
  }

  predicate UnderClaim(host: SupervisorPc) {
    host.Claimed? || host.Executed?
  }

  ghost predicate RanOk(s: Files) {
    && (forall id :: s.ran[id] <= 1)
    && (forall id | s.ran[id] > 0 :: id in s.receipts || id in s.claimed)
  }

  ghost predicate HostOk(s: Files) {
    && (UnderClaim(s.host) ==> Taken(s, s.host.id))
    && (s.host.Claimed? ==> s.ran[s.host.id] == 0)
    && (s.host.Published? ==> s.host.id in s.receipts)
    && (s.host.Spent? ==> s.host.id in s.receipts)
    && (s.host.Cleared? ==> s.host.id !in s.receipts)
  }

  /** No request file stands beside an unanswered claim of the same name. */
  ghost predicate Exclusive(s: Files) {
    forall id | id in s.requests :: !Taken(s, id)
  }

  /** The only agent is the only one to write, so what it has not found stays away. */
  ghost predicate AgentOk(s: Files, pc: AgentPc) {
    match pc
    case NoRequest(id) => id !in s.requests
    case NoClaim(id) => id !in s.requests && !Taken(s, id)
    case Missing(id) => id !in s.requests
    case Vanished(id) => id !in s.requests && !Taken(s, id)
    case _ => true
  }

  ghost predicate AtMostOneAgent(agents: map<AgentId, AgentPc>) {
    forall a, b | a in agents && b in agents :: a == b
  }

  ghost predicate AllRest(agents: map<AgentId, AgentPc>) {
    forall a | a in agents :: agents[a] == Resting
  }

  ghost predicate Inv(s: Files) {
    && RanOk(s) && HostOk(s) && Exclusive(s)
    && AtMostOneAgent(s.agents)
    && (forall a | a in s.agents :: AgentOk(s, s.agents[a]))
  }

  lemma EmptyInv(agents: map<AgentId, AgentPc>)
    requires AllRest(agents) && AtMostOneAgent(agents)
    ensures Inv(Empty(agents))
  {
  }

  lemma AgentStepKeeps(s: Files, e: Step)
    requires Inv(s) && AgentCan(s, e)
    ensures Inv(AgentDoes(s, e))
  {
    assert AgentDoes(s, e).agents.Keys == s.agents.Keys;
  }

  lemma HostStepKeeps(s: Files, e: Step)
    requires Inv(s) && HostCan(s, e)
    ensures Inv(HostDoes(s, e))
  {
    assert HostDoes(s, e).agents == s.agents;
  }

  lemma WatchStepKeeps(s: Files, e: Step)
    requires Inv(s) && WatchCan(s, e)
    ensures Inv(WatchDoes(s, e))
  {
    assert WatchDoes(s, e).agents == s.agents;
  }

  lemma StepKeeps(s: Files, e: Step)
    requires Inv(s) && Can(s, e)
    ensures Inv(Do(s, e))
  {
    if AgentCan(s, e) {
      AgentStepKeeps(s, e);
    } else if WatchCan(s, e) {
      WatchStepKeeps(s, e);
    } else {
      HostStepKeeps(s, e);
    }
  }

  lemma {:induction false} RunKeeps(s: Files, es: seq<Step>)
    requires Inv(s) && Possible(s, es)
    ensures Inv(Then(s, es))
    decreases |es|
  {
    if es != [] {
      StepKeeps(s, es[0]);
      RunKeeps(Do(s, es[0]), es[1..]);
    }
  }

  // -- At most once ------------------------------------------------------------------------------

  /** With one agent process, no request is executed twice, whoever dies when and whatever is asked again. */
  lemma AtMostOnce(agents: map<AgentId, AgentPc>, es: seq<Step>, id: Id)
    requires AllRest(agents) && AtMostOneAgent(agents) && Possible(Empty(agents), es)
    ensures Then(Empty(agents), es).ran[id] <= 1
  {
    EmptyInv(agents);
    RunKeeps(Empty(agents), es);
  }

  ghost predicate Writes(s: Files, es: seq<Step>, id: Id)
    requires Possible(s, es)
    decreases |es|
  {
    && es != []
    && ((es[0].Write? && s.agents[es[0].a] == NoClaim(id)) || Writes(Do(s, es[0]), es[1..], id))
  }

  /** A request that is nowhere to be taken from, and not under the supervisor's hands. */
  ghost predicate Gone(s: Files, id: Id) {
    id !in s.requests && (s.host.Claimed? ==> s.host.id != id)
  }

  lemma GoneStep(s: Files, e: Step, id: Id)
    requires Can(s, e) && Gone(s, id) && !(e.Write? && s.agents[e.a] == NoClaim(id))
    ensures Gone(Do(s, e), id) && Do(s, e).ran[id] == s.ran[id]
  {
  }

  lemma {:induction false} GoneUntilWritten(s: Files, es: seq<Step>, id: Id)
    requires Possible(s, es) && Gone(s, id) && !Writes(s, es, id)
    ensures Then(s, es).ran[id] == s.ran[id]
    decreases |es|
  {
    if es != [] {
      GoneStep(s, es[0], id);
      GoneUntilWritten(Do(s, es[0]), es[1..], id);
    }
  }

  /** A request whose unlink succeeded is not executed after that, unless it is written again. */
  lemma WithdrawnIsNotExecuted(s: Files, a: AgentId, id: Id, es: seq<Step>)
    requires Inv(s) && Can(s, Withdraw(a, id)) && id in s.requests
    requires Possible(Do(s, Withdraw(a, id)), es) && !Writes(Do(s, Withdraw(a, id)), es, id)
    ensures Then(Do(s, Withdraw(a, id)), es).ran[id] == s.ran[id]
  {
    assert !Taken(s, id);
    GoneUntilWritten(Do(s, Withdraw(a, id)), es, id);
  }

  /** `run` reports a request as withdrawn only if it has never run, nor will unless written again. */
  lemma ReportedWithdrawnNeverRan(s: Files, a: AgentId, es: seq<Step>)
    requires Inv(s) && Can(s, ConcludeWithdrawn(a)) && a in s.agents
    requires Possible(s, es) && !Writes(s, es, s.agents[a].id)
    ensures s.ran[s.agents[a].id] == 0 == Then(s, es).ran[s.agents[a].id]
  {
    var id := s.agents[a].id;
    assert AgentOk(s, Vanished(id));
    GoneUntilWritten(s, es, id);
  }

  /** What the agent looks at before it lets the node serve: nothing waits, and every claim is answered. */
  predicate Quiet(s: Files) {
    s.requests == {} && s.claimed <= s.receipts
  }

  ghost predicate WritesAny(s: Files, es: seq<Step>) {
    exists e :: e in es && e.Write?
  }

  lemma {:induction false} NoWriteNoneOf(s: Files, es: seq<Step>, id: Id)
    requires Possible(s, es) && !WritesAny(s, es)
    ensures !Writes(s, es, id)
    decreases |es|
  {
    if es != [] {
      assert es[0] in es;
      forall e | e in es[1..] ensures !e.Write? {
        assert e in es;
      }
      NoWriteNoneOf(Do(s, es[0]), es[1..], id);
    }
  }

  /** From a quiet directory no stop and no restart happens until the agent asks for one. */
  lemma QuietStaysQuiet(s: Files, es: seq<Step>, id: Id)
    requires Inv(s) && Quiet(s) && Possible(s, es) && !WritesAny(s, es)
    ensures Then(s, es).ran[id] == s.ran[id]
  {
    NoWriteNoneOf(s, es, id);
    GoneUntilWritten(s, es, id);
  }

  // -- Before the node serves -------------------------------------------------------------------

  /** What would keep the runtime from being quiet: a request that waits, or one taken and not answered. */
  predicate Stirs(s: Files, id: Id) {
    id in s.requests || Taken(s, id)
  }

  /** What each look of the check leaves true of a request that is not written meanwhile. */
  predicate Seen(s: Files, id: Id) {
    match s.watch
    case Withdrawing(todo) => id in s.requests ==> id in todo
    case Checking(left) => id !in s.requests && (Taken(s, id) ==> id in left)
    case FoundQuiet => !Stirs(s, id)
    case _ => true
  }

  lemma SeenStep(s: Files, e: Step, id: Id)
    requires Inv(s) && Seen(s, id) && Can(s, e) && !(e.Write? && s.agents[e.a] == NoClaim(id))
    ensures Seen(Do(s, e), id)
  {
  }

  lemma {:induction false} SeenRun(s: Files, es: seq<Step>, id: Id)
    requires Inv(s) && Seen(s, id) && Possible(s, es) && !Writes(s, es, id)
    ensures Seen(Then(s, es), id)
    decreases |es|
  {
    if es != [] {
      StepKeeps(s, es[0]);
      SeenStep(s, es[0], id);
      SeenRun(Do(s, es[0]), es[1..], id);
    }
  }

  /**
   The check looks twice, at two moments and withdrawing in between. If it finds the runtime quiet, it is, but
   for requests that were written since it first looked; so it is quiet exactly if none of those stirs.
   */
  lemma CheckIsQuietExactly(s: Files, es: seq<Step>)
    requires Inv(s) && Possible(Do(s, ListWaiting), es) && Then(Do(s, ListWaiting), es).watch == FoundQuiet
    ensures var t := Then(Do(s, ListWaiting), es);
      && (forall id | Stirs(t, id) :: Writes(Do(s, ListWaiting), es, id))
      && (Quiet(t) <==> forall id | Writes(Do(s, ListWaiting), es, id) :: !Stirs(t, id))
  {
    var t := Then(Do(s, ListWaiting), es);
    StepKeeps(s, ListWaiting);
    forall id | Stirs(t, id) ensures Writes(Do(s, ListWaiting), es, id) {
      if !Writes(Do(s, ListWaiting), es, id) {
        SeenRun(Do(s, ListWaiting), es, id);
      }
    }
    if !Quiet(t) {
      var id :| id in t.requests || (id in t.claimed && id !in t.receipts);
      assert Stirs(t, id);
    }
  }

  /** If nothing was written since it first looked, what it finds quiet is quiet. */
  lemma CheckEstablishesQuiet(s: Files, es: seq<Step>)
    requires Inv(s) && Possible(Do(s, ListWaiting), es) && !WritesAny(Do(s, ListWaiting), es)
    requires Then(Do(s, ListWaiting), es).watch == FoundQuiet
    ensures Quiet(Then(Do(s, ListWaiting), es))
  {
    CheckIsQuietExactly(s, es);
    forall id ensures !Writes(Do(s, ListWaiting), es, id) {
      NoWriteNoneOf(Do(s, ListWaiting), es, id);
    }
  }

  // -- Two agents ------------------------------------------------------------------------------

  ghost predicate Reaches(s: Files, t: Files) {
    exists es :: Possible(s, es) && t == Then(s, es)
  }

  lemma {:induction false} Append(s: Files, es: seq<Step>, e: Step)
    requires Possible(s, es) && Can(Then(s, es), e)
    ensures Possible(s, es + [e]) && Then(s, es + [e]) == Do(Then(s, es), e)
    decreases |es|
  {
    var all := es + [e];
    if es == [] {
      assert all == [e] && all[1..] == [];
    } else {
      assert all[0] == es[0] && all[1..] == es[1..] + [e];
      Append(Do(s, es[0]), es[1..], e);
    }
  }

  lemma ReachesNext(s: Files, t: Files, e: Step)
    requires Reaches(s, t) && Can(t, e)
    ensures Reaches(s, Do(t, e))
  {
    var es :| Possible(s, es) && t == Then(s, es);
    Append(s, es, e);
  }

  /** An agent convinces itself that it has to write the request. */
  lemma DecidesToWrite(s: Files, t: Files, a: AgentId, id: Id)
    requires Reaches(s, t) && a in t.agents && t.agents[a] == Resting
    requires id !in t.requests && id !in t.claimed && id !in t.receipts
    ensures Reaches(s, t.(agents := t.agents[a := NoClaim(id)]))
  {
    ReachesNext(s, t, FindNoReceipt(a, id));
    var t1 := Do(t, FindNoReceipt(a, id));
    ReachesNext(s, t1, LookForRequest(a));
    var t2 := Do(t1, LookForRequest(a));
    ReachesNext(s, t2, LookForClaim(a));
    assert Do(t2, LookForClaim(a)).agents == t.agents[a := NoClaim(id)];
  }

  /** The supervisor takes a request that has no receipt. */
  lemma TakesOne(s: Files, t: Files, id: Id) returns (u: Files)
    requires Reaches(s, t) && t.host == Listing && id in t.requests && id !in t.receipts
    ensures Reaches(s, u)
    ensures u == t.(requests := t.requests - {id}, claimed := t.claimed + {id}, host := Claimed(id, []))
  {
    assert [id][1..] == [];
    ReachesNext(s, t, List([id]));
    var t1 := Do(t, List([id]));
    ReachesNext(s, t1, CheckReceipt);
    var t2 := Do(t1, CheckReceipt);
    assert t2 == t.(host := Cleared(id, []));
    ReachesNext(s, t2, Rename);
    u := Do(t2, Rename);
  }

  /** It executes it, and dies before its receipt. */
  lemma ExecutesAndDies(s: Files, t: Files, id: Id)
    requires Reaches(s, t) && t.host == Listing && id in t.requests && id !in t.receipts
    ensures Reaches(s, t.(requests := t.requests - {id}, claimed := t.claimed + {id}, ran := t.ran + multiset{id}))
  {
    var u := TakesOne(s, t, id);
    ReachesNext(s, u, Execute);
    ReachesNext(s, Do(u, Execute), HostDies);
  }

  /** What one agent found missing it writes after another had it executed by a supervisor that died. */
  lemma TwoAgentsRunTwice(agents: map<AgentId, AgentPc>, a: AgentId, b: AgentId)
    requires AllRest(agents) && a in agents && b in agents && a != b
    ensures exists t :: Reaches(Empty(agents), t) && t.ran[7] == 2
  {
    var s := Empty(agents);
    assert Possible(s, []) && Then(s, []) == s;
    DecidesToWrite(s, s, a, 7);
    var t1 := s.(agents := agents[a := NoClaim(7)]);
    DecidesToWrite(s, t1, b, 7);
    var t2 := t1.(agents := t1.agents[b := NoClaim(7)]);
    ReachesNext(s, t2, Write(b));
    var t3 := Do(t2, Write(b));
    ExecutesAndDies(s, t3, 7);
    var t4 := t3.(requests := t3.requests - {7}, claimed := {7}, ran := multiset{7});
    assert t4 == t3.(requests := t3.requests - {7}, claimed := t3.claimed + {7}, ran := t3.ran + multiset{7});
    ReachesNext(s, t4, Write(a));
    var t5 := Do(t4, Write(a));
    ExecutesAndDies(s, t5, 7);
    var t6 := t5.(requests := t5.requests - {7}, claimed := t5.claimed + {7}, ran := t5.ran + multiset{7});
    assert t6.ran[7] == 2;
  }

  /** The protocol executes at most once, in every run, exactly when at most one agent writes. */
  lemma AtMostOnceExactly(agents: map<AgentId, AgentPc>)
    requires AllRest(agents)
    ensures AtMostOneAgent(agents) <==> forall t, id :: Reaches(Empty(agents), t) ==> t.ran[id] <= 1
  {
    if AtMostOneAgent(agents) {
      forall t, id | Reaches(Empty(agents), t) ensures t.ran[id] <= 1 {
        var es :| Possible(Empty(agents), es) && t == Then(Empty(agents), es);
        AtMostOnce(agents, es, id);
      }
    } else {
      var a, b :| a in agents && b in agents && a != b;
      TwoAgentsRunTwice(agents, a, b);
    }
  }

  // -- A write that the check overlooks -----------------------------------------------------------

  /** An agent writes a request that was nowhere. */
  lemma WritesOne(s: Files, t: Files, a: AgentId, id: Id) returns (u: Files)
    requires Reaches(s, t) && a in t.agents && t.agents[a] == Resting
    requires id !in t.requests && id !in t.claimed && id !in t.receipts
    ensures Reaches(s, u) && u == t.(requests := t.requests + {id})
  {
    DecidesToWrite(s, t, a, id);
    var t1 := t.(agents := t.agents[a := NoClaim(id)]);
    ReachesNext(s, t1, Write(a));
    u := Do(t1, Write(a));
    assert u.agents == t.agents;
  }

  /** The check finds one request waiting, and withdraws it. */
  lemma WithdrawsOne(s: Files, t: Files, id: Id) returns (u: Files)
    requires Reaches(s, t) && t.requests == {id}
    ensures Reaches(s, u) && u == t.(requests := {}, watch := Withdrawing({}))
  {
    ReachesNext(s, t, ListWaiting);
    var t1 := Do(t, ListWaiting);
    ReachesNext(s, t1, WithdrawListed(id));
    u := Do(t1, WithdrawListed(id));
  }

  /** A request written while another is being withdrawn is not looked for again, and the check finds quiet. */
  lemma WriteSlipsByTheCheck(a: AgentId)
    ensures exists t :: Reaches(Empty(map[a := Resting]), t) && t.watch == FoundQuiet && !Quiet(t)
  {
    var s := Empty(map[a := Resting]);
    assert Possible(s, []) && Then(s, []) == s;
    var t1 := WritesOne(s, s, a, 5);
    var t2 := WithdrawsOne(s, t1, 5);
    var t3 := WritesOne(s, t2, a, 7);
    ReachesNext(s, t3, ListClaims);
    var t4 := Do(t3, ListClaims);
    ReachesNext(s, t4, ConcludeQuiet);
    assert 7 in Do(t4, ConcludeQuiet).requests;
  }

  // -- One whole cycle ---------------------------------------------------------------------------

  /** The supervisor's side of the directory, when nobody else touches it meanwhile. */
  class Directory {
    var requests: set<Id>
    var claimed: set<Id>
    var receipts: set<Id>
    var ran: multiset<Id>

    constructor ()
      ensures requests == claimed == receipts == {} && ran == multiset{}
    {
      requests, claimed, receipts, ran := {}, {}, {}, multiset{};
    }

    /** `os.rename(path, claimed)`; false if the request is not there. */
    method Claim(id: Id) returns (taken: bool)
      modifies this`requests, this`claimed
      ensures taken <==> id in old(requests)
      ensures requests == old(requests) - {id}
      ensures claimed == if taken then old(claimed) + {id} else old(claimed)
    {
      taken := id in requests;
      if taken {
        requests := requests - {id};
        claimed := claimed + {id};
      }
    }

    /**
     Every listed request is answered, and exactly those that are there, readable and had no receipt
     are executed, once each; `readable` stands for what `read_request` accepts.
     */
    method Cycle(pending: seq<Id>, readable: set<Id>)
      modifies this
      ensures requests == old(requests) - Ids(pending)
      ensures receipts == old(receipts) + (Ids(pending) * old(requests))
      ensures forall id :: ran[id] == old(ran)[id]
                + if Due(id, pending, old(requests), readable, old(receipts)) then 1 else 0
      ensures claimed == old(claimed) - (Ids(pending) * old(requests) - old(receipts))
    {
      var k := 0;
      while k < |pending|
        invariant 0 <= k <= |pending|
        invariant requests == old(requests) - Ids(pending[..k])
        invariant receipts == old(receipts) + (Ids(pending[..k]) * old(requests))
        invariant forall id :: ran[id] == old(ran)[id]
                    + if Due(id, pending[..k], old(requests), readable, old(receipts)) then 1 else 0
        invariant claimed == old(claimed) - (Ids(pending[..k]) * old(requests) - old(receipts))
      {
        var id := pending[k];
        assert pending[..k + 1] == pending[..k] + [id];
        assert Ids(pending[..k + 1]) == Ids(pending[..k]) + {id};
        k := k + 1;
        if id in receipts {
          requests := requests - {id};
          continue;
        }
        var taken := Claim(id);
        if taken {
          if id in readable {
            ran := ran + multiset{id};
          }
          receipts := receipts + {id};
          claimed := claimed - {id};
        }
      }
      assert pending[..k] == pending;
    }
  }

  /** Listed, there, readable, and not answered before. */
  predicate Due(id: Id, pending: seq<Id>, requests: set<Id>, readable: set<Id>, receipts: set<Id>) {
    id in pending && id in requests && id in readable && id !in receipts
  }

  function Ids(pending: seq<Id>): set<Id> {
    set id | id in pending
  }
}
