/** The resolutions in progress in one agent (`resolution.py`, class `Resolutions`). */
module Resolution {
  import opened Text
  import opened Gate
  import opened Store
  import opened World
  import opened Reset

  type ResolutionId = nat

  datatype Pending = Pending(op: Op, baseline: Document)

  datatype Completion =
    | NotInProgress
    | WitnessRestarted     // another incarnation answered: start again
    | NotRestarted         // the same instance still listens: try again
    | NoLongerUnknown
    | NotOurs              // the ownership proof failed
    | Resolved

  /** What `complete` makes of an answer, before and after it asks the database. */
  function Judged(p: Pending, after: Document, answer: Store.Answer): Completion {
    if after.incarnation != p.baseline.incarnation then WitnessRestarted
    else if !Accepts(p.baseline, after) then NotRestarted
    else match answer
         case Superseded => NotOurs
         case Did(true) => Resolved
         case _ => NoLongerUnknown
  }

  class Resolutions {
    const store: OperationStore
    var pending: map<ResolutionId, Pending>

    constructor (store: OperationStore)
      ensures this.store == store && pending == map[]
    {
      this.store, pending := store, map[];
    }

    /** `start`: only an unknown operation that no task holds, and only with a baseline. */
    method Start(id: ResolutionId, op: Op, state: Option<RowState>, held: bool, baseline: Option<Document>)
      returns (begun: bool)
      modifies this`pending
      ensures begun <==> state == Some(Unknown) && !held && baseline.Some?
      ensures pending == if begun then old(pending)[id := Pending(op, baseline.value)] else old(pending)
    {
      if state != Some(Unknown) || held {
        return false;
      }
      if baseline == None {
        return false;
      }
      pending := pending[id := Pending(op, baseline.value)];
      begun := true;
    }

    /**
     `complete`: the row changes exactly when the second answer shows another instance under the same
     incarnation with a larger number, and the resolution stays in progress exactly when
     trying again can help.
     */
    method Complete(id: ResolutionId, after: Document) returns (result: Completion)
      modifies this`pending, store.tables
      ensures id !in old(pending) ==>
                result == NotInProgress && pending == old(pending) && store.tables.View() == old(store.tables.View())
      ensures id in old(pending) ==>
                var p := old(pending)[id];
                var tx := MoveTx(old(store.tables.View()), store.ownership, p.op, Unknown, Failed);
                && result == Judged(p, after, tx.1)
                && store.tables.View() == (if Accepts(p.baseline, after) then tx.0 else old(store.tables.View()))
                && pending == if result == NotRestarted || result == NotOurs then old(pending) else old(pending) - {id}
    {
      if id !in pending {
        return NotInProgress;
      }
      var p := pending[id];
      if after.incarnation != p.baseline.incarnation {
        pending := pending - {id};
        return WitnessRestarted;
      }
      if after.number <= p.baseline.number || after.seen == p.baseline.seen {
        return NotRestarted;
      }
      var answer := store.ResolveUnknown(p.op);
      if answer == Superseded {
        return NotOurs;
      }
      pending := pending - {id};
      result := if answer == Did(true) then Resolved else NoLongerUnknown;
    }

    /**
     The end of `maintenance_reset`: nothing is resolved unless the hold is still closed and the gate still
     frozen at the reset's epoch; then, of the operations fixed before the baseline, those that are unknown
     and that no task holds are, and no other row is touched.
     */
    method ResolveCohort(cohort: seq<Op>, held: set<Op>, epoch: nat, frozenEpoch: Option<nat>)
      returns (resolved: set<Op>, disowned: bool)
      modifies store.tables
      ensures resolved ==
                if store.tables.owner != store.ownership || !Holds(store.tables.hold, frozenEpoch, epoch) then {}
                else Resolvable(old(store.tables.rows), store.ownership, cohort, held)
      ensures store.tables.View() == old(store.tables.View()).(rows := Cleared(old(store.tables.rows), resolved))
      ensures disowned <==> store.tables.owner != store.ownership && Holds(store.tables.hold, frozenEpoch, epoch)
                            && exists op | op in cohort :: RowUnknownIn(old(store.tables.rows), op) && op !in held
    {
      resolved, disowned := {}, false;
      var k := 0;
      var was := store.tables.rows;
      assert Cleared(was, {}) == was;
      if store.tables.hold.NoHold? || !store.tables.hold.closed || store.tables.hold.epoch != epoch
         || frozenEpoch != Some(epoch)
      {
        return;
      }
      while k < |cohort|
        invariant 0 <= k <= |cohort|
        invariant store.tables.View() == old(store.tables.View()).(rows := Cleared(was, resolved))
        invariant resolved == if store.tables.owner != store.ownership then {}
                              else Resolvable(was, store.ownership, cohort[..k], held)
        invariant store.tables.owner != store.ownership ==>
                    forall op | op in cohort[..k] :: !(RowUnknownIn(was, op) && op !in held)
      {
        var op := cohort[k];
        ResolvableMore(was, store.ownership, cohort, k, held);
        k := k + 1;
        if !RowUnknownIn(was, op) || op in held {
          continue;
        }
        var answer := store.ResolveUnknown(op);
        if answer == Superseded {
          disowned := true;
          return;
        }
        ClearedMore(was, resolved, op);
        if answer == Did(true) {
          resolved := resolved + {op};
        }
      }
      assert cohort[..k] == cohort;
    }
  }

  /** The end test of a reset. */
  predicate Holds(hold: Hold, frozenEpoch: Option<nat>, epoch: nat) {
    hold == Hold(true, epoch) && frozenEpoch == Some(epoch)
  }

  predicate RowUnknownIn(rows: Rows, op: Op) {
    op in rows && rows[op].state == Unknown
  }

  function Resolvable(rows: Rows, own: Ownership, cohort: seq<Op>, held: set<Op>): set<Op> {
    set op | op in cohort && RowUnknownIn(rows, op) && op !in held && rows[op].owner == own.generation
  }

  function Cleared(rows: Rows, resolved: set<Op>): Rows {
    map op | op in rows :: if op in resolved then rows[op].(state := Failed) else rows[op]
  }

  lemma ClearedMore(rows: Rows, resolved: set<Op>, op: Op)
    requires op in rows
    ensures Cleared(rows, resolved)[op := Cleared(rows, resolved)[op].(state := Failed)]
         == Cleared(rows, resolved + {op})
  {
  }

  lemma ResolvableMore(rows: Rows, own: Ownership, cohort: seq<Op>, k: nat, held: set<Op>)
    requires k < |cohort|
    ensures var op := cohort[k];
      Resolvable(rows, own, cohort[..k + 1], held)
        == Resolvable(rows, own, cohort[..k], held)
           + if RowUnknownIn(rows, op) && op !in held && rows[op].owner == own.generation then {op} else {}
  {
    assert cohort[..k + 1] == cohort[..k] + [cohort[k]];
  }

  /** A resolution that succeeds turns one unknown row of this owner into a failed one and no other row. */
  lemma ResolvedRow(db: Db, own: Ownership, p: Pending, after: Document)
    requires Judged(p, after, MoveTx(db, own, p.op, Unknown, Failed).1) == Resolved
    ensures var db' := MoveTx(db, own, p.op, Unknown, Failed).0;
      && db.owner == own && p.op in db.rows && db.rows[p.op].state == Unknown
      && db'.rows == db.rows[p.op := db.rows[p.op].(state := Failed)]
    ensures Accepts(p.baseline, after)
  {
  }

  /** The step of the node that moves the row is the one `complete` takes on the evidence it was shown. */
  lemma CompletesAsShown(n: Node, pid: Pid, x: Op)
    requires OrderOk(n) && n.evidence.Shown? && n.w.IsElected(pid)
    ensures var tx := MoveTx(n.w.db, n.w.agents[pid].own, x, Unknown, Failed);
      var result := Judged(Pending(x, n.evidence.baseline), n.evidence.after, tx.1);
      && (Reset.Resolved(n, pid, x).evidence.Done? <==> result == Completion.Resolved)
      && Reset.Resolved(n, pid, x).w.db == tx.0
  {
  }
}
