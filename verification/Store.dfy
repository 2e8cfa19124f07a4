/**
 The durable operations of one node: the owned transactions of `store.py`, the takeover of
 `election.py` and the kernel release of `release_kernel.py`, each as one atomic step.
 */
module Store {
  import opened Text
  import opened Gate

  datatype RowState = Accepted | Running | Completed | Failed | Unknown | CancelledUnsent

  /** What a process was elected with; the boot id is its own random name. */
  datatype Ownership = Ownership(generation: nat, boot: nat)

  /** A row of `node_operations`, with how many results `attempt_results` holds for it. */
  datatype Row = Row(state: RowState, origin: Ownership, owner: nat, results: nat)

  /** The row of `maintenance_control`; a missing one counts as closed. */
  datatype Hold = NoHold | Hold(closed: bool, epoch: nat)

  type Rows = map<Op, Row>

  datatype Db = Db(rows: Rows, owner: Ownership, kernel: Option<nat>, domain: Option<nat>, hold: Hold)
  {
    /** Is the row in this state and this generation's to write? */
    predicate Is(op: Op, state: RowState, own: Ownership) {
      op in rows && rows[op].state == state && rows[op].owner == own.generation
    }

    function Set(op: Op, state: RowState): Db
      requires op in rows
    {
      this.(rows := rows[op := rows[op].(state := state)])
    }

    function Add(op: Op, state: RowState): Db {
      this.(rows := rows[op := Row(state, owner, owner.generation, 0)])
    }
  }

  /** What a transaction tells its caller when it does not raise a database error. */
  datatype Answer = Superseded | AdmissionClosed(epoch: Option<nat>) | Did(done: bool)

  predicate NoneIs(rows: Rows, state: RowState) {
    forall op | op in rows :: rows[op].state != state
  }

  function HoldEpoch(hold: Hold): Option<nat> {
    if hold.NoHold? then None else Some(hold.epoch)
  }

  /** A restore needs the hold closed at its own epoch, everything else needs it open. */
  predicate HoldAdmits(hold: Hold, kind: Kind) {
    match kind
    case Restore(epoch) => hold == Hold(true, epoch)
    case _ => hold.Hold? && !hold.closed
  }

  function InsertTx(db: Db, own: Ownership, op: Op): (Db, Answer) {
    if db.owner != own then (db, Superseded)
    else if op in db.rows then (db, Did(false))
    else (db.Add(op, Accepted), Did(true))
  }

  function PromoteTx(db: Db, own: Ownership, op: Op): (Db, Answer) {
    if db.owner != own then (db, Superseded)
    else if !HoldAdmits(db.hold, op.kind) then (db, AdmissionClosed(HoldEpoch(db.hold)))
    else if !NoneIs(db.rows, Unknown) || !db.Is(op, Accepted, own) then (db, Did(false))
    else (db.Set(op, Running), Did(true))
  }

  function CancelTx(db: Db, own: Ownership, op: Op): (Db, Answer) {
    if db.owner != own then (db, Superseded)
    else if op !in db.rows then (db.Add(op, CancelledUnsent), Did(true))
    else if db.Is(op, Accepted, own) then (db.Set(op, CancelledUnsent), Did(true))
    else (db, Did(true))
  }

  /** `mark_unknown`, `unsent_after_promotion` and `resolve_unknown` */
  function MoveTx(db: Db, own: Ownership, op: Op, from: RowState, to: RowState): (Db, Answer) {
    if db.owner != own then (db, Superseded)
    else if db.Is(op, from, own) then (db.Set(op, to), Did(true))
    else (db, Did(false))
  }

  /** `finish`: the terminal state and any stored result in one commit. */
  function FinishTx(db: Db, own: Ownership, op: Op, to: RowState, stored: bool): (Db, Answer) {
    if db.owner != own then (db, Superseded)
    else if db.Is(op, Running, own) then
      (db.(rows := db.rows[op := db.rows[op].(state := to,
                                              results := db.rows[op].results + if stored then 1 else 0)]),
       Did(true))
    else (db, Did(false))
  }

  /** The state `_settle` commits for an outcome. */
  function Target(outcome: Outcome): RowState {
    match outcome
    case Completed(_) => RowState.Completed
    case RuntimeRefused => Failed
    case NotSent => Failed
    case Withheld => CancelledUnsent
    case Uncertain => Unknown
  }

  function SettleTx(db: Db, own: Ownership, op: Op, outcome: Outcome): (Db, Answer) {
    match outcome
    case Withheld => MoveTx(db, own, op, Running, CancelledUnsent)
    case Uncertain => MoveTx(db, own, op, Running, Unknown)
    case _ => FinishTx(db, own, op, Target(outcome), outcome.Completed? && outcome.stored)
  }

  /** `_unsent_after_failed_promotion`, once its reads and its write are one step. */
  function RepairTx(db: Db, own: Ownership, op: Op): (Db, Answer) {
    if op !in db.rows || db.rows[op].state == Accepted then CancelTx(db, own, op)
    else if db.rows[op].state == Running then MoveTx(db, own, op, Running, CancelledUnsent)
    else (db, Did(true))
  }

  // -- Takeover ----------------------------------------------------------------------

  /** What a takeover by generation `g` does to a row. */
  function Orphaned(row: Row, g: nat): Row {
    match row.state
    case Running => row.(state := Unknown, owner := g)
    case Accepted => row.(state := CancelledUnsent, owner := g)
    case Unknown => row.(owner := g)
    case _ => row
  }

  function Inherited(rows: Rows, g: nat): Rows {
    map op | op in rows :: Orphaned(rows[op], g)
  }

  predicate SomeOpen(rows: Rows) {
    !NoneIs(rows, Running) || !NoneIs(rows, Unknown)
  }

  /** May a process of this domain and kernel take the node over? */
  predicate Claimable(db: Db, domain: nat, kernel: Option<nat>) {
    && (db.domain == None || db.domain == Some(domain))
    && (db.kernel != None && kernel != db.kernel ==> !SomeOpen(db.rows))
  }

  function ClaimTx(db: Db, domain: nat, kernel: Option<nat>, boot: nat): Db
    requires Claimable(db, domain, kernel)
  {
    var g := db.owner.generation + 1;
    Db(Inherited(db.rows, g), Ownership(g, boot), kernel, Some(domain), db.hold)
  }

  predicate Releasable(db: Db, domain: nat, previous: nat, current: nat) {
    previous != current && db.domain == Some(domain) && db.kernel == Some(previous) && SomeOpen(db.rows)
  }

  function ReleaseTx(db: Db, current: nat): Db {
    db.(kernel := Some(current))
  }

  /** One statement of the takeover: every row in a state moves to the new owner in another. */
  function Moved(rows: Rows, from: RowState, to: RowState, g: nat): Rows {
    map op | op in rows :: if rows[op].state == from then rows[op].(state := to, owner := g) else rows[op]
  }

  lemma InheritedInThreeMoves(rows: Rows, g: nat)
    ensures Moved(Moved(Moved(rows, Running, Unknown, g), Accepted, CancelledUnsent, g), Unknown, Unknown, g)
         == Inherited(rows, g)
  {
  }

  // -- The tables, updated in place -----------------------------------------------------

  class Tables {
    var rows: Rows
    var owner: Ownership
    var kernel: Option<nat>
    var domain: Option<nat>
    var hold: Hold

    function View(): Db
      reads this
    {
      Db(rows, owner, kernel, domain, hold)
    }

    constructor ()
      ensures View() == Db(map[], Ownership(0, 0), None, None, NoHold)
    {
      rows, owner, kernel, domain, hold := map[], Ownership(0, 0), None, None, NoHold;
    }

    /** An `UPDATE … WHERE state = … AND owner_generation = …`; was there such a row? */
    method Update(op: Op, from: RowState, to: RowState, own: Ownership) returns (done: bool)
      modifies this`rows
      ensures done == old(View()).Is(op, from, own)
      ensures View() == if done then old(View()).Set(op, to) else old(View())
    {
      done := op in rows && rows[op].state == from && rows[op].owner == own.generation;
      if done {
        rows := rows[op := rows[op].(state := to)];
      }
    }

    /** The takeover: one statement per state the previous owner may have left behind. */
    method Claim(domainId: nat, kernelBoot: Option<nat>, boot: nat) returns (elected: Option<Ownership>)
      modifies this
      ensures elected.Some? <==> Claimable(old(View()), domainId, kernelBoot)
      ensures elected.Some? ==> View() == ClaimTx(old(View()), domainId, kernelBoot, boot) && elected == Some(owner)
      ensures elected.None? ==> View() == old(View())
    {
      if domain != None && domain != Some(domainId) {
        return None;
      }
      if kernel != None && kernelBoot != kernel && SomeOpen(rows) {
        return None;
      }
      ghost var was := rows;
      var g := owner.generation + 1;
      domain, kernel, owner := Some(domainId), kernelBoot, Ownership(g, boot);
      rows := Moved(rows, Running, Unknown, g);
      rows := Moved(rows, Accepted, CancelledUnsent, g);
      rows := Moved(rows, Unknown, Unknown, g);
      InheritedInThreeMoves(was, g);
      elected := Some(owner);
    }

    method ReleasePreviousKernel(domainId: nat, previous: nat, current: nat) returns (released: bool)
      modifies this`kernel
      ensures released == Releasable(old(View()), domainId, previous, current)
      ensures View() == if released then ReleaseTx(old(View()), current) else old(View())
    {
      released := false;
      if previous == current {
        return;
      }
      if domain != Some(domainId) || kernel != Some(previous) {
        return;
      }
      if !SomeOpen(rows) {
        return;
      }
      kernel := Some(current);
      released := true;
    }
  }

  /** One elected process's way into the tables. */
  class OperationStore {
    const tables: Tables
    const ownership: Ownership

    constructor (tables: Tables, ownership: Ownership)
      ensures this.tables == tables && this.ownership == ownership
    {
      this.tables, this.ownership := tables, ownership;
    }

    method InsertAccepted(op: Op) returns (answer: Answer)
      modifies tables
      ensures (tables.View(), answer) == InsertTx(old(tables.View()), ownership, op)
    {
      if tables.owner != ownership {
        return Superseded;
      }
      if op in tables.rows {
        return Did(false);
      }
      tables.rows := tables.rows[op := Row(Accepted, ownership, ownership.generation, 0)];
      answer := Did(true);
    }

    method Promote(op: Op) returns (answer: Answer)
      modifies tables
      ensures (tables.View(), answer) == PromoteTx(old(tables.View()), ownership, op)
    {
      if tables.owner != ownership {
        return Superseded;
      }
      var hold := tables.hold;
      if op.kind.Restore? {
        var held := hold != NoHold && hold.closed;
        if !held || hold.epoch != op.kind.epoch {
          return AdmissionClosed(HoldEpoch(hold));
        }
      } else if hold == NoHold || hold.closed {
        return AdmissionClosed(HoldEpoch(hold));
      }
      if !NoneIs(tables.rows, Unknown) {
        return Did(false);
      }
      var claimed := tables.Update(op, Accepted, Running, ownership);
      answer := Did(claimed);
    }

    /** A tombstone for an unknown op id, the end of an accepted one, and nothing for any other. */
    method CancelAccepted(op: Op) returns (answer: Answer)
      modifies tables
      ensures (tables.View(), answer) == CancelTx(old(tables.View()), ownership, op)
    {
      if tables.owner != ownership {
        return Superseded;
      }
      if op !in tables.rows {
        tables.rows := tables.rows[op := Row(CancelledUnsent, ownership, ownership.generation, 0)];
      } else {
        var _ := tables.Update(op, Accepted, CancelledUnsent, ownership);
      }
      answer := Did(true);
    }

    method MarkUnknown(op: Op) returns (answer: Answer)
      modifies tables
      ensures (tables.View(), answer) == MoveTx(old(tables.View()), ownership, op, Running, Unknown)
    {
      if tables.owner != ownership {
        return Superseded;
      }
      var done := tables.Update(op, Running, Unknown, ownership);
      answer := Did(done);
    }

    method ResolveUnknown(op: Op) returns (answer: Answer)
      modifies tables
      ensures (tables.View(), answer) == MoveTx(old(tables.View()), ownership, op, Unknown, Failed)
    {
      if tables.owner != ownership {
        return Superseded;
      }
      var done := tables.Update(op, Unknown, Failed, ownership);
      answer := Did(done);
    }

    method UnsentAfterPromotion(op: Op) returns (answer: Answer)
      modifies tables
      ensures (tables.View(), answer) == MoveTx(old(tables.View()), ownership, op, Running, CancelledUnsent)
    {
      if tables.owner != ownership {
        return Superseded;
      }
      var done := tables.Update(op, Running, CancelledUnsent, ownership);
      answer := Did(done);
    }

    method Finish(op: Op, to: RowState, stored: bool) returns (answer: Answer)
      requires to == RowState.Completed || to == Failed
      modifies tables
      ensures (tables.View(), answer) == FinishTx(old(tables.View()), ownership, op, to, stored)
    {
      if tables.owner != ownership {
        return Superseded;
      }
      var done := tables.Update(op, Running, to, ownership);
      if done && stored {
        tables.rows := tables.rows[op := tables.rows[op].(results := tables.rows[op].results + 1)];
      }
      assert done ==> tables.rows == FinishTx(old(tables.View()), ownership, op, to, stored).0.rows;
      answer := Did(done);
    }
  }

  // -- What every transaction keeps --------------------------------------------------------

  predicate Terminal(state: RowState) {
    state == RowState.Completed || state == Failed || state == CancelledUnsent
  }

  /** Where a row can go, in any number of transactions. */
  predicate CanBecome(s: RowState, t: RowState) {
    match s
    case Accepted => true
    case Running => t != Accepted
    case Unknown => t == Unknown || t == Failed
    case _ => s == t
  }

  ghost predicate RowEvolves(r: Row, s: Row) {
    && CanBecome(r.state, s.state)
    && s.origin == r.origin
    && (Terminal(r.state) ==> s == r)
    && r.results <= s.results
  }

  ghost predicate Evolves(a: Rows, b: Rows) {
    forall op | op in a :: op in b && RowEvolves(a[op], b[op])
  }

  lemma EvolvesTransitive(a: Rows, b: Rows, c: Rows)
    requires Evolves(a, b) && Evolves(b, c)
    ensures Evolves(a, c)
  {
  }
}
