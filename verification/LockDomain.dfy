/**
 The host lock (`lock_domain.py`): processes of one kernel that create, read and lock one directory,
 every system call one step. It is what keeps two agents of one domain and kernel from being
 alive together. The lock file may be unlinked or replaced under them; the domain file is left alone.
 */
module LockDomain {
  import opened Text

  type Pid = nat
  type Inode = nat

  datatype Domain = Domain(id: nat, inode: Inode)

  /** Where a process stands in `initialise`, `read_domain` and `HostLock.acquire`. */
  datatype Pc =
    | Entering
    | SawNoLock
    | SawNeither
    | Created(inode: Inode)            // it made the lock file, and writes the domain next
    | Waiting
    | SawLock
    | HasRead(domain: Domain)
    | HasOpened(domain: Domain, fd: Inode)
    | HasChecked(domain: Domain, fd: Inode)
    | Holding(domain: Domain, fd: Inode)
    | Refused

  datatype Directory = Directory(
    lock: Option<Inode>,
    domain: Option<Domain>,
    locked: map<Inode, Pid>,   // `flock`s, by the inode they are on
    procs: map<Pid, Pc>,
    minted: set<Domain>)       // every domain document ever written

  datatype Step =
    | Enter(p: Pid)
    | LookForLock(p: Pid)
    | LookForDomain(p: Pid)
    | Create(p: Pid, inode: Inode)
    | WriteDomain(p: Pid, id: nat)
    | StopWaiting(p: Pid)
    | ReadDomain(p: Pid)
    | Open(p: Pid)
    | CheckInode(p: Pid)
    | Flock(p: Pid)
    | Die(p: Pid)
    | Unlink                    // somebody else's doing
    | Replace(inode: Inode)

  /** The inodes that open files keep from being given out again. */
  predicate KeepsOpen(pc: Pc, inode: Inode) {
    (pc.HasOpened? || pc.HasChecked? || pc.Holding?) && pc.fd == inode
  }

  predicate Unused(s: Directory, inode: Inode) {
    s.lock != Some(inode) && forall p | p in s.procs :: !KeepsOpen(s.procs[p], inode)
  }

  predicate At(s: Directory, p: Pid, pc: Pc) {
    p in s.procs && s.procs[p] == pc
  }

  predicate Can(s: Directory, e: Step) {
    match e
    case Enter(p) => p !in s.procs
    case LookForLock(p) => At(s, p, Entering)
    case LookForDomain(p) => At(s, p, SawNoLock)
    case Create(p, inode) => At(s, p, SawNeither) && Unused(s, inode)
    case WriteDomain(p, id) => p in s.procs && s.procs[p].Created? && forall d | d in s.minted :: d.id != id
    case StopWaiting(p) => At(s, p, Waiting)
    case ReadDomain(p) => At(s, p, SawLock)
    case Open(p) => p in s.procs && s.procs[p].HasRead?
    case CheckInode(p) => p in s.procs && s.procs[p].HasOpened?
    case Flock(p) => p in s.procs && s.procs[p].HasChecked?
    case Die(p) => p in s.procs
    case Unlink => true
    case Replace(inode) => Unused(s, inode)
  }

  function Goes(s: Directory, p: Pid, pc: Pc): Directory {
    s.(procs := s.procs[p := pc])
  }

  function Do(s: Directory, e: Step): Directory
    requires Can(s, e)
  {
    match e
    case Enter(p) => Goes(s, p, Entering)
    case LookForLock(p) => Goes(s, p, if s.lock.Some? then Waiting else SawNoLock)
    case LookForDomain(p) => Goes(s, p, if s.domain.Some? then Waiting else SawNeither)
    case Create(p, inode) =>
      if s.lock.Some? then Goes(s, p, Waiting) else Goes(s, p, Created(inode)).(lock := Some(inode))
    case WriteDomain(p, id) =>
      var d := Domain(id, s.procs[p].inode);
      Goes(s, p, Waiting).(domain := Some(d), minted := s.minted + {d})
    case StopWaiting(p) => Goes(s, p, if s.lock.Some? then SawLock else Refused)
    case ReadDomain(p) => Goes(s, p, if s.domain.Some? then HasRead(s.domain.value) else Refused)
    case Open(p) => Goes(s, p, if s.lock.Some? then HasOpened(s.procs[p].domain, s.lock.value) else Refused)
    case CheckInode(p) =>
      var pc := s.procs[p];
      Goes(s, p, if pc.fd == pc.domain.inode then HasChecked(pc.domain, pc.fd) else Refused)
    case Flock(p) =>
      var pc := s.procs[p];
      if pc.fd in s.locked then Goes(s, p, Refused)
      else Goes(s, p, Holding(pc.domain, pc.fd)).(locked := s.locked[pc.fd := p])
    case Die(p) => s.(procs := s.procs - {p}, locked := map i | i in s.locked && s.locked[i] != p :: s.locked[i])
    case Unlink => s.(lock := None)
    case Replace(inode) => s.(lock := Some(inode))
  }

  predicate Tampers(e: Step) {
    e == Unlink || e.Replace?
  }

  ghost predicate Possible(s: Directory, es: seq<Step>)
    decreases |es|
  {
    es == [] || (Can(s, es[0]) && Possible(Do(s, es[0]), es[1..]))
  }

  ghost function Then(s: Directory, es: seq<Step>): Directory
    requires Possible(s, es)
    decreases |es|
  {
    if es == [] then s else Then(Do(s, es[0]), es[1..])
  }

  function Empty(): Directory {
    Directory(None, None, map[], map[], {})
  }

  // -- What every step keeps -----------------------------------------------------------------

  ghost predicate LocksOk(locked: map<Inode, Pid>, procs: map<Pid, Pc>) {
    && (forall i | i in locked :: locked[i] in procs && procs[locked[i]].Holding? && procs[locked[i]].fd == i)
    && (forall p | p in procs && procs[p].Holding? ::
          procs[p].fd == procs[p].domain.inode && procs[p].fd in locked && locked[procs[p].fd] == p)
    && (forall p | p in procs && procs[p].HasChecked? :: procs[p].fd == procs[p].domain.inode)
  }

  predicate Knows(pc: Pc) {
    pc.HasRead? || pc.HasOpened? || pc.HasChecked? || pc.Holding?
  }

  /** Whatever a process has read is the one domain document there is. */
  ghost predicate OneDomain(s: Directory) {
    && (forall p | p in s.procs && Knows(s.procs[p]) :: s.domain == Some(s.procs[p].domain))
    && s.minted == if s.domain.Some? then {s.domain.value} else {}
  }

  /** Nobody is left who could still write a domain document. */
  ghost predicate Provisioned(s: Directory) {
    && s.domain.Some? && OneDomain(s) && LocksOk(s.locked, s.procs)
    && forall p | p in s.procs :: !s.procs[p].SawNeither? && !s.procs[p].Created?
  }

  /** On the way there, with nobody tampering: whoever made the lock file is alone in that. */
  ghost predicate Provisioning(s: Directory) {
    && OneDomain(s) && LocksOk(s.locked, s.procs)
    && (s.domain.Some? ==> s.lock.Some?)
    && (forall p | p in s.procs && s.procs[p].Created? :: s.lock == Some(s.procs[p].inode) && s.domain.None?)
    && (forall p, q | p in s.procs && q in s.procs && s.procs[p].Created? && s.procs[q].Created? :: p == q)
  }

  lemma FlockKeeps(s: Directory, p: Pid)
    requires LocksOk(s.locked, s.procs) && Can(s, Flock(p))
    ensures LocksOk(Do(s, Flock(p)).locked, Do(s, Flock(p)).procs)
  {
  }

  lemma DieKeeps(s: Directory, p: Pid)
    requires LocksOk(s.locked, s.procs) && p in s.procs
    ensures LocksOk(Do(s, Die(p)).locked, Do(s, Die(p)).procs)
  {
  }

  lemma LocksKept(s: Directory, e: Step)
    requires LocksOk(s.locked, s.procs) && Can(s, e)
    ensures LocksOk(Do(s, e).locked, Do(s, e).procs)
  {
    match e
    case Flock(p) => FlockKeeps(s, p);
    case Die(p) => DieKeeps(s, p);
    case _ =>
  }

  lemma ProvisionedKept(s: Directory, e: Step)
    requires Provisioned(s) && Can(s, e)
    ensures Provisioned(Do(s, e)) && Do(s, e).domain == s.domain
  {
    LocksKept(s, e);
  }

  lemma ProvisioningKept(s: Directory, e: Step)
    requires Provisioning(s) && Can(s, e) && !Tampers(e)
    ensures Provisioning(Do(s, e))
    ensures s.domain.Some? ==> Do(s, e).domain == s.domain
  {
    LocksKept(s, e);
  }

  // -- Whole runs --------------------------------------------------------------------------------

  predicate IsHolding(s: Directory, p: Pid) {
    p in s.procs && s.procs[p].Holding?
  }

  /** `still_held`: the descriptor is still the domain's lock file. */
  predicate StillHeld(s: Directory, p: Pid)
    requires IsHolding(s, p)
  {
    s.lock == Some(s.procs[p].fd) && s.procs[p].fd == s.procs[p].domain.inode
  }

  lemma OneHolder(s: Directory, p: Pid, q: Pid)
    requires OneDomain(s) && LocksOk(s.locked, s.procs) && IsHolding(s, p) && IsHolding(s, q)
    ensures p == q
  {
  }

  lemma {:induction false} ProvisioningRun(s: Directory, es: seq<Step>)
    requires Provisioning(s) && Possible(s, es) && forall e | e in es :: !Tampers(e)
    ensures Provisioning(Then(s, es)) && (s.domain.Some? ==> Then(s, es).domain == s.domain)
    decreases |es|
  {
    if es != [] {
      assert es[0] in es && forall e | e in es[1..] :: e in es;
      ProvisioningKept(s, es[0]);
      ProvisioningRun(Do(s, es[0]), es[1..]);
    }
  }

  lemma {:induction false} ProvisionedRun(s: Directory, es: seq<Step>)
    requires Provisioned(s) && Possible(s, es)
    ensures Provisioned(Then(s, es)) && Then(s, es).domain == s.domain
    decreases |es|
  {
    if es != [] {
      ProvisionedKept(s, es[0]);
      ProvisionedRun(Do(s, es[0]), es[1..]);
    }
  }

  /**
   However many first starts race, one domain document is ever written and one live process holds the
   lock, as long as nobody touches the lock file.
   */
  lemma FirstStartsRace(es: seq<Step>, p: Pid, q: Pid)
    requires Possible(Empty(), es) && forall e | e in es :: !Tampers(e)
    ensures var s := Then(Empty(), es); s.minted == if s.domain.Some? then {s.domain.value} else {}
    ensures var s := Then(Empty(), es); IsHolding(s, p) && IsHolding(s, q) ==> p == q
    ensures var s := Then(Empty(), es); IsHolding(s, p) ==> StillHeld(s, p)
  {
    ProvisioningRun(Empty(), es);
    HeldStaysHeld(Empty(), es);
    var s := Then(Empty(), es);
    if IsHolding(s, p) && IsHolding(s, q) {
      OneHolder(s, p, q);
    }
  }

  /** A descriptor is of the lock file that is there, unless somebody tampered with it. */
  ghost predicate Untouched(s: Directory) {
    forall p | p in s.procs && (s.procs[p].HasOpened? || s.procs[p].HasChecked? || s.procs[p].Holding?) ::
      s.lock == Some(s.procs[p].fd)
  }

  lemma {:induction false} HeldStaysHeld(s: Directory, es: seq<Step>)
    requires Provisioning(s) && Untouched(s) && Possible(s, es) && forall e | e in es :: !Tampers(e)
    ensures Untouched(Then(s, es))
    decreases |es|
  {
    if es != [] {
      assert es[0] in es && forall e | e in es[1..] :: e in es;
      ProvisioningKept(s, es[0]);
      HeldStaysHeld(Do(s, es[0]), es[1..]);
    }
  }

  /**
   Once provisioned, unlinking and replacing the lock file, any number of times, neither changes the
   domain nor lets a second process hold it: a replacement has another inode while the holder lives.
   */
  lemma ReplacingTheLockGainsNothing(s: Directory, es: seq<Step>, p: Pid, q: Pid)
    requires Provisioned(s) && Possible(s, es)
    ensures Then(s, es).domain == s.domain
    ensures IsHolding(Then(s, es), p) && IsHolding(Then(s, es), q) ==> p == q
  {
    ProvisionedRun(s, es);
    if IsHolding(Then(s, es), p) && IsHolding(Then(s, es), q) {
      OneHolder(Then(s, es), p, q);
    }
  }
}
