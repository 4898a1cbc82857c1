/**
 Mutual exclusion in the mirror server: on every run the lock table says exactly which thread
 is between taking a mutex and releasing it.
 */
module MirrorLocks {
  import opened MirrorModel
  import opened Threads

  /** The mutexes a worker at `pc` has taken and not yet released. */
  function WorkerOwns(pc: WorkerPc): set<Mutex> {
    match pc
    case Waiting(at) => if at in {TestE, WaitE, Branch} then {EMtx} else {}
    case Popping(at) => (
      match at
      case LockRw | UnlockE => {EMtx}
      case Pop | SetEmpty | UnlockRw => {EMtx, RwMtx}
      case LockF => {}
      case ClearFull | SignalF | UnlockF => {FMtx})
    case Fetching(_, at) => if at.Update? && at.phase != Take then {StatMutex(at.stat)} else {}
    case Draining(at) => if at == LeaveE then {EMtx} else if at == TryPop || at == UnlockRw2 then {RwMtx} else {}
    case Telling(at) => if at == LockQ then {} else {QDoneMtx}
    case Acking(at) => if at == TestA || at == WaitA || at == UnlockA then {AckMtx} else {}
  }

  /** The mutexes a manager at `pc` has taken and not yet released. */
  function ManagerOwns(pc: ManagerPc): set<Mutex> {
    match pc
    case FTest | FWait | RwLock | ELock | FUnlock => {FMtx}
    case Push | SetFull | RwUnlock => {FMtx, RwMtx}
    case ClearEmpty | SignalE | EUnlock => {FMtx, EMtx}
    case _ => {}
  }

  /** The mutexes the master at `pc` has taken and not yet released. */
  function MasterOwns(pc: MasterPc): set<Mutex> {
    match pc
    case Accept | Join(_) => {}
    case Closing(at) => (
      match at
      case AckLock | DoneLock => {}
      case ClearAck | AckUnlock => {AckMtx}
      case SetDone | BroadcastE | DoneUnlock => {EMtx})
    case Collecting(at) => if at == QTest || at == QWait || at == QUnlock then {QDoneMtx} else {}
    case Resetting(r, at) => if at == ResetTake then {} else {ResetMutex(r)}
    case Finishing(at) => if at == AckLock2 then {} else {AckMtx}
  }

  function Owns(s: State, t: Tid): set<Mutex> {
    match t
    case OfWorker(i) => if i < |s.workers| then WorkerOwns(s.workers[i].pc) else {}
    case OfManager(j) => if j < |s.managers| then ManagerOwns(s.managers[j].pc) else {}
    case OfMaster => MasterOwns(s.master)
  }

  /**
   The lock table is exact: `m` belongs to `t` if and only if `t` is in one of `m`'s critical
   sections.
   */
  ghost predicate LocksExact(s: State) {
    && (forall m | m in s.locks :: m in Owns(s, s.locks[m]))
    && (forall t, m {:trigger m in Owns(s, t)} | m in Owns(s, t) :: m in s.locks && s.locks[m] == t)
  }

  // ---- The code's own discipline ------------------------------------------------------------

  /**
   An instruction changes what its thread owns as it changes the lock table: a lock adds its
   mutex, which was not there; an unlock or a wait drops its mutex, which was; the rest keep.
   */
  predicate WorkerDiscipline(pc: WorkerPc) {
    var own := WorkerOwns(pc);
    match WorkerCode(pc)
    case Lock(m, next) => m !in own && WorkerOwns(next) == own + {m}
    case Unlock(m, next) => m in own && WorkerOwns(next) == own - {m}
    case Wait(m, next) => m in own && WorkerOwns(next) == own - {m}
    case If(_, yes, no) => WorkerOwns(yes) == own && WorkerOwns(no) == own
    case Signal(_, next) => WorkerOwns(next) == own
    case Do(_, next) => WorkerOwns(next) == own
    case Broadcast(_, _) | Sleeping | Stop => own == {}
  }

  predicate ManagerDiscipline(pc: ManagerPc) {
    var own := ManagerOwns(pc);
    match ManagerCode(pc)
    case Lock(m, next) => m !in own && ManagerOwns(next) == own + {m}
    case Unlock(m, next) => m in own && ManagerOwns(next) == own - {m}
    case Wait(m, next) => m in own && ManagerOwns(next) == own - {m}
    case If(_, yes, no) => ManagerOwns(yes) == own && ManagerOwns(no) == own
    case Signal(_, next) => ManagerOwns(next) == own
    case Do(_, next) => ManagerOwns(next) == own
    case Broadcast(_, _) | Sleeping | Stop => own == {}
  }

  predicate MasterDiscipline(pc: MasterPc) {
    var own := MasterOwns(pc);
    match MasterCode(pc)
    case Lock(m, next) => m !in own && MasterOwns(next) == own + {m}
    case Unlock(m, next) => m in own && MasterOwns(next) == own - {m}
    case Wait(m, next) => m in own && MasterOwns(next) == own - {m}
    case If(_, yes, no) => MasterOwns(yes) == own && MasterOwns(no) == own
    case Signal(_, next) => MasterOwns(next) == own
    case Broadcast(_, next) => MasterOwns(next) == own
    case Do(_, next) => MasterOwns(next) == own
    case Sleeping | Stop => own == {}
  }

  lemma WorkerDisciplined(pc: WorkerPc)
    ensures WorkerDiscipline(pc)
  {
  }

  lemma ManagerDisciplined(pc: ManagerPc)
    ensures ManagerDiscipline(pc)
  {
  }

  lemma MasterDisciplined(pc: MasterPc)
    ensures MasterDiscipline(pc)
  {
  }

  // ---- Steps keep the table exact -------------------------------------------------------------

  /**
   `t` alone may change what it owns: by nothing, by taking a free mutex, or by dropping one of its
   own.
   */
  ghost predicate Follows(s: State, s': State, t: Tid) {
    && (forall u :: u != t ==> Owns(s', u) == Owns(s, u))
    && (|| (s'.locks == s.locks && Owns(s', t) == Owns(s, t))
        || (exists m :: m !in s.locks && s'.locks == s.locks[m := t] && Owns(s', t) == Owns(s, t) + {m})
        || (exists m :: m in Owns(s, t) && s'.locks == s.locks - {m} && Owns(s', t) == Owns(s, t) - {m}))
  }

  lemma TakingKeepsExact(s: State, s': State, t: Tid, m: Mutex)
    requires LocksExact(s) && forall u :: u != t ==> Owns(s', u) == Owns(s, u)
    requires m !in s.locks && s'.locks == s.locks[m := t] && Owns(s', t) == Owns(s, t) + {m}
    ensures LocksExact(s')
  {
  }

  lemma DroppingKeepsExact(s: State, s': State, t: Tid, m: Mutex)
    requires LocksExact(s) && forall u :: u != t ==> Owns(s', u) == Owns(s, u)
    requires m in Owns(s, t) && s'.locks == s.locks - {m} && Owns(s', t) == Owns(s, t) - {m}
    ensures LocksExact(s')
  {
    hide Owns;
  }

  lemma FollowingKeepsExact(s: State, s': State, t: Tid)
    requires LocksExact(s) && Follows(s, s', t)
    ensures LocksExact(s')
  {
    if s'.locks == s.locks && Owns(s', t) == Owns(s, t) {
    } else if m :| m !in s.locks && s'.locks == s.locks[m := t] && Owns(s', t) == Owns(s, t) + {m} {
      TakingKeepsExact(s, s', t, m);
    } else {
      var m :| m in Owns(s, t) && s'.locks == s.locks - {m} && Owns(s', t) == Owns(s, t) - {m};
      DroppingKeepsExact(s, s', t, m);
    }
  }

  lemma WorkerFollows(s: State, i: nat, pick: nat, outcome: NetResult, s': State)
    requires i < |s.workers| && WorkerStep(s, i, pick, outcome) == Some(s')
    ensures Follows(s, s', OfWorker(i))
  {
    WorkerDisciplined(s.workers[i].pc);
    hide WorkerShared, WorkerLog;
  }

  lemma ManagerFollows(s: State, j: nat, pick: nat, s': State)
    requires j < |s.managers| && ManagerStep(s, j, pick) == Some(s')
    ensures Follows(s, s', OfManager(j))
  {
    ManagerDisciplined(s.managers[j].pc);
    hide ManagerShared, ManagerLog;
  }

  lemma MasterFollows(s: State, s': State)
    requires MasterStep(s) == Some(s')
    ensures Follows(s, s', OfMaster)
  {
    MasterDisciplined(s.master);
    hide MasterShared, MasterLog;
  }

  /** A new session and a spurious wakeup change no thread's mutexes. */
  lemma OthersOwnTheSame(s: State, a: Action, s': State)
    requires Step(s, a) == Some(s') && !a.RunWorker? && !a.RunManager? && !a.RunMaster?
    requires s.master == Accept ==> forall j :: 0 <= j < |s.managers| ==> s.managers[j].pc == Exited
    ensures s'.locks == s.locks && forall t :: Owns(s', t) == Owns(s, t)
  {
  }

  /**
   Every step keeps the lock table exact, provided no manager of the last session is left at an
   accept.
   */
  lemma StepKeepsLocks(s: State, a: Action, s': State)
    requires LocksExact(s) && Step(s, a) == Some(s')
    requires s.master == Accept ==> forall j :: 0 <= j < |s.managers| ==> s.managers[j].pc == Exited
    ensures LocksExact(s')
  {
    hide WorkerStep, ManagerStep, MasterStep, Owns, Follows;
    match a
    case RunWorker(i, pick, outcome) =>
      WorkerFollows(s, i, pick, outcome, s');
      FollowingKeepsExact(s, s', OfWorker(i));
    case RunManager(j, pick) =>
      ManagerFollows(s, j, pick, s');
      FollowingKeepsExact(s, s', OfManager(j));
    case RunMaster =>
      MasterFollows(s, s');
      FollowingKeepsExact(s, s', OfMaster);
    case _ => OthersOwnTheSame(s, a, s');
  }

  /** No two threads are ever in critical sections of the same mutex. */
  lemma MutualExclusion(s: State, t: Tid, u: Tid, m: Mutex)
    requires LocksExact(s) && m in Owns(s, t) && m in Owns(s, u)
    ensures t == u
  {
    hide Owns;
  }
}
