/**
 The content server's hand-off as a small-step transition system: the master accepts
 connections and pushes them (content_server.cpp:86-121), the workers pop and serve them
 (content_manager.cpp:34-150).

 It differs from the mirror server's in three ways.  The producer does not hold the full mutex
 across the push, nor until it has published.  A failed pop does not end the program: the
 worker goes back to the top of its loop with the empty and the queue mutex still taken.  And a
 FETCH whose ID has no bucket makes the hash table throw inside its critical section: the worker
 goes back to its loop with the hash table's mutex still taken.
 */
module ContentModel {
  import opened Threads

  // ---- Workers ------------------------------------------------------------------------

  datatype WorkerPc =
    // content_manager.cpp:38-46, waiting until the queue is not empty
    | LockE | TestE | WaitE | SleepE | WokenE
    // content_manager.cpp:49-65, popping
    | LockQ | Pop | SetEmpty | UnlockQ | UnlockE
    // content_manager.cpp:68-74, lowering the full flag
    | LockF | ClearFull | SignalF | UnlockF
    // content_manager.cpp:77-84, receiving the request
    | Receive
    // content_manager.cpp:101-105 and 127-132, the hash table
    | LockH | Access | UnlockH
    // content_manager.cpp:107-108 and 134-147, the answer: a list, or a delay and a file
    | Transfer
    // waiting for the other side for ever
    | Hung
    // content_manager.cpp:52-56 and 38: back at the first lock, which this worker owns itself
    | Relock

  datatype WorkerOp = PopItem | StoreEmptiness | LowerFull | ReceiveRequest | DoTransfer

  datatype WorkerTest = IsEmpty | NoBucket

  /** `content_manager::run`. */
  function WorkerCode(pc: WorkerPc): Instr<WorkerPc, WorkerOp, WorkerTest> {
    match pc
    case LockE => Lock(EMtx, TestE)
    case TestE => If(IsEmpty, WaitE, LockQ)
    case WaitE => Wait(EMtx, SleepE)
    case SleepE => Sleeping
    case WokenE => Lock(EMtx, TestE)
    case LockQ => Lock(RwMtx, Pop)
    case Pop => Do(PopItem, SetEmpty)
    case SetEmpty => Do(StoreEmptiness, UnlockQ)
    case UnlockQ => Unlock(RwMtx, UnlockE)
    case UnlockE => Unlock(EMtx, LockF)
    case LockF => Lock(FMtx, ClearFull)
    case ClearFull => Do(LowerFull, SignalF)
    case SignalF => Signal(FCond, UnlockF)
    case UnlockF => Unlock(FMtx, Receive)
    case Receive => Do(ReceiveRequest, LockH)
    case LockH => Lock(HMtx, Access)
    // content_manager.cpp:149-150: the exception skips the unlock
    case Access => If(NoBucket, LockE, UnlockH)
    case UnlockH => Unlock(HMtx, Transfer)
    case Transfer => Do(DoTransfer, LockE)
    case Hung => Sleeping
    case Relock => Lock(EMtx, TestE)
  }

  /** `fd`: the connection popped last.  `bad`: its request is a FETCH whose ID has no bucket. */
  datatype Worker = Worker(pc: WorkerPc, fd: Option<int>, bad: bool)

  /**
   What the other side does at a receive or a transfer: it keeps silent for ever; it sends a
   request that needs no hash table, or lets the transfer end; it sends a well-formed LIST or FETCH.
   */
  datatype Event = Silence | Other | Hashed(bad: bool)

  // ---- The master -----------------------------------------------------------------------

  datatype MasterPc =
    | Accept
    // content_server.cpp:96-102, waiting for room
    | FLock | FTest | FWait | FSleep | FWoken | FUnlock
    // content_server.cpp:104-111, pushing
    | QLock | Push | SetFull | QUnlock
    // content_server.cpp:116-121, publishing
    | ELock | ClearEmpty | SignalE | EUnlock

  datatype MasterOp = PushItem | StoreFullness | LowerEmpty

  datatype MasterTest = IsFull

  /** `content_server::run` after an accept. */
  function MasterCode(pc: MasterPc): Instr<MasterPc, MasterOp, MasterTest> {
    match pc
    case Accept => Stop
    case FLock => Lock(FMtx, FTest)
    case FTest => If(IsFull, FWait, FUnlock)
    case FWait => Wait(FMtx, FSleep)
    case FSleep => Sleeping
    case FWoken => Lock(FMtx, FTest)
    case FUnlock => Unlock(FMtx, QLock)
    case QLock => Lock(RwMtx, Push)
    case Push => Do(PushItem, SetFull)
    case SetFull => Do(StoreFullness, QUnlock)
    case QUnlock => Unlock(RwMtx, ELock)
    case ELock => Lock(EMtx, ClearEmpty)
    case ClearEmpty => Do(LowerEmpty, SignalE)
    case SignalE => Signal(ECond, EUnlock)
    case EUnlock => Unlock(EMtx, Accept)
  }

  /** The accepted connection is not in the queue yet. */
  predicate InHand(pc: MasterPc) {
    pc in {FLock, FTest, FWait, FSleep, FWoken, FUnlock, QLock, Push}
  }

  /** Between a push and lowering the empty flag. */
  predicate Unpublished(pc: MasterPc) {
    pc in {SetFull, QUnlock, ELock, ClearEmpty}
  }

  // ---- The whole program --------------------------------------------------------------

  datatype Shared = Shared(q: seq<int>, empty: bool, full: bool)

  /** A connection that a worker popped. */
  datatype Handed = Handed(worker: nat, fd: int)

  /**
   History variables: the connections accepted, those handed to a worker, both in order;
   whether a connection was ever popped before its push was published; whether a FETCH came
   whose ID has no bucket, and which worker has gone back with the hash table's mutex taken.
   */
  datatype Log = Log(accepted: seq<int>, handed: seq<Handed>, early: bool, badId: bool, loser: Option<nat>)

  /** `fd`: the master's accepted connection. */
  datatype State = State(
    workers: seq<Worker>,
    master: MasterPc,
    fd: int,
    locks: map<Mutex, Tid>,
    sh: Shared,
    log: Log,
    aborted: bool
  )

  const FRESH_WORKER := Worker(LockE, None, false)

  const NO_LOG := Log([], [], false, false, None)

  /** The constructor's state, with `n` workers just created (content_server.cpp:31-32, 73-84). */
  function Start(n: nat): State {
    State(seq(n, _ => FRESH_WORKER), Accept, 0, map[], Shared([], true, false), NO_LOG, false)
  }

  // ---- What one instruction does ----------------------------------------------------------

  function WorkerNext(w: Worker, sh: Shared, event: Event): Worker {
    match WorkerCode(w.pc)
    case Lock(_, next) => w.(pc := next)
    case Unlock(_, next) => w.(pc := next)
    case Wait(_, asleep) => w.(pc := asleep)
    case If(test, yes, no) => w.(pc := if (if test == IsEmpty then sh.empty else w.bad) then yes else no)
    case Signal(_, next) => w.(pc := next)
    case Do(PopItem, next) => if sh.q == [] then w.(pc := Relock) else w.(pc := next, fd := Some(sh.q[0]))
    case Do(ReceiveRequest, next) => (
      match event
      case Silence => w.(pc := Hung)
      case Other => w.(pc := LockE)
      case Hashed(bad) => w.(pc := next, bad := bad))
    case Do(DoTransfer, next) => w.(pc := if event == Silence then Hung else next)
    case Do(_, next) => w.(pc := next)
    case Broadcast(_, _) | Sleeping | Stop => w
  }

  function WorkerShared(pc: WorkerPc, sh: Shared): Shared {
    match WorkerCode(pc)
    case Do(PopItem, _) => if sh.q == [] then sh else sh.(q := sh.q[1..])
    case Do(StoreEmptiness, _) => sh.(empty := sh.q == [])
    case Do(LowerFull, _) => sh.(full := false)
    case _ => sh
  }

  function WorkerLog(w: Worker, i: nat, master: MasterPc, sh: Shared, log: Log, event: Event): Log {
    if w.pc == Pop && sh.q != []
    then log.(handed := log.handed + [Handed(i, sh.q[0])], early := log.early || (|sh.q| == 1 && Unpublished(master)))
    else if w.pc == Receive && event == Hashed(true) then log.(badId := true)
    else if w.pc == Access && w.bad then log.(loser := Some(i))
    else log
  }

  function WorkerStep(s: State, i: nat, event: Event): Option<State>
    requires i < |s.workers|
  {
    var w := s.workers[i];
    var instr := WorkerCode(w.pc);
    if Blocked(s.locks, instr) then None
    else
      Some(State(s.workers[i := WorkerNext(w, s.sh, event)],
                 if w.pc == SignalF && s.master == FSleep then FWoken else s.master, s.fd,
                 LocksNext(s.locks, instr, OfWorker(i)), WorkerShared(w.pc, s.sh),
                 WorkerLog(w, i, s.master, s.sh, s.log, event), false))
  }

  predicate AnyAsleep(ws: seq<Worker>) {
    exists i :: 0 <= i < |ws| && ws[i].pc == SleepE
  }

  /** The workers after a signal on the empty condition: `pick` wakes, if anyone sleeps. */
  function SignalWorkers(ws: seq<Worker>, pick: nat): Option<seq<Worker>> {
    if pick < |ws| && ws[pick].pc == SleepE then Some(ws[pick := ws[pick].(pc := WokenE)])
    else if AnyAsleep(ws) then None
    else Some(ws)
  }

  function MasterNext(pc: MasterPc, sh: Shared): MasterPc {
    match MasterCode(pc)
    case Lock(_, next) => next
    case Unlock(_, next) => next
    case Wait(_, asleep) => asleep
    case If(_, yes, no) => if sh.full then yes else no
    case Signal(_, next) => next
    case Do(_, next) => next
    case Broadcast(_, _) | Sleeping | Stop => pc
  }

  function MasterShared(pc: MasterPc, fd: int, sh: Shared): Shared {
    match MasterCode(pc)
    case Do(PushItem, _) => sh.(q := sh.q + [fd])
    case Do(StoreFullness, _) => sh.(full := |sh.q| == CAPACITY)
    case Do(LowerEmpty, _) => sh.(empty := false)
    case _ => sh
  }

  /**
   A push onto a full queue throws and nothing catches it (content_server.cpp:106, queue.cpp:32):
   the program ends.
   */
  function MasterStep(s: State, pick: nat): Option<State> {
    var instr := MasterCode(s.master);
    if Blocked(s.locks, instr) then None
    else if s.master == Push && |s.sh.q| == CAPACITY then Some(s.(aborted := true))
    else
      var ws := if s.master == SignalE then SignalWorkers(s.workers, pick) else Some(s.workers);
      if ws.None? then None
      else Some(State(ws.value, MasterNext(s.master, s.sh), s.fd, LocksNext(s.locks, instr, OfMaster),
                      MasterShared(s.master, s.fd, s.sh), s.log, false))
  }

  datatype Action =
    | RunWorker(w: nat, event: Event)
    | RunMaster(pick: nat)
    | NewClient(fd: int)
    | SpuriousWorker(w: nat)
    | SpuriousMaster

  /** The threads' own steps: neither a new client nor a wakeup for no reason. */
  predicate Inside(a: Action) {
    a.RunWorker? || a.RunMaster?
  }

  function Step(s: State, a: Action): Option<State> {
    if s.aborted then None
    else
      match a
      case RunWorker(i, event) => if i < |s.workers| then WorkerStep(s, i, event) else None
      case RunMaster(pick) => MasterStep(s, pick)
      case NewClient(fd) =>
        if s.master == Accept
        then Some(s.(master := FLock, fd := fd, log := s.log.(accepted := s.log.accepted + [fd])))
        else None
      case SpuriousWorker(i) =>
        if i < |s.workers| && s.workers[i].pc == SleepE
        then Some(s.(workers := s.workers[i := s.workers[i].(pc := WokenE)]))
        else None
      case SpuriousMaster => if s.master == FSleep then Some(s.(master := FWoken)) else None
  }

  /** The run that takes the actions in turn, as long as each is possible. */
  function Exec(s: State, actions: seq<Action>): Option<State> {
    if actions == [] then Some(s)
    else
      match Exec(s, actions[..|actions| - 1])
      case None => None
      case Some(t) => Step(t, actions[|actions| - 1])
  }

  /** `t` can be reached from `s`. */
  ghost predicate Reaches(s: State, t: State) {
    exists actions :: Exec(s, actions) == Some(t)
  }

  ghost predicate Reachable(s: State, n: nat) {
    Reaches(Start(n), s)
  }
}
