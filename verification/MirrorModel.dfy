/**
 The mirror server's session protocol as a small-step transition system.

 `N` workers (worker.cpp), the managers of the current session (mirror_manager.cpp) and the
 master (mirror_server.cpp) run over one bounded queue.  Each thread's code is a table from
 program counters to instructions.  An instruction touches at most one shared variable, but for
 the test before a worker's wait, which reads the empty and the done flag: both are written under
 the empty mutex, which the worker owns, except that the master lowers the done flag under
 another one, and then every worker is parked (`MirrorTheorems.SessionBarrier`).
 A wait releases its mutex and sleeps, and after a wakeup the mutex must be taken again.
 A signal wakes one sleeper when there is one; spurious wakeups are actions of their own.
 A transfer or a listing may never end: its thread then stays where it is for ever.
 */
module MirrorModel {
  import opened Folds
  import opened Threads

  /** A line of the work queue: `<path>:<address>:<port>:<id>`. */
  datatype Entry = Entry(line: string)

  // ---- Workers ------------------------------------------------------------------------

  /** The three statistics, each behind its own mutex. */
  datatype Stat = Bytes | Files | Spread

  /** The steps of `lock; x = x + delta; unlock`: the update is a read and a write. */
  datatype Phase = Take | Read | Write | Drop

  /** The two places a worker pops from: the main loop and the drain loop. */
  datatype Loop = Main | Drain

  /** worker.cpp:67-74, waiting until the queue is not empty or the managers are done. */
  datatype WaitPc = LockE | TestE | WaitE | SleepE | WokenE | Branch

  /** worker.cpp:76-93, popping under the empty and the queue mutex, then lowering the full flag. */
  datatype PopPc = LockRw | Pop | SetEmpty | UnlockRw | UnlockE | LockF | ClearFull | SignalF | UnlockF

  /** worker.cpp:95-120 and 135-158, one fetch with its three statistics updates. */
  datatype FetchPc = Start | Hung | Outcome | Update(stat: Stat, phase: Phase) | Close

  /** worker.cpp:124-133, draining once the managers are done. */
  datatype DrainPc = LeaveE | LockRw2 | TryPop | UnlockRw2 | TestEnd

  /** worker.cpp:165-170, reporting to the master. */
  datatype TellPc = LockQ | ReadQ | WriteQ | SignalQ | UnlockQ

  /** worker.cpp:173-178, waiting for the acknowledgement. */
  datatype AckPc = LockA | TestA | WaitA | SleepA | WokenA | UnlockA

  datatype WorkerPc =
    | Waiting(wait: WaitPc)
    | Popping(pop: PopPc)
    | Fetching(loop: Loop, fetch: FetchPc)
    | Draining(drain: DrainPc)
    | Telling(tell: TellPc)
    | Acking(ack: AckPc)

  datatype WorkerOp = PopItem | StoreEmptiness | LowerFull | DoFetch | ReadStat(k: Stat) | WriteStat(k: Stat)
                    | Finish | TryPopItem | ReadQDone | WriteQDone

  datatype WorkerTest = EmptyAndNotDone | IsDone | FetchOk | GotItem | NotAck

  function StatMutex(k: Stat): Mutex {
    match k
    case Bytes => BytesMtx
    case Files => FilesMtx
    case Spread => SpreadMtx
  }

  type WorkerInstr = Instr<WorkerPc, WorkerOp, WorkerTest>

  function WaitCode(pc: WaitPc): WorkerInstr {
    match pc
    case LockE => Lock(EMtx, Waiting(TestE))
    case TestE => If(EmptyAndNotDone, Waiting(WaitE), Waiting(Branch))
    case WaitE => Wait(EMtx, Waiting(SleepE))
    case SleepE => Sleeping
    case WokenE => Lock(EMtx, Waiting(TestE))
    case Branch => If(IsDone, Draining(LeaveE), Popping(LockRw))
  }

  function PopCode(pc: PopPc): WorkerInstr {
    match pc
    case LockRw => Lock(RwMtx, Popping(Pop))
    case Pop => Do(PopItem, Popping(SetEmpty))
    case SetEmpty => Do(StoreEmptiness, Popping(UnlockRw))
    case UnlockRw => Unlock(RwMtx, Popping(UnlockE))
    case UnlockE => Unlock(EMtx, Popping(LockF))
    case LockF => Lock(FMtx, Popping(ClearFull))
    case ClearFull => Do(LowerFull, Popping(SignalF))
    case SignalF => Signal(FCond, Popping(UnlockF))
    case UnlockF => Unlock(FMtx, Fetching(Main, Start))
  }

  function UpdateCode(l: Loop, k: Stat, phase: Phase): WorkerInstr {
    match phase
    case Take => Lock(StatMutex(k), Fetching(l, Update(k, Read)))
    case Read => Do(ReadStat(k), Fetching(l, Update(k, Write)))
    case Write => Do(WriteStat(k), Fetching(l, Update(k, Drop)))
    case Drop =>
      Unlock(StatMutex(k),
             Fetching(l, if k == Bytes then Update(Files, Take)
                         else if k == Files then Update(Spread, Take) else Close))
  }

  function FetchCode(l: Loop, pc: FetchPc): WorkerInstr {
    match pc
    case Start => Do(DoFetch, Fetching(l, Outcome))
    case Hung => Sleeping
    case Outcome => If(FetchOk, Fetching(l, Update(Bytes, Take)), Fetching(l, Close))
    case Update(k, phase) => UpdateCode(l, k, phase)
    case Close => Do(Finish, if l == Main then Waiting(LockE) else Draining(LockRw2))
  }

  function DrainCode(pc: DrainPc): WorkerInstr {
    match pc
    case LeaveE => Unlock(EMtx, Draining(LockRw2))
    case LockRw2 => Lock(RwMtx, Draining(TryPop))
    case TryPop => Do(TryPopItem, Draining(UnlockRw2))
    case UnlockRw2 => Unlock(RwMtx, Draining(TestEnd))
    case TestEnd => If(GotItem, Fetching(Drain, Start), Telling(LockQ))
  }

  function TellCode(pc: TellPc): WorkerInstr {
    match pc
    case LockQ => Lock(QDoneMtx, Telling(ReadQ))
    case ReadQ => Do(ReadQDone, Telling(WriteQ))
    case WriteQ => Do(WriteQDone, Telling(SignalQ))
    case SignalQ => Signal(QDoneCond, Telling(UnlockQ))
    case UnlockQ => Unlock(QDoneMtx, Acking(LockA))
  }

  function AckCode(pc: AckPc): WorkerInstr {
    match pc
    case LockA => Lock(AckMtx, Acking(TestA))
    case TestA => If(NotAck, Acking(WaitA), Acking(UnlockA))
    case WaitA => Wait(AckMtx, Acking(SleepA))
    case SleepA => Sleeping
    case WokenA => Lock(AckMtx, Acking(TestA))
    case UnlockA => Unlock(AckMtx, Waiting(LockE))
  }

  /** `worker::run` and `worker::_fetch` (worker.cpp:58-251). */
  function WorkerCode(pc: WorkerPc): WorkerInstr {
    match pc
    case Waiting(at) => WaitCode(at)
    case Popping(at) => PopCode(at)
    case Fetching(l, at) => FetchCode(l, at)
    case Draining(at) => DrainCode(at)
    case Telling(at) => TellCode(at)
    case Acking(at) => AckCode(at)
  }

  /**
   `item`: the entry being processed.  `got`: the bytes of the last fetch, if it succeeded.
   `tmp`: the value read by a read-modify-write.  `counted`: a history variable, true from
   this worker's increment of `_q_done` until the master resets that counter.
   */
  datatype Worker = Worker(pc: WorkerPc, item: Option<Entry>, got: Option<int>, tmp: int, counted: bool)

  // ---- Managers -----------------------------------------------------------------------

  datatype ManagerPc =
    // mirror_manager.cpp:98-129, the next file that passed the filter
    | NextFile
    // mirror_manager.cpp:132-135, waiting for room
    | FLock | FTest | FWait | FSleep | FWoken
    // mirror_manager.cpp:138-149, pushing
    | RwLock | Push | SetFull | RwUnlock
    // mirror_manager.cpp:153-161, publishing
    | ELock | ClearEmpty | SignalE | EUnlock | FUnlock
    | Exited
    // mirror_manager.cpp:91-106, waiting for the content server for ever
    | Unanswered

  datatype ManagerOp = PushItem | StoreFullness | LowerEmpty

  datatype ManagerTest = NothingLeft | IsFull

  /** `mirror_manager::run` from its first push on (mirror_manager.cpp:98-168). */
  function ManagerCode(pc: ManagerPc): Instr<ManagerPc, ManagerOp, ManagerTest> {
    match pc
    case NextFile => If(NothingLeft, Exited, FLock)
    case FLock => Lock(FMtx, FTest)
    case FTest => If(IsFull, FWait, RwLock)
    case FWait => Wait(FMtx, FSleep)
    case FSleep => Sleeping
    case FWoken => Lock(FMtx, FTest)
    case RwLock => Lock(RwMtx, Push)
    case Push => Do(PushItem, SetFull)
    case SetFull => Do(StoreFullness, RwUnlock)
    case RwUnlock => Unlock(RwMtx, ELock)
    case ELock => Lock(EMtx, ClearEmpty)
    case ClearEmpty => Do(LowerEmpty, SignalE)
    case SignalE => Signal(ECond, EUnlock)
    case EUnlock => Unlock(EMtx, FUnlock)
    case FUnlock => Unlock(FMtx, NextFile)
    case Exited => Stop
    case Unanswered => Sleeping
  }

  /** `todo`: the entries this manager has yet to push. */
  datatype Manager = Manager(pc: ManagerPc, todo: seq<Entry>)

  // ---- The master -----------------------------------------------------------------------

  /** What `_var_init` resets, in its order (mirror_server.cpp:68-112). */
  datatype Resettable = ResetFull | ResetEmpty | ResetDone | ResetQDone | ResetBytes | ResetFiles | ResetSpread

  /** mirror_server.cpp:204-220, clearing the acknowledgement and raising the done flag. */
  datatype ClosePc = AckLock | ClearAck | AckUnlock | DoneLock | SetDone | BroadcastE | DoneUnlock

  /** mirror_server.cpp:223-254, waiting for the workers and sending the statistics. */
  datatype CollectPc = QLock | QTest | QWait | QSleep | QWoken | QUnlock | Send

  /** mirror_server.cpp:68-112, each reset under its mutex. */
  datatype ResetPc = ResetTake | ResetWrite | ResetDrop

  /** mirror_server.cpp:263-268, acknowledging. */
  datatype FinishPc = AckLock2 | SetAck | BroadcastA | AckUnlock2

  datatype MasterPc =
    | Accept
    | Join(next: nat)
    | Closing(close: ClosePc)
    | Collecting(collect: CollectPc)
    | Resetting(what: Resettable, reset: ResetPc)
    | Finishing(finish: FinishPc)

  datatype MasterOp = LowerAck | RaiseDone | SendStats | ResetVar(what: Resettable) | RaiseAck

  datatype MasterTest = SomeNotDone

  function ResetMutex(r: Resettable): Mutex {
    match r
    case ResetFull => FMtx
    case ResetEmpty => EMtx
    case ResetDone => DoneMtx
    case ResetQDone => QDoneMtx
    case ResetBytes => BytesMtx
    case ResetFiles => FilesMtx
    case ResetSpread => SpreadMtx
  }

  function AfterReset(r: Resettable): MasterPc {
    match r
    case ResetFull => Resetting(ResetEmpty, ResetTake)
    case ResetEmpty => Resetting(ResetDone, ResetTake)
    case ResetDone => Resetting(ResetQDone, ResetTake)
    case ResetQDone => Resetting(ResetBytes, ResetTake)
    case ResetBytes => Resetting(ResetFiles, ResetTake)
    case ResetFiles => Resetting(ResetSpread, ResetTake)
    case ResetSpread => Finishing(AckLock2)
  }

  type MasterInstr = Instr<MasterPc, MasterOp, MasterTest>

  function CloseCode(pc: ClosePc): MasterInstr {
    match pc
    case AckLock => Lock(AckMtx, Closing(ClearAck))
    case ClearAck => Do(LowerAck, Closing(AckUnlock))
    case AckUnlock => Unlock(AckMtx, Closing(DoneLock))
    case DoneLock => Lock(EMtx, Closing(SetDone))
    case SetDone => Do(RaiseDone, Closing(BroadcastE))
    case BroadcastE => Broadcast(ECond, Closing(DoneUnlock))
    case DoneUnlock => Unlock(EMtx, Collecting(QLock))
  }

  function CollectCode(pc: CollectPc): MasterInstr {
    match pc
    case QLock => Lock(QDoneMtx, Collecting(QTest))
    case QTest => If(SomeNotDone, Collecting(QWait), Collecting(QUnlock))
    case QWait => Wait(QDoneMtx, Collecting(QSleep))
    case QSleep => Sleeping
    case QWoken => Lock(QDoneMtx, Collecting(QTest))
    case QUnlock => Unlock(QDoneMtx, Collecting(Send))
    case Send => Do(SendStats, Resetting(ResetFull, ResetTake))
  }

  function ResetCode(r: Resettable, pc: ResetPc): MasterInstr {
    match pc
    case ResetTake => Lock(ResetMutex(r), Resetting(r, ResetWrite))
    case ResetWrite => Do(ResetVar(r), Resetting(r, ResetDrop))
    case ResetDrop => Unlock(ResetMutex(r), AfterReset(r))
  }

  function FinishCode(pc: FinishPc): MasterInstr {
    match pc
    case AckLock2 => Lock(AckMtx, Finishing(SetAck))
    case SetAck => Do(RaiseAck, Finishing(BroadcastA))
    case BroadcastA => Broadcast(AckCond, Finishing(AckUnlock2))
    case AckUnlock2 => Unlock(AckMtx, Accept)
  }

  /**
   `mirror_server::run` after the join (mirror_server.cpp:203-271); `Accept` and `Join` have steps
   of their own.
   */
  function MasterCode(pc: MasterPc): MasterInstr {
    match pc
    case Accept => Stop
    case Join(_) => Stop
    case Closing(at) => CloseCode(at)
    case Collecting(at) => CollectCode(at)
    case Resetting(r, at) => ResetCode(r, at)
    case Finishing(at) => FinishCode(at)
  }

  /** The statistics line sent to the client (mirror_server.cpp:232-252). */
  datatype Report = Stats(files: int, bytes: int, avg: int, deviation: int)

  // ---- The whole program --------------------------------------------------------------

  /** The variables the threads share. */
  datatype Shared = Shared(
    q: seq<Entry>,
    empty: bool,
    full: bool,
    done: bool,
    ack: bool,
    qDone: int,
    bytes: int,
    files: int,
    spread: seq<int>
  )

  /**
   History variables.  Of the current session: the entries its managers were given, those a
   worker finished, those dropped at a full queue, and the sizes fetched, in order of
   completion.  Over all sessions: the reports sent.
   */
  datatype Log = Log(
    offered: multiset<Entry>,
    finished: multiset<Entry>,
    dropped: multiset<Entry>,
    fetched: seq<int>,
    reports: seq<Report>
  )

  datatype State = State(
    workers: seq<Worker>,
    managers: seq<Manager>,
    master: MasterPc,
    locks: map<Mutex, Tid>,
    sh: Shared,
    log: Log,
    aborted: bool
  )

  const FRESH_WORKER := Worker(Waiting(LockE), None, None, 0, false)

  /** The constructor's state (mirror_server.cpp:16-66); it refuses fewer than one worker. */
  predicate Init(s: State, n: nat)
  {
    && n >= 1
    && s == State(seq(n, _ => FRESH_WORKER), [], Accept, map[],
                  Shared([], true, false, false, false, 0, 0, 0, []),
                  Log(multiset{}, multiset{}, multiset{}, [], []), false)
  }

  // ---- What a worker's instruction does --------------------------------------------------

  /**
   What the network made of a fetch.  A malformed entry or a missing file is `Failed`.  `Got` carries
   the sum of what the receives returned: after a refused connection the code goes on to the fetch
   all the same (worker.cpp:107-114), and a receive that fails counts as -1.  With `Never` the worker
   waits for ever, as it does for an empty file (`FileTransfer.Transfer`).
   */
  datatype NetResult = Failed | Got(bytes: int) | Never

  function StatValue(sh: Shared, k: Stat): int {
    match k
    case Bytes => sh.bytes
    case Files => sh.files
    case Spread => |sh.spread|
  }

  /** For the vector, the write stores the new entry at the index read before (my_vector.cpp:58-64). */
  function StatWrite(sh: Shared, k: Stat, tmp: int, got: int): Shared {
    match k
    case Bytes => sh.(bytes := tmp + got)
    case Files => sh.(files := tmp + 1)
    case Spread => sh.(spread := (if 0 <= tmp <= |sh.spread| then sh.spread[..tmp] else sh.spread) + [got])
  }

  function Held(w: Worker): multiset<Entry> {
    if w.item.Some? then multiset{w.item.value} else multiset{}
  }

  predicate WorkerPasses(w: Worker, t: WorkerTest, sh: Shared) {
    match t
    case EmptyAndNotDone => sh.empty && !sh.done
    case IsDone => sh.done
    case FetchOk => w.got.Some?
    case GotItem => w.item.Some?
    case NotAck => !sh.ack
  }

  /** The worker's own fields after `op`. */
  function WorkerLocal(w: Worker, op: WorkerOp, sh: Shared, outcome: NetResult): Worker {
    match op
    case PopItem | TryPopItem => if sh.q == [] then w else w.(item := Some(sh.q[0]))
    case DoFetch => w.(got := if outcome.Got? then Some(outcome.bytes) else None)
    case ReadStat(k) => w.(tmp := StatValue(sh, k))
    case ReadQDone => w.(tmp := sh.qDone)
    case Finish => w.(item := None)
    case WriteQDone => w.(counted := true)
    case StoreEmptiness | LowerFull | WriteStat(_) => w
  }

  /** The shared variables after `op`. */
  function WorkerWrites(w: Worker, op: WorkerOp, sh: Shared): Shared {
    match op
    case PopItem | TryPopItem => if sh.q == [] then sh else sh.(q := sh.q[1..])
    case StoreEmptiness => sh.(empty := sh.q == [])
    case LowerFull => sh.(full := false)
    case WriteStat(k) => StatWrite(sh, k, w.tmp, if w.got.Some? then w.got.value else 0)
    case WriteQDone => sh.(qDone := w.tmp + 1)
    case DoFetch | ReadStat(_) | ReadQDone | Finish => sh
  }

  function HungAt(pc: WorkerPc): WorkerPc {
    if pc.Fetching? then Fetching(pc.loop, Hung) else pc
  }

  function WorkerNext(w: Worker, sh: Shared, outcome: NetResult): Worker {
    match WorkerCode(w.pc)
    case Lock(_, next) => w.(pc := next)
    case Unlock(_, next) => w.(pc := next)
    case Wait(_, asleep) => w.(pc := asleep)
    case If(t, yes, no) => w.(pc := if WorkerPasses(w, t, sh) then yes else no)
    case Signal(_, next) => w.(pc := next)
    case Do(op, next) =>
      WorkerLocal(w, op, sh, outcome).(pc := if op == DoFetch && outcome.Never? then HungAt(w.pc) else next)
    case Broadcast(_, _) | Sleeping | Stop => w
  }

  function WorkerShared(w: Worker, sh: Shared): Shared {
    var instr := WorkerCode(w.pc);
    if instr.Do? then WorkerWrites(w, instr.op, sh) else sh
  }

  function WorkerLog(w: Worker, log: Log, outcome: NetResult): Log {
    match WorkerCode(w.pc)
    case Do(DoFetch, _) => if outcome.Got? then log.(fetched := log.fetched + [outcome.bytes]) else log
    case Do(Finish, _) => log.(finished := log.finished + Held(w))
    case _ => log
  }

  // ---- Locks and condition variables -----------------------------------------------------------

  predicate AnyAsleepE(ws: seq<Worker>) {
    exists i :: 0 <= i < |ws| && ws[i].pc == Waiting(SleepE)
  }

  predicate AnyAsleepF(gs: seq<Manager>) {
    exists j :: 0 <= j < |gs| && gs[j].pc == FSleep
  }

  /** The managers after a signal on the full condition: `pick` wakes, if anyone sleeps. */
  function SignalManagers(gs: seq<Manager>, pick: nat): Option<seq<Manager>> {
    if pick < |gs| && gs[pick].pc == FSleep then Some(gs[pick := gs[pick].(pc := FWoken)])
    else if AnyAsleepF(gs) then None
    else Some(gs)
  }

  /** The workers after a signal on the empty condition. */
  function SignalWorkers(ws: seq<Worker>, pick: nat): Option<seq<Worker>> {
    if pick < |ws| && ws[pick].pc == Waiting(SleepE) then Some(ws[pick := ws[pick].(pc := Waiting(WokenE))])
    else if AnyAsleepE(ws) then None
    else Some(ws)
  }

  // ---- Steps -------------------------------------------------------------------------------------

  /**
   `pick` names the sleeper that a signal wakes.  A pop of the empty queue throws, and nothing
   catches it (worker.cpp:80, queue.cpp:48-50): the whole program ends.
   */
  function WorkerStep(s: State, i: nat, pick: nat, outcome: NetResult): Option<State>
    requires i < |s.workers|
  {
    var w := s.workers[i];
    var instr := WorkerCode(w.pc);
    if Blocked(s.locks, instr) then None
    else if w.pc == Popping(Pop) && s.sh.q == [] then Some(s.(aborted := true))
    else
      var ws := s.workers[i := WorkerNext(w, s.sh, outcome)];
      var managers := if w.pc == Popping(SignalF) then SignalManagers(s.managers, pick) else Some(s.managers);
      var master := if w.pc == Telling(SignalQ) && s.master == Collecting(QSleep) then Collecting(QWoken) else s.master;
      if managers.None? then None
      else Some(State(ws, managers.value, master, LocksNext(s.locks, instr, OfWorker(i)),
                      WorkerShared(w, s.sh), WorkerLog(w, s.log, outcome), false))
  }

  predicate ManagerPasses(g: Manager, t: ManagerTest, sh: Shared) {
    match t
    case NothingLeft => g.todo == []
    case IsFull => sh.full
  }

  function ManagerNext(g: Manager, sh: Shared): Manager {
    match ManagerCode(g.pc)
    case Lock(_, next) => g.(pc := next)
    case Unlock(_, next) => g.(pc := next)
    case Wait(_, asleep) => g.(pc := asleep)
    case If(t, yes, no) => g.(pc := if ManagerPasses(g, t, sh) then yes else no)
    case Signal(_, next) => g.(pc := next)
    case Do(op, next) => Manager(next, if op == PushItem && g.todo != [] then g.todo[1..] else g.todo)
    case Broadcast(_, _) | Sleeping | Stop => g
  }

  /**
   A push onto a full queue throws; the manager catches that and goes on
   (mirror_manager.cpp:140-144).
   */
  function ManagerShared(g: Manager, sh: Shared): Shared {
    match ManagerCode(g.pc)
    case Do(PushItem, _) => if g.todo == [] || |sh.q| == CAPACITY then sh else sh.(q := sh.q + [g.todo[0]])
    case Do(StoreFullness, _) => sh.(full := |sh.q| == CAPACITY)
    case Do(LowerEmpty, _) => sh.(empty := false)
    case _ => sh
  }

  function ManagerLog(g: Manager, sh: Shared, log: Log): Log {
    if g.pc == Push && g.todo != [] && |sh.q| == CAPACITY
    then log.(dropped := log.dropped + multiset{g.todo[0]})
    else log
  }

  function ManagerStep(s: State, j: nat, pick: nat): Option<State>
    requires j < |s.managers|
  {
    var g := s.managers[j];
    var instr := ManagerCode(g.pc);
    if Blocked(s.locks, instr) then None
    else
      var workers := if g.pc == SignalE then SignalWorkers(s.workers, pick) else Some(s.workers);
      if workers.None? then None
      else Some(State(workers.value, s.managers[j := ManagerNext(g, s.sh)], s.master,
                      LocksNext(s.locks, instr, OfManager(j)), ManagerShared(g, s.sh),
                      ManagerLog(g, s.sh, s.log), false))
  }

  /** Every sleeper of a broadcast wakes. */
  function WakeAll(w: Worker, cv: CondVar): Worker {
    if cv == ECond && w.pc == Waiting(SleepE) then w.(pc := Waiting(WokenE))
    else if cv == AckCond && w.pc == Acking(SleepA) then w.(pc := Acking(WokenA))
    else w
  }

  /** What a master's step does to one worker: a broadcast wakes it, the reset of `_q_done` forgets it. */
  function MasterTouch(pc: MasterPc, w: Worker): Worker {
    if pc == Closing(BroadcastE) then WakeAll(w, ECond)
    else if pc == Finishing(BroadcastA) then WakeAll(w, AckCond)
    else if pc == Resetting(ResetQDone, ResetWrite) then w.(counted := false)
    else w
  }

  function MasterWorkers(pc: MasterPc, ws: seq<Worker>): (r: seq<Worker>)
    ensures |r| == |ws|
    ensures forall i :: 0 <= i < |ws| ==> r[i] == MasterTouch(pc, ws[i])
  {
    seq(|ws|, i requires 0 <= i < |ws| => MasterTouch(pc, ws[i]))
  }

  /** C++ integer division, which truncates towards zero. */
  function Truncate(a: int, b: int): int
    requires b != 0
  {
    if a >= 0 then a / b else -((-a) / b)
  }

  /** The sum of squared distances of `xs` from `avg` (mirror_server.cpp:237-242). */
  function Deviation(xs: seq<int>, avg: int): int {
    Total(xs, (x: int) => (x - avg) * (x - avg))
  }

  /** The report the master sends (mirror_server.cpp:231-252). */
  function MakeReport(files: int, bytes: int, spread: seq<int>): Report {
    if files == 0 then Stats(0, 0, 0, 0)
    else
      var avg := Truncate(bytes, files);
      Stats(files, bytes, avg, Deviation(spread, avg))
  }

  function ResetTo(r: Resettable, sh: Shared): Shared {
    match r
    case ResetFull => sh.(full := false)
    case ResetEmpty => sh.(empty := true)
    case ResetDone => sh.(done := false)
    case ResetQDone => sh.(qDone := 0)
    case ResetBytes => sh.(bytes := 0)
    case ResetFiles => sh.(files := 0)
    case ResetSpread => sh.(spread := [])
  }

  function MasterShared(pc: MasterPc, sh: Shared): Shared {
    match MasterCode(pc)
    case Do(LowerAck, _) => sh.(ack := false)
    case Do(RaiseDone, _) => sh.(done := true)
    case Do(RaiseAck, _) => sh.(ack := true)
    case Do(ResetVar(r), _) => ResetTo(r, sh)
    case _ => sh
  }

  /** The master joins the managers one after the other (mirror_server.cpp:199-201). */
  function JoinNext(k: nat, managers: seq<Manager>): MasterPc {
    if k >= |managers| then Closing(AckLock)
    else if managers[k].pc == Exited then Join(k + 1)
    else Join(k)
  }

  /** `more`: some worker has not reported yet. */
  function MasterGo(pc: MasterPc, more: bool): MasterPc {
    match MasterCode(pc)
    case Lock(_, next) => next
    case Unlock(_, next) => next
    case Wait(_, asleep) => asleep
    case If(_, yes, no) => if more then yes else no
    case Broadcast(_, next) => next
    case Do(_, next) => next
    case Sleeping | Stop | Signal(_, _) => pc
  }

  function MasterNext(s: State): MasterPc {
    if s.master.Join? then JoinNext(s.master.next, s.managers) else MasterGo(s.master, s.sh.qDone < |s.workers|)
  }

  function MasterLog(pc: MasterPc, sh: Shared, log: Log): Log {
    if pc == Collecting(Send) then log.(reports := log.reports + [MakeReport(sh.files, sh.bytes, sh.spread)]) else log
  }

  function MasterStep(s: State): Option<State> {
    var instr := MasterCode(s.master);
    if MasterNext(s) == s.master || (Blocked(s.locks, instr) && !s.master.Join?) then None
    else Some(State(MasterWorkers(s.master, s.workers), s.managers, MasterNext(s), LocksNext(s.locks, instr, OfMaster),
                    MasterShared(s.master, s.sh), MasterLog(s.master, s.sh, s.log), false))
  }

  function Spawn(jobs: seq<seq<Entry>>): (gs: seq<Manager>)
    ensures |gs| == |jobs|
    ensures forall j :: 0 <= j < |jobs| ==> gs[j] == Manager(NextFile, jobs[j])
  {
    seq(|jobs|, j requires 0 <= j < |jobs| => Manager(NextFile, jobs[j]))
  }

  function Todo(g: Manager): multiset<Entry> {
    multiset(g.todo)
  }

  /**
   The master accepts a client and starts one manager per content server
   (mirror_server.cpp:146-196).  A manager that has not been created yet is one that has
   not taken a step.
   */
  function NewSessionStep(s: State, jobs: seq<seq<Entry>>): Option<State> {
    if s.master != Accept then None
    else
      var gs := Spawn(jobs);
      Some(s.(master := Join(0), managers := gs,
              log := Log(Pool(gs, Todo), multiset{}, multiset{}, [], s.log.reports)))
  }

  datatype Action =
    | RunWorker(w: nat, pick: nat, outcome: NetResult)
    | RunManager(m: nat, pick: nat)
    | RunMaster
    | NewSession(jobs: seq<seq<Entry>>)
    | HangManager(m: nat)
    | SpuriousWorker(w: nat)
    | SpuriousManager(m: nat)
    | SpuriousMaster

  predicate IsSpurious(a: Action) {
    a.SpuriousWorker? || a.SpuriousManager? || a.SpuriousMaster?
  }

  /** What happens to a thread from outside: a spurious wakeup, or a listing that never ends. */
  predicate FromOutside(a: Action) {
    IsSpurious(a) || a.HangManager?
  }

  /** A sleeper may wake for no reason. */
  function Spurious(pc: WorkerPc): WorkerPc {
    if pc == Waiting(SleepE) then Waiting(WokenE) else if pc == Acking(SleepA) then Acking(WokenA) else pc
  }

  function SpuriousWorkerStep(s: State, i: nat): Option<State> {
    if i < |s.workers| && Spurious(s.workers[i].pc) != s.workers[i].pc then
      Some(s.(workers := s.workers[i := s.workers[i].(pc := Spurious(s.workers[i].pc))]))
    else None
  }

  function SpuriousManagerStep(s: State, j: nat): Option<State> {
    if j < |s.managers| && s.managers[j].pc == FSleep then
      Some(s.(managers := s.managers[j := s.managers[j].(pc := FWoken)]))
    else None
  }

  /**
   The content server never sends the next name, as after a name of 1023 bytes
   (`ListProtocol.ListCompletes`).
   */
  function HangManagerStep(s: State, j: nat): Option<State> {
    if j < |s.managers| && s.managers[j].pc == NextFile then
      Some(s.(managers := s.managers[j := s.managers[j].(pc := Unanswered)]))
    else None
  }

  /** One step of the program, or `None` when the action is not possible now.  An abort is final. */
  function Step(s: State, a: Action): Option<State> {
    if s.aborted then None
    else
      match a
      case RunWorker(i, pick, outcome) => if i < |s.workers| then WorkerStep(s, i, pick, outcome) else None
      case RunManager(j, pick) => if j < |s.managers| then ManagerStep(s, j, pick) else None
      case RunMaster => MasterStep(s)
      case NewSession(jobs) => NewSessionStep(s, jobs)
      case HangManager(j) => HangManagerStep(s, j)
      case SpuriousWorker(i) => SpuriousWorkerStep(s, i)
      case SpuriousManager(j) => SpuriousManagerStep(s, j)
      case SpuriousMaster => if s.master == Collecting(QSleep) then Some(s.(master := Collecting(QWoken))) else None
  }

  /** The run that takes the actions in turn, as long as each is possible. */
  function Exec(s: State, actions: seq<Action>): Option<State> {
    if actions == [] then Some(s)
    else
      match Exec(s, actions[..|actions| - 1])
      case None => None
      case Some(t) => Step(t, actions[|actions| - 1])
  }

  /** `t` can be reached from `s`. */
  ghost predicate Reaches(s: State, t: State) {
    exists actions :: Exec(s, actions) == Some(t)
  }

  /** `s` can be reached with `n` workers, after any number of sessions. */
  ghost predicate Reachable(s: State, n: nat) {
    exists s0, actions :: Init(s0, n) && Exec(s0, actions) == Some(s)
  }
}
