/**
 Deadlock in the mirror server: mutexes are always taken in one order, so a mutex never blocks
 the program, and the sleepers' promises leave exactly one way to stop: a worker that was
 still waiting for the last acknowledgement when the master cleared it
 (mirror_server.cpp:203-229 against worker.cpp:172-178).
 */
module MirrorDeadlock {
  import opened Folds
  import opened MirrorModel
  import opened Threads
  import opened MirrorLocks
  import opened MirrorBarrier
  import opened MirrorFlags
  import opened MirrorProgress

  // ---- The order of the mutexes -----------------------------------------------------------------

  /** The full mutex before the empty mutex before the queue mutex; the others are taken alone. */
  function Rank(m: Mutex): nat {
    match m
    case FMtx => 0
    case EMtx => 1
    case RwMtx => 2
    case _ => 3
  }

  predicate Ordered(owned: set<Mutex>, instr: Instr) {
    && (instr.Lock? ==> forall m :: m in owned ==> Rank(m) < Rank(instr.mutex))
    && (instr.Sleeping? || instr.Stop? ==> owned == {})
  }

  /** Every thread takes its mutexes in this order, and sleeps or stops without one. */
  lemma LockOrder(w: WorkerPc, g: ManagerPc, p: MasterPc)
    ensures Ordered(WorkerOwns(w), WorkerCode(w))
    ensures Ordered(ManagerOwns(g), ManagerCode(g))
    ensures Ordered(MasterOwns(p), MasterCode(p))
  {
    WorkerOrder(w);
    ManagerOrder(g);
    MasterOrder(p);
  }

  lemma WorkerOrder(w: WorkerPc)
    ensures Ordered(WorkerOwns(w), WorkerCode(w))
  {
  }

  lemma ManagerOrder(g: ManagerPc)
    ensures Ordered(ManagerOwns(g), ManagerCode(g))
  {
  }

  lemma MasterOrder(p: MasterPc)
    ensures Ordered(MasterOwns(p), MasterCode(p))
  {
  }

  // ---- Who can move -------------------------------------------------------------------------------

  /** Some thread has a step of its own: neither a spurious wakeup nor a new client is needed. */
  ghost predicate CanMove(s: State) {
    exists a :: !IsSpurious(a) && !a.NewSession? && Step(s, a).Some?
  }

  function CodeBlocked(s: State, t: Tid): bool {
    match t
    case OfWorker(i) => i >= |s.workers| || Blocked(s.locks, WorkerCode(s.workers[i].pc))
    case OfManager(j) => j >= |s.managers| || Blocked(s.locks, ManagerCode(s.managers[j].pc))
    case OfMaster => Blocked(s.locks, MasterCode(s.master))
  }

  lemma WorkerCanMove(s: State, i: nat)
    requires !s.aborted && i < |s.workers| && !Blocked(s.locks, WorkerCode(s.workers[i].pc))
    ensures CanMove(s)
  {
    hide WorkerNext, WorkerShared, WorkerLog, LocksNext, Blocked;
    if AnyAsleepF(s.managers) {
      var j :| 0 <= j < |s.managers| && s.managers[j].pc == FSleep;
      assert Step(s, RunWorker(i, j, Failed)).Some?;
    } else {
      assert Step(s, RunWorker(i, |s.managers|, Failed)).Some?;
    }
  }

  lemma ManagerCanMove(s: State, j: nat)
    requires !s.aborted && j < |s.managers| && !Blocked(s.locks, ManagerCode(s.managers[j].pc))
    ensures CanMove(s)
  {
    hide ManagerNext, ManagerShared, ManagerLog, LocksNext, Blocked;
    if AnyAsleepE(s.workers) {
      var i :| 0 <= i < |s.workers| && s.workers[i].pc == Waiting(SleepE);
      assert Step(s, RunManager(j, i)).Some?;
    } else {
      assert Step(s, RunManager(j, |s.workers|)).Some?;
    }
  }

  lemma MasterGoesOn(pc: MasterPc, more: bool)
    requires !MasterCode(pc).Sleeping? && !MasterCode(pc).Stop?
    ensures MasterGo(pc, more) != pc
  {
  }

  lemma MasterCanMove(s: State)
    requires !s.aborted && !Blocked(s.locks, MasterCode(s.master))
    ensures CanMove(s)
  {
    MasterGoesOn(s.master, s.sh.qDone < |s.workers|);
    hide MasterGo, MasterShared, MasterWorkers, MasterLog, LocksNext, MasterCode;
    assert Step(s, RunMaster).Some?;
  }

  lemma ThreadCanMove(s: State, t: Tid)
    requires !s.aborted && !CodeBlocked(s, t)
    ensures CanMove(s)
  {
    match t
    case OfWorker(i) => WorkerCanMove(s, i);
    case OfManager(j) => ManagerCanMove(s, j);
    case OfMaster => MasterCanMove(s);
  }

  /** The owner of a mutex of the highest rank in use is never blocked. */
  lemma OwnerCanMove(s: State, m: Mutex)
    requires LocksExact(s) && !s.aborted && m in s.locks
    requires forall x :: x in s.locks ==> Rank(x) <= Rank(m)
    ensures CanMove(s)
  {
    var t := s.locks[m];
    assert m in Owns(s, t);
    if t.OfWorker? {
      WorkerOrder(s.workers[t.w].pc);
    } else if t.OfManager? {
      ManagerOrder(s.managers[t.m].pc);
    } else {
      MasterOrder(s.master);
    }
    ThreadCanMove(s, t);
  }

  /** A mutex of the highest rank in use. */
  lemma HighestRank(ms: set<Mutex>) returns (m: Mutex)
    requires ms != {}
    ensures m in ms && forall x :: x in ms ==> Rank(x) <= Rank(m)
  {
    m :| m in ms;
    if x :| x in ms && Rank(x) > Rank(m) {
      var rest := set y | y in ms && Rank(y) > Rank(m);
      assert x in rest && m !in rest;
      assert rest < ms;
      m := HighestRank(rest);
    }
  }

  /** While some mutex is taken, some thread can move. */
  lemma LocksNeverBlockAll(s: State)
    requires LocksExact(s) && !s.aborted && s.locks != map[]
    ensures CanMove(s)
  {
    assert s.locks.Keys != {};
    var m := HighestRank(s.locks.Keys);
    OwnerCanMove(s, m);
  }

  // ---- The one way to stop ------------------------------------------------------------------------

  /** This worker waits for a transfer that never ends. */
  predicate IsHung(pc: WorkerPc) {
    pc.Fetching? && pc.fetch == Hung
  }

  predicate AnyHung(ws: seq<Worker>) {
    exists i :: 0 <= i < |ws| && IsHung(ws[i].pc)
  }

  predicate AnyUnanswered(gs: seq<Manager>) {
    exists j :: 0 <= j < |gs| && gs[j].pc == Unanswered
  }

  /**
   No thread has a step: each sleeps, waits for another side for ever, or has ended, and no mutex
   is taken.
   */
  predicate Quiescent(s: State) {
    && s.locks == map[]
    && (forall i :: 0 <= i < |s.workers| ==>
          s.workers[i].pc == Waiting(SleepE) || s.workers[i].pc == Acking(SleepA) || IsHung(s.workers[i].pc))
    && (forall j :: 0 <= j < |s.managers| ==>
          s.managers[j].pc == FSleep || s.managers[j].pc == Exited || s.managers[j].pc == Unanswered)
    && (|| s.master == Collecting(QSleep) || s.master == Accept
        || (s.master.Join? && s.master.next < |s.managers| && s.managers[s.master.next].pc != Exited))
  }

  lemma StuckIsQuiescent(s: State)
    requires LocksExact(s) && !s.aborted && !CanMove(s)
    ensures Quiescent(s)
  {
    if s.locks != map[] {
      LocksNeverBlockAll(s);
    }
    forall i | 0 <= i < |s.workers|
      ensures s.workers[i].pc == Waiting(SleepE) || s.workers[i].pc == Acking(SleepA) || IsHung(s.workers[i].pc)
    {
      if !CodeBlocked(s, OfWorker(i)) { ThreadCanMove(s, OfWorker(i)); }
      OnlySleepersBlocked(s.workers[i].pc);
    }
    forall j | 0 <= j < |s.managers|
      ensures s.managers[j].pc == FSleep || s.managers[j].pc == Exited || s.managers[j].pc == Unanswered
    {
      if !CodeBlocked(s, OfManager(j)) { ThreadCanMove(s, OfManager(j)); }
    }
    if !CodeBlocked(s, OfMaster) { ThreadCanMove(s, OfMaster); }
    if s.master.Join? { JoinCanMove(s); }
  }

  lemma JoinCanMove(s: State)
    requires !s.aborted && s.master.Join?
    ensures s.master.next >= |s.managers| || s.managers[s.master.next].pc == Exited ==> CanMove(s)
  {
    if s.master.next >= |s.managers| || s.managers[s.master.next].pc == Exited {
      assert Step(s, RunMaster).Some?;
    }
  }

  lemma QuiescentIsStuck(s: State)
    requires Quiescent(s)
    ensures !CanMove(s)
  {
    forall a | !IsSpurious(a) && !a.NewSession? ensures Step(s, a).None? {
      match a
      case RunWorker(i, pick, outcome) => assert i < |s.workers| ==> Blocked(s.locks, WorkerCode(s.workers[i].pc));
      case RunManager(j, pick) => assert j < |s.managers| ==> Blocked(s.locks, ManagerCode(s.managers[j].pc));
      case RunMaster => assert !s.master.Join? ==>
        MasterGo(s.master, true) == s.master && MasterGo(s.master, false) == s.master;
      case _ =>
    }
  }

  lemma OnlySleepersBlocked(pc: WorkerPc)
    ensures WorkerCode(pc).Sleeping? || WorkerCode(pc).Stop? ==>
      pc == Waiting(SleepE) || pc == Acking(SleepA) || IsHung(pc)
  {
  }

  /** While the master joins the managers, nobody sleeps for an acknowledgement. */
  lemma NoneAckingInJoin(s: State, i: nat)
    requires ProgressInv(s) && s.master.Join? && i < |s.workers|
    ensures s.workers[i].pc != Acking(SleepA)
  {
    assert WorkerOk(s.workers[i], s.master, s.sh);
  }

  /** While the master joins the managers, somebody can move, unless somebody hangs. */
  lemma JoinNeverBlocks(s: State)
    requires ProgressInv(s) && !s.aborted && s.master.Join? && !AnyHung(s.workers) && !AnyUnanswered(s.managers)
    ensures CanMove(s)
  {
    assert LocksExact(s) && MasterOk(s.master, s.sh);
    var k := s.master.next;
    if s.locks != map[] {
      LocksNeverBlockAll(s);
    } else if k >= |s.managers| || s.managers[k].pc == Exited {
      JoinCanMove(s);
    } else if s.managers[k].pc != FSleep {
      ThreadCanMove(s, OfManager(k));
    } else {
      SleeperHasAnswer(s, k);
    }
  }

  lemma SleeperHasAnswer(s: State, k: nat)
    requires ProgressInv(s) && !s.aborted && s.master.Join? && s.locks == map[] && !AnyHung(s.workers)
    requires k < |s.managers| && s.managers[k].pc == FSleep
    ensures CanMove(s)
  {
    WhyAsleep(s, k);
    hide ProgressInv;
    if AnySignalling(s.workers) {
      var i :| 0 <= i < |s.workers| && Signalling(s.workers[i].pc);
      SignallerMoves(s, i);
    } else if AnyReady(s.managers) {
      var j :| 0 <= j < |s.managers| && Ready(s.managers[j].pc);
      PusherMoves(s, j);
    } else if AnyPublishing(s.managers) {
      var j :| 0 <= j < |s.managers| && Publishing(s.managers[j].pc);
      PusherMoves(s, j);
    } else {
      var i :| 0 <= i < |s.workers| && s.workers[i].pc != Waiting(SleepE);
      AwakeInJoinMoves(s, i);
    }
  }

  lemma SignallerMoves(s: State, i: nat)
    requires !s.aborted && s.locks == map[] && i < |s.workers| && Signalling(s.workers[i].pc)
    ensures CanMove(s)
  {
    ThreadCanMove(s, OfWorker(i));
    hide CanMove;
  }

  lemma PusherMoves(s: State, j: nat)
    requires !s.aborted && s.locks == map[] && j < |s.managers|
    requires Ready(s.managers[j].pc) || Publishing(s.managers[j].pc)
    ensures CanMove(s)
  {
    ThreadCanMove(s, OfManager(j));
    hide CanMove;
  }

  /** While the master joins, a manager that waits for room is promised a signal, or has a worker awake. */
  lemma WhyAsleep(s: State, k: nat)
    requires ProgressInv(s) && s.master.Join? && k < |s.managers| && s.managers[k].pc == FSleep
    ensures AnySignalling(s.workers) || AnyReady(s.managers) || AnyPublishing(s.managers) || AnyAwake(s.workers)
  {
    assert MasterOk(s.master, s.sh);
    assert AnyAsleepF(s.managers);
    hide FlagInv, AnySignalling, AnyReady, AnyPublishing, AnyAwake;
  }

  lemma AwakeInJoinMoves(s: State, i: nat)
    requires ProgressInv(s) && !s.aborted && s.master.Join? && s.locks == map[] && !AnyHung(s.workers)
    requires i < |s.workers| && s.workers[i].pc != Waiting(SleepE)
    ensures CanMove(s)
  {
    NoneAckingInJoin(s, i);
    OnlySleepersBlocked(s.workers[i].pc);
    ThreadCanMove(s, OfWorker(i));
    hide ProgressInv, CanMove;
  }

  /** A worker that reached the acknowledgement wait in an earlier session and has not left it. */
  predicate Late(w: Worker) {
    w.pc.Acking? && !w.counted
  }

  /** The program is at a standstill: the master waits for a worker that waits for the master. */
  ghost predicate Standstill(s: State) {
    && s.master == Collecting(QSleep)
    && (forall i :: 0 <= i < |s.workers| ==> s.workers[i].pc == Acking(SleepA))
    && (forall j :: 0 <= j < |s.managers| ==> s.managers[j].pc == Exited)
    && s.locks == map[]
    && exists i :: 0 <= i < |s.workers| && Late(s.workers[i])
  }

  /** The program hangs: some worker or manager waits for ever, and nobody else can go on. */
  predicate Hanging(s: State) {
    Quiescent(s) && (AnyHung(s.workers) || AnyUnanswered(s.managers))
  }

  /**
   Deadlock freedom, exactly.  On every run, a state in which no thread can move is between sessions,
   waiting for a client, or at the standstill of a late worker, or somebody hangs in it.
   */
  lemma StuckOnlyWhenLate(s: State)
    requires ProgressInv(s) && !s.aborted && s.master != Accept
    ensures !CanMove(s) <==> Standstill(s) || Hanging(s)
  {
    if !CanMove(s) {
      StuckIsQuiescent(s);
      if !AnyHung(s.workers) && !AnyUnanswered(s.managers) {
        if s.master.Join? { JoinNeverBlocks(s); }
        StuckIsStandstill(s);
      }
    }
    if Standstill(s) || Hanging(s) {
      QuiescentIsStuck(s);
    }
  }

  lemma StuckIsStandstill(s: State)
    requires ProgressInv(s) && Quiescent(s) && s.master == Collecting(QSleep) && !AnyHung(s.workers)
    ensures Standstill(s)
  {
    assert MasterOk(s.master, s.sh);
    assert s.sh.qDone < |s.workers|;
    TotalOfBits(s.workers, CountBit);
    var i :| 0 <= i < |s.workers| && CountBit(s.workers[i]) != 1;
    assert Late(s.workers[i]);
  }

  // ---- Late workers -----------------------------------------------------------------------------------

  /** From clearing the acknowledgement to leaving the wait for the workers. */
  predicate Collects(pc: MasterPc) {
    (pc.Closing? && AckIsLow(pc)) || (pc.Collecting? && !PastBarrier(pc))
  }

  /** From clearing the acknowledgement to resetting the counter. */
  predicate Counts(pc: MasterPc) {
    AckIsLow(pc) && (Counting(pc) || pc.Closing?)
  }

  /** A late worker while the master collects. */
  ghost predicate SomeLate(s: State) {
    Collects(s.master) && exists i :: 0 <= i < |s.workers| && Late(s.workers[i]) && Parked(s.workers[i].pc)
  }

  /** No late worker since the acknowledgement was cleared. */
  ghost predicate NoneLate(s: State) {
    Counts(s.master) && forall i :: 0 <= i < |s.workers| ==> !Late(s.workers[i])
  }

  lemma LateOwnStep(w: Worker, sh: Shared, outcome: NetResult)
    ensures Late(w) && Parked(w.pc) && !sh.ack ==>
              Late(WorkerNext(w, sh, outcome)) && Parked(WorkerNext(w, sh, outcome).pc)
    ensures !Late(w) && (w.pc == Telling(UnlockQ) ==> w.counted) ==> !Late(WorkerNext(w, sh, outcome))
  {
  }

  lemma LateMasterStep(pc: MasterPc, more: bool)
    requires !pc.Join?
    ensures Collects(pc) ==> Collects(MasterGo(pc, more)) || (pc == Collecting(QTest) && !more)
    ensures Counts(pc) ==> Counts(MasterGo(pc, more)) || pc == Resetting(ResetQDone, ResetWrite)
  {
  }

  /** A late worker stays late, and the master stays in its wait: the session never ends. */
  lemma LateStaysLate(s: State, a: Action, s': State)
    requires ProgressInv(s) && SomeLate(s) && Step(s, a) == Some(s') && !s'.aborted
    ensures SomeLate(s')
  {
    var i :| 0 <= i < |s.workers| && Late(s.workers[i]) && Parked(s.workers[i].pc);
    assert MasterOk(s.master, s.sh);
    if s.master == Collecting(QTest) && s.sh.qDone >= |s.workers| {
      AllCounted(s);
    } else {
      LateWitness(s, a, s', i);
    }
  }

  lemma LateWitness(s: State, a: Action, s': State, i: nat)
    requires Step(s, a) == Some(s') && !s'.aborted && Collects(s.master) && !s.sh.ack
    requires s.master == Collecting(QTest) ==> s.sh.qDone < |s.workers|
    requires i < |s.workers| && Late(s.workers[i]) && Parked(s.workers[i].pc)
    ensures SomeLate(s')
  {
    if !s.master.Join? { LateMasterStep(s.master, s.sh.qDone < |s.workers|); }
    if a.RunWorker? { LateOwnStep(s.workers[a.w], s.sh, a.outcome); }
    hide WorkerNext, WorkerShared, WorkerLog, WorkerCode, ManagerCode, MasterCode, Blocked, LocksNext, MasterGo,
      MasterShared, MasterLog, ManagerNext, ManagerShared, ManagerLog;
    assert |s'.workers| == |s.workers| && Late(s'.workers[i]) && Parked(s'.workers[i].pc);
  }

  /** With no late worker at the clearing there is none until the counter is reset. */
  lemma NoneLateStays(s: State, a: Action, s': State)
    requires ProgressInv(s) && NoneLate(s) && Step(s, a) == Some(s') && !s'.aborted
    ensures NoneLate(s') || (s.master == Resetting(ResetQDone, ResetWrite) && a == RunMaster)
  {
    hide WorkerStep, MasterStep;
    match a
    case RunWorker(i, pick, outcome) => NoneLateWorker(s, i, pick, outcome, s');
    case RunMaster => NoneLateMaster(s, s');
    case _ => hide ProgressInv, ManagerCode, Blocked, LocksNext, ManagerNext, ManagerShared, ManagerLog;
  }

  lemma NoneLateWorker(s: State, i: nat, pick: nat, outcome: NetResult, s': State)
    requires ProgressInv(s) && NoneLate(s) && i < |s.workers|
    requires WorkerStep(s, i, pick, outcome) == Some(s') && !s'.aborted
    ensures NoneLate(s')
  {
    LateOwnStep(s.workers[i], s.sh, outcome);
    assert WorkerOk(s.workers[i], s.master, s.sh);
    hide ProgressInv, WorkerNext, WorkerShared, WorkerLog, WorkerCode, Blocked, LocksNext, Late;
    assert s'.master == s.master || (s.master == Collecting(QSleep) && s'.master == Collecting(QWoken));
  }

  lemma NoneLateMaster(s: State, s': State)
    requires NoneLate(s) && MasterStep(s) == Some(s')
    ensures NoneLate(s') || s.master == Resetting(ResetQDone, ResetWrite)
  {
    LateMasterStep(s.master, s.sh.qDone < |s.workers|);
    hide MasterCode, Blocked, LocksNext, MasterGo, MasterShared, MasterLog;
    assert |s'.workers| == |s.workers|;
  }

  /**
   Clearing the acknowledgement decides the session: whoever is in the acknowledgement wait at
   that moment is late, and if nobody is, nobody will be.
   */
  lemma ClearingDecides(s: State, s': State)
    requires ProgressInv(s) && s.master == Closing(ClearAck) && Step(s, RunMaster) == Some(s')
    ensures SomeLate(s') <==> exists i :: 0 <= i < |s.workers| && s.workers[i].pc.Acking?
    ensures NoneLate(s') <==> !SomeLate(s')
  {
    forall i | 0 <= i < |s.workers| && s.workers[i].pc.Acking?
      ensures Late(s'.workers[i]) && Parked(s'.workers[i].pc)
    {
      assert WorkerOk(s.workers[i], s.master, s.sh);
      if s.workers[i].pc == Acking(UnlockA) {
        MutualExclusion(s, OfMaster, OfWorker(i), AckMtx);
      }
    }
  }
}
