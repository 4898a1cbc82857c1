/**
 The main results about the content server's hand-off, each over every reachable state or run,
 with any number of workers and connections.
 */
module ContentTheorems {
  import opened Folds
  import opened Threads
  import opened ContentModel
  import opened ContentInvariants

  lemma ReachableInv(s: State, n: nat)
    requires Reachable(s, n)
    ensures Inv(s) && |s.workers| == n
  {
    var actions :| Exec(Start(n), actions) == Some(s);
    InvOnRuns(n, actions, s);
  }

  // ---- The order of the connections, and the flags ----------------------------------------------

  /**
   On every run, aborted and jammed ones included: each accepted connection was handed to one
   worker, or is in the queue, or in the master's hand, all in the order of their acceptance; and
   each worker holds the connection handed to it last.
   */
  lemma HandOffKeepsOrder(s: State, n: nat)
    requires Reachable(s, n)
    ensures s.log.accepted == Fds(s.log.handed) + s.sh.q + Hand(s)
    ensures forall i :: 0 <= i < |s.workers| ==> s.workers[i].fd == LastOf(s.log.handed, i)
  {
    ReachableInv(s, n);
  }

  /** The flags are true only for a reason, as in the mirror server, though the locking differs. */
  lemma FlagsAreHonest(s: State, n: nat)
    requires Reachable(s, n)
    ensures s.sh.empty ==> s.sh.q == [] || (|s.sh.q| == 1 && Unpublished(s.master))
    ensures s.sh.full ==> |s.sh.q| == CAPACITY || AnyLowering(s.workers)
    ensures |s.sh.q| <= CAPACITY
  {
    ReachableInv(s, n);
  }

  /** On every run, no two threads are in critical sections of one mutex. */
  lemma SectionsExclude(s: State, n: nat, t: Tid, u: Tid, m: Mutex)
    requires Reachable(s, n) && m in Owns(s, t) && m in Owns(s, u)
    ensures t == u && m in s.locks && s.locks[m] == t
  {
    ReachableInv(s, n);
    LocksOf(s);
    hide Inv, Reachable, Owns;
    MutualExclusion(s, t, u, m);
  }

  // ---- The two failures -----------------------------------------------------------------------------

  /** Some worker has gone back to its loop with its mutexes taken. */
  predicate Jammed(s: State) {
    AnyAt(s.workers, Relock)
  }

  /**
   A jam needs an early pop, and so two connections.  An abort needs 258: a full queue, one popped
   from it, and one more.  The hash table's mutex is lost through a FETCH with a bad ID only.
   */
  lemma FailuresNeed(s: State, n: nat)
    requires Reachable(s, n)
    ensures Jammed(s) ==> s.log.early && |s.log.accepted| >= 2
    ensures s.aborted ==> |s.log.accepted| >= CAPACITY + 2
    ensures s.log.loser.Some? ==> s.log.badId && |s.log.accepted| >= 1
  {
    ReachableInv(s, n);
  }

  lemma JamKeepsWorker(s: State, j: nat, i: nat, event: Event, s': State)
    requires LocksExact(s) && j < |s.workers| && s.workers[j].pc == Relock
    requires Step(s, RunWorker(i, event)) == Some(s')
    ensures Jammed(s') && s'.sh.q == s.sh.q && s'.log.handed == s.log.handed && !s'.aborted
  {
    JammedIsBlocked(s, j);
    assert RwMtx in Owns(s, OfWorker(j));
    WorkerEffect(s.workers[i], i, s.master, s.sh, s.log, event);
    if s.workers[i].pc == Pop { MutualExclusion(s, OfWorker(j), OfWorker(i), RwMtx); }
    hide LocksExact, Owns, WorkerNext, WorkerShared, WorkerLog, LocksNext;
    assert s'.workers[j] == s.workers[j];
  }

  lemma JamKeepsMaster(s: State, j: nat, pick: nat, s': State)
    requires LocksExact(s) && j < |s.workers| && s.workers[j].pc == Relock && MasterStep(s, pick) == Some(s')
    ensures Jammed(s') && s'.sh.q == s.sh.q && s'.log.handed == s.log.handed && !s'.aborted
  {
    assert EMtx in Owns(s, OfWorker(j)) && RwMtx in Owns(s, OfWorker(j));
    MasterEffect(s.master, s.fd, s.sh);
    if s.master == Push { MutualExclusion(s, OfWorker(j), OfMaster, RwMtx); }
    if s.master == SignalE { MutualExclusion(s, OfWorker(j), OfMaster, EMtx); }
    hide LocksExact, Owns, MasterNext, MasterShared, SignalWorkers, LocksNext;
    assert s'.workers[j] == s.workers[j];
  }

  lemma JamKeeps(s: State, a: Action, s': State)
    requires LocksExact(s) && Jammed(s) && Step(s, a) == Some(s')
    ensures Jammed(s') && s'.sh.q == s.sh.q && s'.log.handed == s.log.handed && !s'.aborted
  {
    var j :| 0 <= j < |s.workers| && s.workers[j].pc == Relock;
    hide LocksExact, WorkerNext, MasterStep;
    match a
    case RunWorker(i, event) => JamKeepsWorker(s, j, i, event, s');
    case RunMaster(pick) => JamKeepsMaster(s, j, pick, s');
    case _ => assert s'.workers[j] == s.workers[j];
  }

  /** A jam is for ever: no connection enters the queue or leaves it any more, whatever happens. */
  lemma {:induction false} JamIsForEver(s: State, n: nat, actions: seq<Action>, t: State)
    requires Reachable(s, n) && Jammed(s) && Exec(s, actions) == Some(t)
    ensures Jammed(t) && t.sh.q == s.sh.q && t.log.handed == s.log.handed && !t.aborted
    ensures Inv(t)
  {
    ReachableInv(s, n);
    hide Inv, Jammed, Step, Reachable;
    if actions != [] {
      var most := actions[..|actions| - 1];
      var a := actions[|actions| - 1];
      var u := Exec(s, most).value;
      JamIsForEver(s, n, most, u);
      LocksOf(u);
      JamKeeps(u, a, t);
      StepKeepsInv(u, a, t);
    } else {
      NotAborted(s);
    }
  }

  lemma LocksOf(s: State)
    requires Inv(s)
    ensures LocksExact(s)
  {
  }

  /** The two failures exclude each other. */
  lemma NotAborted(s: State)
    requires Inv(s) && Jammed(s)
    ensures !s.aborted
  {
    var j :| 0 <= j < |s.workers| && s.workers[j].pc == Relock;
    assert RwMtx in Owns(s, OfWorker(j));
    if s.aborted {
      assert RwMtx in Owns(s, OfMaster);
      MutualExclusion(s, OfWorker(j), OfMaster, RwMtx);
    }
  }

  // ---- The lost mutex ----------------------------------------------------------------------------------

  /** Once lost, the hash table's mutex stays lost, and nobody gets into its section again. */
  lemma {:induction false} LostIsForEver(s: State, n: nat, actions: seq<Action>, t: State)
    requires Reachable(s, n) && s.log.loser.Some? && Exec(s, actions) == Some(t)
    ensures t.log.loser == s.log.loser && HMtx in t.locks && Inv(t)
    ensures forall i :: 0 <= i < |t.workers| ==> !InHash(t.workers[i].pc)
  {
    ReachableInv(s, n);
    hide Inv, Step, Reachable;
    if actions != [] {
      var most := actions[..|actions| - 1];
      var a := actions[|actions| - 1];
      var u := Exec(s, most).value;
      LostIsForEver(s, n, most, u);
      StepKeepsInv(u, a, t);
      LoserStays(u, a, t);
      LostIsHeld(t);
    } else {
      LostIsHeld(s);
    }
  }

  lemma LoserStays(s: State, a: Action, s': State)
    requires s.log.loser.Some? && (forall i :: 0 <= i < |s.workers| ==> !InHash(s.workers[i].pc))
      && Step(s, a) == Some(s')
    ensures s'.log.loser == s.log.loser
  {
    if a.RunWorker? { HashEffect(s.workers[a.w], a.w, s.master, s.sh, s.log, a.event); }
    hide WorkerNext, WorkerShared, WorkerLog, MasterNext, MasterShared, SignalWorkers, LocksNext;
  }

  lemma LostIsHeld(s: State)
    requires Inv(s) && s.log.loser.Some?
    ensures HMtx in s.locks && s.locks[HMtx] == OfWorker(s.log.loser.value)
    ensures forall i :: 0 <= i < |s.workers| ==> !InHash(s.workers[i].pc)
  {
    assert HMtx in Owns(s, OfWorker(s.log.loser.value));
  }

  // ---- Deadlock freedom ------------------------------------------------------------------------------

  /** Some thread has a step of its own. */
  ghost predicate CanMove(s: State) {
    exists a :: Inside(a) && Step(s, a).Some?
  }

  /** A worker that never moves again: the other side keeps silent, or the hash table's mutex is lost. */
  predicate Stranded(w: Worker, log: Log) {
    w.pc == Hung || (w.pc == LockH && log.loser.Some?)
  }

  /** Every worker sleeps or is stranded, the master waits, and only a lost mutex is taken. */
  predicate Stopped(s: State) {
    && (forall i :: 0 <= i < |s.workers| ==> s.workers[i].pc == SleepE || Stranded(s.workers[i], s.log))
    && (s.master == Accept || s.master == FSleep)
    && s.locks == (if s.log.loser.Some? then map[HMtx := OfWorker(s.log.loser.value)] else map[])
  }

  /** All connections were handed out, every worker sleeps and the master waits for a client. */
  predicate AtRest(s: State) {
    s.master == Accept && AllAsleep(s.workers) && s.locks == map[] && s.sh.q == []
  }

  predicate AllAsleep(ws: seq<Worker>) {
    forall i :: 0 <= i < |ws| ==> ws[i].pc == SleepE
  }

  lemma WorkerCanMove(s: State, i: nat)
    requires !s.aborted && i < |s.workers| && !Blocked(s.locks, WorkerCode(s.workers[i].pc))
    ensures CanMove(s)
  {
    hide WorkerNext, WorkerShared, WorkerLog, LocksNext, Blocked;
    assert Step(s, RunWorker(i, Silence)).Some?;
  }

  lemma MasterCanMove(s: State)
    requires !s.aborted && !Blocked(s.locks, MasterCode(s.master))
    ensures CanMove(s)
  {
    hide MasterNext, MasterShared, LocksNext, Blocked;
    if AnyAsleep(s.workers) {
      var i :| 0 <= i < |s.workers| && s.workers[i].pc == SleepE;
      assert Step(s, RunMaster(i)).Some?;
    } else {
      assert Step(s, RunMaster(|s.workers|)).Some?;
    }
  }

  /** The owner of the queue mutex, else of the empty mutex, else of any that is not lost, can move. */
  lemma OwnerCanMove(s: State, m: Mutex)
    requires LocksExact(s) && !s.aborted && !Jammed(s) && m in s.locks && (m == HMtx ==> s.log.loser.None?)
    requires m == RwMtx || (RwMtx !in s.locks && (m == EMtx || EMtx !in s.locks))
    ensures CanMove(s)
  {
    var t := s.locks[m];
    assert m in Owns(s, t);
    match t
    case OfWorker(i) => WorkerCanMove(s, i);
    case OfMaster => MasterCanMove(s);
  }

  lemma LocksNeverBlockAll(s: State, m: Mutex)
    requires LocksExact(s) && !s.aborted && !Jammed(s) && m in s.locks && (m == HMtx ==> s.log.loser.None?)
    ensures CanMove(s)
  {
    hide LocksExact, Jammed, CanMove;
    if RwMtx in s.locks {
      OwnerCanMove(s, RwMtx);
    } else if EMtx in s.locks {
      OwnerCanMove(s, EMtx);
    } else {
      OwnerCanMove(s, m);
    }
  }

  lemma OnlyStrandedBlocked(w: Worker, s: State)
    requires s.locks == (if s.log.loser.Some? then map[HMtx := OfWorker(s.log.loser.value)] else map[])
    ensures Blocked(s.locks, WorkerCode(w.pc)) <==> w.pc == SleepE || Stranded(w, s.log)
  {
  }

  lemma OnlyTheLostIsTaken(s: State)
    requires Inv(s) && !s.aborted && !Jammed(s) && !CanMove(s)
    ensures s.locks == (if s.log.loser.Some? then map[HMtx := OfWorker(s.log.loser.value)] else map[])
  {
    if s.log.loser.Some? { LostIsHeld(s); }
    forall m | m in s.locks ensures m == HMtx && s.log.loser.Some? {
      if m != HMtx || s.log.loser.None? { LocksNeverBlockAll(s, m); }
    }
  }

  /** Unless it has aborted or jammed, the program stands still exactly when it is stopped. */
  lemma StuckOnlyWhenStopped(s: State)
    requires Inv(s) && !s.aborted && !Jammed(s)
    ensures !CanMove(s) <==> Stopped(s)
  {
    if !CanMove(s) {
      OnlyTheLostIsTaken(s);
      forall i | 0 <= i < |s.workers| ensures s.workers[i].pc == SleepE || Stranded(s.workers[i], s.log) {
        OnlyStrandedBlocked(s.workers[i], s);
        if !Blocked(s.locks, WorkerCode(s.workers[i].pc)) { WorkerCanMove(s, i); }
      }
      if s.master != Accept && s.master != FSleep { MasterCanMove(s); }
    }
    if Stopped(s) {
      forall a | Inside(a) ensures Step(s, a).None? {
        if a.RunWorker? && a.w < |s.workers| { OnlyStrandedBlocked(s.workers[a.w], s); }
      }
    }
  }

  /** As long as one worker is not stranded, a stop means that everything was handed out. */
  lemma StoppedMeansServed(s: State)
    requires Inv(s) && Stopped(s) && AnyAsleep(s.workers)
    ensures s.sh.q == [] && s.master == Accept && Fds(s.log.handed) == s.log.accepted
  {
    assert FlagsTrue(s) && Roused(s) && OrderKept(s);
    TotalZero(s.workers, OnWayBit);
    assert !AnyLowering(s.workers) && !AnyAt(s.workers, SignalF);
  }

  /** And the program is at rest exactly if no bad ID came and nobody keeps it waiting. */
  lemma AtRestExactly(s: State)
    requires Inv(s) && Stopped(s) && s.workers != []
    ensures AtRest(s) <==> !s.log.badId && !AnyAt(s.workers, Hung)
  {
    assert HashInv(s);
    if !s.log.badId && !AnyAt(s.workers, Hung) {
      assert AllAsleep(s.workers);
      assert s.workers[0].pc == SleepE;
      StoppedMeansServed(s);
    }
    if AtRest(s) && s.log.badId {
      LostIsHeld(s);
    }
  }

  // ---- Termination -------------------------------------------------------------------------------------

  /** What an entry in the queue is worth. */
  const QUEUED: nat := 19

  function WorkerRank(w: Worker): int {
    match w.pc
    case Relock | Hung => 0
    case SleepE | Pop => 2
    case WaitE | LockQ => 3
    case TestE => 4
    case LockE | WokenE => 5
    case Transfer => 6
    case UnlockH => 7
    case Access => 8
    case LockH => 9
    case Receive => 10
    case UnlockF => 11
    case SignalF => 15
    case ClearFull => 16
    case LockF => 17
    case UnlockE => 18
    case UnlockQ => 19
    case SetEmpty => 20
  }

  function MasterRank(pc: MasterPc): nat {
    match pc
    case Accept => 0
    case EUnlock => 1
    case SignalE => 5
    case ClearEmpty => 6
    case ELock => 7
    case QUnlock => 8
    case SetFull => 9
    case Push => 29
    case QLock | FSleep => 30
    case FUnlock | FWait => 31
    case FTest => 32
    case FLock | FWoken => 33
  }

  /** Goes down with every step of a thread's own, and up by 3 with a spurious wakeup. */
  function Measure(s: State): int {
    Total(s.workers, WorkerRank) + MasterRank(s.master) + QUEUED * |s.sh.q|
  }

  lemma WorkerRankFalls(w: Worker, sh: Shared, event: Event)
    requires !WorkerCode(w.pc).Sleeping? && w.pc != Relock
    ensures WorkerRank(WorkerNext(w, sh, event)) + QUEUED * |WorkerShared(w.pc, sh).q|
            <= WorkerRank(w) + QUEUED * |sh.q| - (if w.pc == SignalF then 4 else 1)
  {
  }

  lemma MasterRankFalls(pc: MasterPc, fd: int, sh: Shared)
    requires !MasterCode(pc).Sleeping? && !MasterCode(pc).Stop?
    ensures MasterRank(MasterNext(pc, sh)) + QUEUED * |MasterShared(pc, fd, sh).q|
            <= MasterRank(pc) + QUEUED * |sh.q| - (if pc == SignalE then 4 else 1)
  {
  }

  lemma StepDescends(s: State, a: Action, s': State)
    requires LocksExact(s) && Inside(a) && Step(s, a) == Some(s') && !s'.aborted
    ensures Measure(s') < Measure(s)
  {
    match a
    case RunWorker(i, event) =>
      if s.workers[i].pc == Relock { JammedIsBlocked(s, i); }
      WorkerRankFalls(s.workers[i], s.sh, event);
      TotalUpdate(s.workers, WorkerRank, i, WorkerNext(s.workers[i], s.sh, event));
      hide LocksExact, WorkerNext, WorkerShared, WorkerLog, WorkerCode, Blocked, LocksNext;
    case RunMaster(pick) =>
      MasterRankFalls(s.master, s.fd, s.sh);
      if pick < |s.workers| { TotalUpdate(s.workers, WorkerRank, pick, s.workers[pick].(pc := WokenE)); }
      hide LocksExact, MasterNext, MasterShared, MasterCode, Blocked, LocksNext;
  }

  predicate IsSpurious(a: Action) {
    a.SpuriousWorker? || a.SpuriousMaster?
  }

  lemma WakeupRaises(s: State, a: Action, s': State)
    requires IsSpurious(a) && Step(s, a) == Some(s')
    ensures Measure(s') == Measure(s) + 3 && !s'.aborted
  {
    if a.SpuriousWorker? { TotalUpdate(s.workers, WorkerRank, a.w, s'.workers[a.w]); }
  }

  /** How many of the actions are spurious wakeups. */
  function Wakeups(actions: seq<Action>): nat {
    if actions == [] then 0
    else Wakeups(actions[..|actions| - 1]) + if IsSpurious(actions[|actions| - 1]) then 1 else 0
  }

  predicate NoClients(actions: seq<Action>) {
    forall a :: a in actions ==> !a.NewClient?
  }

  lemma {:induction false} RanksNotNegative(ws: seq<Worker>)
    ensures Total(ws, WorkerRank) >= 0
  {
    if ws != [] { RanksNotNegative(ws[..|ws| - 1]); }
  }

  lemma MeasureNotNegative(s: State)
    ensures Measure(s) >= 0
  {
    RanksNotNegative(s.workers);
  }

  lemma LiveBeforeStep(s: State, a: Action, s': State)
    requires Step(s, a) == Some(s')
    ensures !s.aborted
  {
  }

  /**
   A run without new clients has at most `Measure` steps, four more for each spurious wakeup, and
   one that aborts.
   */
  lemma {:induction false} RunsAreBounded(s: State, actions: seq<Action>, t: State)
    requires Inv(s) && Exec(s, actions) == Some(t) && NoClients(actions)
    ensures Inv(t) && |t.workers| == |s.workers|
    ensures if t.aborted then |actions| <= Measure(s) + 4 * Wakeups(actions) + 1
            else |actions| + Measure(t) <= Measure(s) + 4 * Wakeups(actions)
  {
    MeasureNotNegative(s);
    hide Inv, Measure, Step;
    if actions != [] {
      var most := actions[..|actions| - 1];
      var a := actions[|actions| - 1];
      var u := Exec(s, most).value;
      RunsAreBounded(s, most, u);
      StepKeepsInv(u, a, t);
      LocksOf(u);
      LiveBeforeStep(u, a, t);
      MeasureNotNegative(u);
      if IsSpurious(a) {
        WakeupRaises(u, a, t);
      } else if !t.aborted {
        StepDescends(u, a, t);
      }
    }
  }

  /**
   How the hand-off goes on once no more clients come.  Every run is finite but for spurious
   wakeups.  When nobody can move any more and the program has not aborted or jammed, then it is
   at rest, with every connection handed out in order, if and only if no FETCH with a bad ID came
   and no other side keeps a worker waiting; and as long as one worker is not stranded, every
   connection was handed out all the same.
   */
  lemma HandOffEnds(s: State, n: nat, actions: seq<Action>, t: State)
    requires n >= 1 && Reachable(s, n) && Exec(s, actions) == Some(t) && NoClients(actions)
    ensures |actions| <= Measure(s) + 4 * Wakeups(actions) + 1
    ensures !CanMove(t) && !t.aborted && !Jammed(t) ==>
              && (AtRest(t) <==> !t.log.badId && !AnyAt(t.workers, Hung))
              && (AtRest(t) ==> Fds(t.log.handed) == t.log.accepted)
              && (AnyAsleep(t.workers) ==> t.master == Accept && Fds(t.log.handed) == t.log.accepted)
              && (!AnyAsleep(t.workers) ==> forall i :: 0 <= i < |t.workers| ==> Stranded(t.workers[i], t.log))
  {
    ReachableInv(s, n);
    RunsAreBounded(s, actions, t);
    MeasureNotNegative(t);
    if !CanMove(t) && !t.aborted && !Jammed(t) {
      StuckOnlyWhenStopped(t);
      AtRestExactly(t);
      if AnyAsleep(t.workers) { StoppedMeansServed(t); }
      if AtRest(t) {
        assert t.workers[0].pc == SleepE;
        StoppedMeansServed(t);
      }
    }
  }
}
