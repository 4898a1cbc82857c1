/**
 The main results about the mirror server's sessions, each over every reachable state or run.
 */
module MirrorTheorems {
  import opened Folds
  import opened MirrorModel
  import opened Threads
  import opened MirrorLocks
  import opened MirrorBarrier
  import opened MirrorFlags
  import opened MirrorProgress
  import opened MirrorDeadlock
  import opened MirrorTermination
  import opened MirrorLedger
  import opened MirrorStats
  import opened MirrorRuns

  lemma ReachableInv(s: State, n: nat)
    requires Reachable(s, n) && !s.aborted
    ensures Inv(s) && |s.workers| == n
  {
    var s0, actions :| Init(s0, n) && Exec(s0, actions) == Some(s);
    InvOnRuns(s0, n, actions, s);
  }

  lemma BarrierOf(s: State)
    requires Inv(s)
    ensures BarrierInv(s)
  {
  }

  // ---- The session barrier ----------------------------------------------------------------------

  /** The workers counted in this session. */
  function CountedWorkers(ws: seq<Worker>): set<nat> {
    set i | 0 <= i < |ws| && ws[i].counted
  }

  lemma {:induction false} CountedIsTotal(ws: seq<Worker>)
    ensures |CountedWorkers(ws)| == Total(ws, CountBit)
  {
    if ws == [] {
      assert CountedWorkers(ws) == {};
    } else {
      var k := |ws| - 1;
      CountedIsTotal(ws[..k]);
      assert CountedWorkers(ws) == CountedWorkers(ws[..k]) + (if ws[k].counted then {k} else {});
      assert k !in CountedWorkers(ws[..k]);
    }
  }

  /**
   The counter counts each worker that has drained in this session once.  From the master's
   leaving its wait until it raises the acknowledgement, every manager has exited, the queue is
   empty, and every worker is parked with nothing in its hands.
   */
  lemma SessionBarrier(s: State, n: nat)
    requires Reachable(s, n) && !s.aborted
    ensures s.sh.qDone == |CountedWorkers(s.workers)| <= n
    ensures PastBarrier(s.master) ==>
              && s.sh.q == []
              && (forall j :: 0 <= j < |s.managers| ==> s.managers[j].pc == Exited)
              && (forall i :: 0 <= i < |s.workers| ==> Parked(s.workers[i].pc) && s.workers[i].item.None?)
  {
    ReachableInv(s, n);
    hide Reachable, ProgressInv, LedgerInv, StatsInv, ReportInv, LocksExact;
    BarrierOf(s);
    CountedIsTotal(s.workers);
    TotalOfBits(s.workers, CountBit);
    if PastBarrier(s.master) {
      forall i | 0 <= i < |s.workers| ensures Parked(s.workers[i].pc) && s.workers[i].item.None? {
        assert WorkerOk(s.workers[i], s.master, s.sh);
      }
    }
  }

  /**
   While the master reports and resets, no other thread touches a shared variable: it races with
   nobody.
   */
  lemma ResetRacesWithNobody(s: State, n: nat, a: Action, s': State)
    requires Reachable(s, n) && !s.aborted && PastBarrier(s.master)
    requires a != RunMaster && Step(s, a) == Some(s')
    ensures s'.sh == s.sh && s'.log == s.log && !s'.aborted
  {
    SessionBarrier(s, n);
    if a.RunWorker? {
      ParkedTouchesNothing(s.workers[a.w], s.sh, s.log, a.outcome);
    }
    hide Reachable, WorkerNext, WorkerShared, WorkerLog, WorkerCode, LocksNext;
  }

  lemma ParkedTouchesNothing(w: Worker, sh: Shared, log: Log, outcome: NetResult)
    requires Parked(w.pc)
    ensures WorkerShared(w, sh) == sh && WorkerLog(w, log, outcome) == log
  {
  }

  /** On every run, no two threads are in critical sections of one mutex. */
  lemma SectionsExclude(s: State, n: nat, t: Tid, u: Tid, m: Mutex)
    requires Reachable(s, n) && !s.aborted && m in Owns(s, t) && m in Owns(s, u)
    ensures t == u && m in s.locks && s.locks[m] == t
  {
    ReachableInv(s, n);
    LocksOf(s);
    hide Inv, Reachable, Owns;
    MutualExclusion(s, t, u, m);
  }

  lemma LocksOf(s: State)
    requires Inv(s)
    ensures LocksExact(s)
  {
  }

  /**
   Nobody sleeps for nothing.  While the managers may push: when all workers sleep although an
   entry is queued, a manager is between its push and its signal; and when a manager sleeps, an
   entry is queued, or a worker is about to signal, or another manager is awake in the push section.
   */
  lemma SleepersAreAwaited(s: State, n: nat)
    requires Reachable(s, n) && !s.aborted && !s.sh.done
    ensures s.sh.q != [] && !AnyAwake(s.workers) ==> AnyPublishing(s.managers)
    ensures AnyAsleepF(s.managers) ==> s.sh.q != [] || AnySignalling(s.workers) || AnyReady(s.managers)
  {
    ReachableInv(s, n);
    ProgressOf(s);
    hide Inv, Reachable, FlagInv;
  }

  // ---- Flags, conservation, statistics -----------------------------------------------------------

  /**
   The flags are true only for a reason.  Raised, the empty flag means an empty queue or an entry
   whose manager has not published it yet; the full flag means a full queue or a worker that has
   popped and not lowered the flag yet.
   */
  lemma FlagsAreHonest(s: State, n: nat)
    requires Reachable(s, n) && !s.aborted && !s.sh.done
    ensures s.sh.empty ==> s.sh.q == [] || AnyUnpublished(s.managers)
    ensures s.sh.full ==> |s.sh.q| == CAPACITY || AnyLowering(s.workers)
    ensures |s.sh.q| <= CAPACITY
  {
    ReachableInv(s, n);
  }

  /** Every offered entry is in exactly one place, as often as it was offered. */
  lemma Conservation(s: State, n: nat)
    requires Reachable(s, n) && !s.aborted
    ensures s.log.offered
      == Pool(s.managers, Todo) + multiset(s.sh.q) + Pool(s.workers, Held) + s.log.finished + s.log.dropped
    ensures s.log.dropped != multiset{} ==> |s.log.offered| >= FIRST_DROP
  {
    ReachableInv(s, n);
  }

  /**
   The queue is first in, first out, at every step: an entry leaves it only at its front, into the hands
   of the worker that pops it, and comes in only at its end, as the next one of the manager that pushes it.
   What a full queue turns away is dropped.
   */
  lemma QueueKeepsOrder(s: State, a: Action, s': State)
    requires Step(s, a) == Some(s') && !s'.aborted
    ensures s'.sh.q != s.sh.q ==> PopsFront(s, a, s') || PushesBack(s, a, s')
    ensures s'.log.dropped != s.log.dropped && !a.NewSession? ==>
      a.RunManager? && |s.sh.q| == CAPACITY && s.managers[a.m].todo != []
      && s'.log.dropped == s.log.dropped + multiset{s.managers[a.m].todo[0]}
  {
    hide WorkerStep, ManagerStep, MasterStep;
    match a
    case RunWorker(i, pick, outcome) => WorkerKeepsOrder(s, i, pick, outcome, s');
    case RunManager(j, pick) => ManagerKeepsOrder(s, j, pick, s');
    case RunMaster => MasterKeepsOrder(s, s');
    case _ =>
  }

  ghost predicate PopsFront(s: State, a: Action, s': State) {
    && a.RunWorker? && a.w < |s.workers| && a.w < |s'.workers| && s.sh.q != []
    && s'.sh.q == s.sh.q[1..] && s'.workers[a.w].item == Some(s.sh.q[0])
  }

  ghost predicate PushesBack(s: State, a: Action, s': State) {
    && a.RunManager? && a.m < |s.managers| && a.m < |s'.managers| && |s.sh.q| != CAPACITY
    && s.managers[a.m].todo != [] && s'.managers[a.m].todo == s.managers[a.m].todo[1..]
    && s'.sh.q == s.sh.q + [s.managers[a.m].todo[0]]
  }

  lemma WorkerKeepsOrder(s: State, i: nat, pick: nat, outcome: NetResult, s': State)
    requires i < |s.workers| && WorkerStep(s, i, pick, outcome) == Some(s') && !s'.aborted
    ensures s'.sh.q != s.sh.q ==> PopsFront(s, RunWorker(i, pick, outcome), s')
    ensures s'.log.dropped == s.log.dropped
  {
    WorkerEffect(s.workers[i], s.sh);
    ItemMoves(s.workers[i], s.sh, s.log, outcome);
    LogMoves(s.workers[i], s.log, outcome);
    hide WorkerNext, WorkerShared, WorkerLog, WorkerCode, Blocked, LocksNext, SignalManagers;
  }

  lemma ManagerKeepsOrder(s: State, j: nat, pick: nat, s': State)
    requires j < |s.managers| && ManagerStep(s, j, pick) == Some(s')
    ensures s'.sh.q != s.sh.q ==> PushesBack(s, RunManager(j, pick), s')
    ensures s'.log.dropped != s.log.dropped ==>
      |s.sh.q| == CAPACITY && s.managers[j].todo != []
      && s'.log.dropped == s.log.dropped + multiset{s.managers[j].todo[0]}
  {
    ManagerEffect(s.managers[j], s.sh);
    ManagerPushes(s.managers[j], s.sh, s.log);
    hide ManagerNext, ManagerShared, ManagerLog, ManagerCode, Blocked, LocksNext, SignalWorkers;
  }

  lemma ManagerPushes(g: Manager, sh: Shared, log: Log)
    ensures g.pc == Push && g.todo != [] ==> ManagerNext(g, sh).todo == g.todo[1..]
    ensures ManagerLog(g, sh, log).dropped == if g.pc == Push && g.todo != [] && |sh.q| == CAPACITY
                                              then log.dropped + multiset{g.todo[0]} else log.dropped
  {
  }

  lemma MasterKeepsOrder(s: State, s': State)
    requires MasterStep(s) == Some(s')
    ensures s'.sh.q == s.sh.q && s'.log.dropped == s.log.dropped
  {
    MasterEffect(s.master, s.sh);
    hide MasterGo, MasterShared, MasterCode, Blocked, LocksNext, MakeReport;
  }

  /**
   When the master reports, every entry was finished or dropped; below `FIRST_DROP` entries all
   were finished.
   */
  lemma SessionFinishesAll(s: State, n: nat)
    requires Reachable(s, n) && !s.aborted && PastBarrier(s.master)
    ensures s.log.offered == s.log.finished + s.log.dropped
    ensures |s.log.offered| < FIRST_DROP ==> s.log.finished == s.log.offered
  {
    ReachableInv(s, n);
    SessionBarrier(s, n);
    forall j | 0 <= j < |s.managers| ensures Todo(s.managers[j]) == multiset{} {
      assert ExitedOk(s.managers[j]);
    }
    PoolEmpty(s.managers, Todo);
    PoolEmpty(s.workers, Held);
  }

  /** The statistics the master sends are those of the files fetched, whatever the schedule was. */
  lemma ReportIsExact(s: State, n: nat, s': State, sizes: seq<int>)
    requires Reachable(s, n) && !s.aborted && s.master == Collecting(Send) && Step(s, RunMaster) == Some(s')
    requires multiset(sizes) == multiset(s.log.fetched)
    ensures s.sh.files == |s.sh.spread| == |sizes| && s.sh.bytes == Sum(s.sh.spread) == Sum(sizes)
    ensures s'.log.reports == s.log.reports + [ReportOf(sizes)] && Describes(ReportOf(sizes), sizes)
  {
    ReachableInv(s, n);
    SendStep(s, s');
    ReportSays(sizes);
    hide Describes;
    hide Reachable, Step, MakeReport, ReportOf, Sum;
    StatsOf(s);
    hide Inv;
    assert |s.sh.spread| == |multiset(s.sh.spread)| == |multiset(sizes)| == |sizes|;
    SumPermutation(s.sh.spread, sizes);
    SumPermutation(s.log.fetched, sizes);
    ReportIgnoresOrder(sizes, s.sh.spread);
  }

  lemma SendStep(s: State, s': State)
    requires s.master == Collecting(Send) && Step(s, RunMaster) == Some(s')
    ensures s'.log.reports == s.log.reports + [MakeReport(s.sh.files, s.sh.bytes, s.sh.spread)]
  {
  }

  lemma StatsOf(s: State)
    requires Inv(s) && s.master == Collecting(Send)
    ensures s.sh.files == |s.log.fetched| && s.sh.bytes == Sum(s.log.fetched)
    ensures multiset(s.sh.spread) == multiset(s.log.fetched)
  {
    StatsAtSend(s);
  }

  lemma SumPermutation(xs: seq<int>, ys: seq<int>)
    requires multiset(xs) == multiset(ys)
    ensures Sum(xs) == Sum(ys)
  {
    TotalPermutation(xs, ys, (x: int) => x);
  }

  // ---- One worker ---------------------------------------------------------------------------------

  /** With one worker, for any managers and any number of sessions, the unguarded pop never fails. */
  lemma OneWorkerNeverAborts(s: State)
    requires Reachable(s, 1)
    ensures !s.aborted
  {
    var s0, actions :| Init(s0, 1) && Exec(s0, actions) == Some(s);
    InvOnRuns(s0, 1, actions, s);
  }

  // ---- Deadlock -----------------------------------------------------------------------------------

  /**
   Inside a session nobody can move exactly at the standstill of a late worker, or where some worker or
   manager waits for ever for another program and nobody else can go on.
   */
  lemma DeadlockFreedom(s: State, n: nat)
    requires Reachable(s, n) && !s.aborted && s.master != Accept
    ensures !CanMove(s) <==> Standstill(s) || Hanging(s)
  {
    ReachableInv(s, n);
    StuckOnlyWhenLate(s);
  }

  /** A worker whose transfer never ends stays in it, and no run of its session gets back to the accept. */
  lemma {:induction false} HungIsForEver(s: State, n: nat, actions: seq<Action>, t: State)
    requires Reachable(s, n) && AllInSession(actions) && Exec(s, actions) == Some(t) && !t.aborted && AnyHung(s.workers)
    ensures AnyHung(t.workers) && t.master != Accept
  {
    hide Reachable, AnyHung, Step, Inv;
    if actions != [] {
      var most := actions[..|actions| - 1];
      var u := Exec(s, most).value;
      LiveBeforeStep(u, actions[|actions| - 1], t);
      HungIsForEver(s, n, most, u);
      HungStays(u, actions[|actions| - 1], t);
    }
    ReachableTrans(s, n, actions, t);
    ReachableInv(t, n);
    if t.master == Accept { HungIsNotDone(t); }
  }

  lemma HungStays(s: State, a: Action, s': State)
    requires Step(s, a) == Some(s') && !s'.aborted && AnyHung(s.workers)
    ensures AnyHung(s'.workers)
  {
    var k :| 0 <= k < |s.workers| && IsHung(s.workers[k].pc);
    assert WorkerCode(s.workers[k].pc).Sleeping?;
    hide WorkerNext, WorkerShared, WorkerLog, ManagerNext, ManagerShared, MasterGo, MasterShared, LocksNext,
      SignalManagers;
    assert s'.workers[k].pc == s.workers[k].pc;
  }

  lemma HungIsNotDone(s: State)
    requires Inv(s) && s.master == Accept
    ensures !AnyHung(s.workers)
  {
    forall i | 0 <= i < |s.workers| ensures !IsHung(s.workers[i].pc) {
      NoneFetching(s, i);
    }
  }

  // ---- How a session ends -----------------------------------------------------------------------------

  /** The counter of this session is reset: the session is past its danger. */
  predicate PastReset(pc: MasterPc) {
    (AckIsLow(pc) && !Counts(pc)) || pc.Finishing? || pc == Accept
  }

  lemma PastResetMoves(pc: MasterPc, more: bool)
    requires !pc.Join?
    ensures PastReset(pc) ==> PastReset(MasterGo(pc, more))
    ensures pc == Resetting(ResetQDone, ResetWrite) ==> PastReset(MasterGo(pc, more))
  {
  }

  lemma PastResetStays(s: State, a: Action, s': State)
    requires InSession(a) && Step(s, a) == Some(s')
    requires PastReset(s.master) || (s.master == Resetting(ResetQDone, ResetWrite) && a == RunMaster)
    ensures PastReset(s'.master)
  {
    if !s.master.Join? { PastResetMoves(s.master, s.sh.qDone < |s.workers|); }
    hide MasterGo, MasterShared, MasterLog, MasterCode, WorkerNext, WorkerShared, WorkerLog, WorkerCode, ManagerNext,
      ManagerShared, ManagerLog, ManagerCode;
  }

  /** The session is on time: nobody was late at the clearing, or the danger is past. */
  ghost predicate OnTime(s: State) {
    NoneLate(s) || PastReset(s.master)
  }

  lemma StepKeepsOnTime(s: State, a: Action, s': State)
    requires ProgressInv(s) && InSession(a) && Step(s, a) == Some(s') && !s'.aborted && OnTime(s)
    ensures OnTime(s')
  {
    hide ProgressInv, NoneLate, PastReset, Step;
    if PastReset(s.master) {
      PastResetStays(s, a, s');
    } else {
      NoneLateStays(s, a, s');
      if s.master == Resetting(ResetQDone, ResetWrite) && a == RunMaster {
        PastResetStays(s, a, s');
      }
    }
  }

  /** Inside a session, being on time and being late both last. */
  lemma {:induction false} LatenessLasts(s: State, actions: seq<Action>, t: State)
    requires ProgressInv(s) && AllInSession(actions) && Exec(s, actions) == Some(t) && !t.aborted
    ensures OnTime(s) ==> OnTime(t)
    ensures SomeLate(s) ==> SomeLate(t)
  {
    hide ProgressInv, OnTime, SomeLate, Step;
    if actions != [] {
      var most := actions[..|actions| - 1];
      var a := actions[|actions| - 1];
      var u := Exec(s, most).value;
      LiveBeforeStep(u, a, t);
      LatenessLasts(s, most, u);
      RunsAreBounded(s, most, u);
      if OnTime(u) { StepKeepsOnTime(u, a, t); }
      if SomeLate(u) { LateStaysLate(u, a, t); }
    }
  }

  lemma StandstillIsNotOnTime(s: State)
    ensures Standstill(s) ==> !OnTime(s)
  {
  }

  /** From any state some run inside the session goes on until nobody can move. */
  lemma {:induction false} RunsToItsEnd(s: State) returns (actions: seq<Action>, t: State)
    requires ProgressInv(s)
    ensures AllInSession(actions) && Exec(s, actions) == Some(t) && !CanMove(t)
    decreases Measure(s)
  {
    hide ProgressInv, Measure, Step;
    if CanMove(s) {
      var a :| !IsSpurious(a) && !a.NewSession? && Step(s, a).Some?;
      var u := Step(s, a).value;
      StepDescends(s, a, u);
      MeasureNotNegative(s);
      MeasureNotNegative(u);
      if u.aborted {
        actions, t := [a], u;
        AbortIsFinal(u);
        assert actions[..0] == [];
        assert Exec(s, []) == Some(s);
      } else {
        StepKeepsProgress(s, a, u);
        var rest;
        rest, t := RunsToItsEnd(u);
        actions := [a] + rest;
        ExecCons(s, a, u, rest, t);
      }
    } else {
      actions, t := [], s;
    }
  }

  lemma AbortIsFinal(s: State)
    requires s.aborted
    ensures !CanMove(s)
  {
  }

  lemma {:induction false} ExecCons(s: State, a: Action, u: State, rest: seq<Action>, t: State)
    requires Step(s, a) == Some(u) && Exec(u, rest) == Some(t)
    ensures Exec(s, [a] + rest) == Some(t)
  {
    hide Step;
    if rest == [] {
      assert [a] + rest == [a] && [a][..0] == [];
      assert Exec(s, []) == Some(s);
    } else {
      var k := |rest| - 1;
      assert ([a] + rest)[..k + 1] == [a] + rest[..k];
      ExecCons(s, a, u, rest[..k], Exec(u, rest[..k]).value);
    }
  }

  /**
   How a session ends.  A run inside a session takes at most `Measure` steps, and four more for each
   spurious wakeup.  When it can go no further the program has aborted, the master is back at its
   accept, the program is at the standstill of a late worker, or somebody hangs.
   */
  lemma SessionEnds(s: State, n: nat, actions: seq<Action>, t: State)
    requires Reachable(s, n) && !s.aborted
    requires AllInSession(actions) && Exec(s, actions) == Some(t)
    ensures |actions| <= Measure(s) + 4 * Wakeups(actions)
    ensures !CanMove(t) ==> t.aborted || t.master == Accept || Standstill(t) || Hanging(t)
  {
    ReachableInv(s, n);
    RunsAreBounded(s, actions, t);
    MeasureNotNegative(t);
    if !t.aborted && t.master != Accept {
      StuckOnlyWhenLate(t);
    }
  }

  /**
   Which end it is.  A session that does not abort gets back to the accept if and only if no worker was
   still waiting for the previous acknowledgement when the master cleared it, and no transfer hangs.
   */
  lemma ClearingDecidesTheEnd(s: State, n: nat, s': State, actions: seq<Action>, t: State)
    requires Reachable(s, n) && !s.aborted && s.master == Closing(ClearAck) && Step(s, RunMaster) == Some(s')
    requires AllInSession(actions) && Exec(s', actions) == Some(t) && !CanMove(t) && !t.aborted
    ensures t.master == Accept <==>
      (forall i :: 0 <= i < |s.workers| ==> !s.workers[i].pc.Acking?) && !AnyHung(t.workers)
    ensures t.master != Accept ==> Standstill(t) || (Hanging(t) && AnyHung(t.workers))
  {
    hide Inv, Reachable, ProgressInv, Step, Standstill, CanMove, NoneLate, Hanging, AnyHung, OnTime, SomeLate;
    ReachableInv(s, n);
    ProgressOf(s);
    ClearingReaches(s, s');
    ReachableTrans(s, n, [RunMaster], s');
    ReachableTrans(s', n, actions, t);
    ReachableInv(t, n);
    ClearingDecidesTime(s, s');
    ClearingDoesNotAbort(s, s');
    StepKeepsProgress(s, RunMaster, s');
    LatenessLasts(s', actions, t);
    TheEnd(t);
  }

  lemma ClearingDecidesTime(s: State, s': State)
    requires ProgressInv(s) && s.master == Closing(ClearAck) && Step(s, RunMaster) == Some(s')
    ensures OnTime(s') || SomeLate(s')
    ensures SomeLate(s') <==> !(forall i :: 0 <= i < |s.workers| ==> !s.workers[i].pc.Acking?)
  {
    hide ProgressInv, Step, SomeLate, NoneLate;
    ClearingDecides(s, s');
  }

  /** The two ways to be past the clearing, when nobody can move. */
  lemma TheEnd(s: State)
    requires Inv(s) && !s.aborted && !CanMove(s) && (OnTime(s) || SomeLate(s))
    ensures OnTime(s) ==> (s.master == Accept <==> !AnyHung(s.workers))
    ensures SomeLate(s) ==> s.master != Accept && !OnTime(s)
    ensures s.master != Accept ==> Standstill(s) || (Hanging(s) && AnyHung(s.workers))
  {
    ProgressOf(s);
    LateIsNotOnTime(s);
    if s.master == Accept {
      HungIsNotDone(s);
    } else {
      hide ProgressInv, Inv, Standstill, Hanging, CanMove, OnTime, SomeLate, AnyHung;
      StuckOnlyWhenLate(s);
      HangingIsHung(s);
      StandstillIsNotOnTime(s);
    }
  }

  lemma LateIsNotOnTime(s: State)
    ensures SomeLate(s) ==> s.master != Accept && !OnTime(s)
  {
  }

  /** Past the clearing, only a worker can hang: the managers have exited. */
  lemma HangingIsHung(s: State)
    requires ProgressInv(s) && (OnTime(s) || SomeLate(s)) && s.master != Accept
    ensures Hanging(s) <==> Quiescent(s) && AnyHung(s.workers)
  {
    assert Joined(s.managers, s.master);
    NoJoin(s);
    hide OnTime, SomeLate;
  }

  lemma NoJoin(s: State)
    requires OnTime(s) || SomeLate(s)
    ensures !s.master.Join?
  {
  }

  lemma ClearingDoesNotAbort(s: State, s': State)
    requires s.master == Closing(ClearAck) && Step(s, RunMaster) == Some(s')
    ensures !s'.aborted
  {
  }

  // ---- One worker: total correctness of a session ---------------------------------------------------

  /** The report of this session is still to be sent. */
  function Unsent(pc: MasterPc): nat {
    if pc.Join? || pc.Closing? || pc.Collecting? then 1 else 0
  }

  lemma MasterSendsOnce(pc: MasterPc, more: bool)
    requires !pc.Join?
    ensures Unsent(MasterGo(pc, more)) == Unsent(pc) - (if pc == Collecting(Send) then 1 else 0)
  {
  }

  lemma StepSendsOnce(s: State, a: Action, s': State)
    requires InSession(a) && Step(s, a) == Some(s') && !s'.aborted
    ensures |s'.log.reports| + Unsent(s'.master) == |s.log.reports| + Unsent(s.master)
    ensures s.log.reports <= s'.log.reports && s'.log.offered == s.log.offered
  {
    if a.RunMaster? && !s.master.Join? { MasterSendsOnce(s.master, s.sh.qDone < |s.workers|); }
    if a.RunWorker? { LogMoves(s.workers[a.w], s.log, a.outcome); }
    hide WorkerNext, WorkerShared, WorkerLog, WorkerCode, ManagerNext, ManagerShared, ManagerCode, MasterGo,
      MasterShared, MasterCode, SignalWorkers, SignalManagers, MakeReport;
  }

  lemma {:induction false} RunSendsOnce(s: State, actions: seq<Action>, t: State)
    requires AllInSession(actions) && Exec(s, actions) == Some(t) && !t.aborted
    ensures |t.log.reports| + Unsent(t.master) == |s.log.reports| + Unsent(s.master)
    ensures s.log.reports <= t.log.reports && t.log.offered == s.log.offered
  {
    hide Step, Unsent;
    if actions != [] {
      var most := actions[..|actions| - 1];
      var u := Exec(s, most).value;
      LiveBeforeStep(u, actions[|actions| - 1], t);
      RunSendsOnce(s, most, u);
      StepSendsOnce(u, actions[|actions| - 1], t);
    }
  }

  /** Runs continue runs. */
  lemma {:induction false} ExecTrans(s: State, xs: seq<Action>, u: State, ys: seq<Action>, t: State)
    requires Exec(s, xs) == Some(u) && Exec(u, ys) == Some(t)
    ensures Exec(s, xs + ys) == Some(t)
  {
    hide Step;
    if ys == [] {
      assert xs + ys == xs;
    } else {
      var k := |ys| - 1;
      assert (xs + ys)[..|xs| + k] == xs + ys[..k];
      ExecTrans(s, xs, u, ys[..k], Exec(u, ys[..k]).value);
    }
  }

  lemma ReachableTrans(s: State, n: nat, actions: seq<Action>, t: State)
    requires Reachable(s, n) && Exec(s, actions) == Some(t)
    ensures Reachable(t, n)
  {
    var s0, xs :| Init(s0, n) && Exec(s0, xs) == Some(s);
    ExecTrans(s0, xs, s, actions, t);
  }

  /**
   A session with one worker, from the clearing of the acknowledgement on.  It gets back to the accept
   if and only if the worker was not waiting for the last acknowledgement then and no transfer hangs; and
   then it has sent exactly one report, the exact one, and every entry offered was finished or dropped,
   and below `FIRST_DROP` entries every one was finished.
   */
  lemma OneWorkerSessionCompletes(s: State, s': State, actions: seq<Action>, t: State)
    requires Reachable(s, 1) && s.master == Closing(ClearAck) && Step(s, RunMaster) == Some(s')
    requires AllInSession(actions) && Exec(s', actions) == Some(t) && !CanMove(t)
    ensures !t.aborted
    ensures t.master == Accept <==>
      (forall i :: 0 <= i < |s.workers| ==> !s.workers[i].pc.Acking?) && !AnyHung(t.workers)
    ensures t.master == Accept ==>
              && t.log.reports == s.log.reports + [ReportOf(t.log.fetched)]
              && Describes(ReportOf(t.log.fetched), t.log.fetched)
              && t.log.offered == s.log.offered == t.log.finished + t.log.dropped
              && (|s.log.offered| < FIRST_DROP ==> t.log.finished == s.log.offered)
  {
    hide Reachable, Inv, Step, CanMove, ReportOf, Exec, AnyHung;
    ClearingReaches(s, s');
    ReachableTrans(s, 1, [RunMaster], s');
    ReachableTrans(s', 1, actions, t);
    OneWorkerNeverAborts(s);
    OneWorkerNeverAborts(t);
    ClearingDecidesTheEnd(s, 1, s', actions, t);
    ReportSays(t.log.fetched);
    hide Describes;
    if t.master == Accept {
      OneWorkerReports(s, s', actions, t);
    }
  }

  lemma OneWorkerReports(s: State, s': State, actions: seq<Action>, t: State)
    requires s.master == Closing(ClearAck) && Step(s, RunMaster) == Some(s') && !s.aborted
    requires Reachable(t, 1) && !t.aborted && AllInSession(actions) && Exec(s', actions) == Some(t)
      && t.master == Accept
    ensures t.log.reports == s.log.reports + [ReportOf(t.log.fetched)]
    ensures t.log.offered == s.log.offered == t.log.finished + t.log.dropped
    ensures |s.log.offered| < FIRST_DROP ==> t.log.finished == s.log.offered
  {
    hide Reachable, Inv, Step, ReportOf, Exec;
    ClearingDoesNotAbort(s, s');
    StepSendsOnce(s, RunMaster, s');
    RunSendsOnce(s', actions, t);
    ReachableInv(t, 1);
    InvReport(t);
    QuietFinishesAll(t);
  }

  lemma ClearingReaches(s: State, s': State)
    requires Step(s, RunMaster) == Some(s')
    ensures Exec(s, [RunMaster]) == Some(s')
  {
    hide Step;
    assert [RunMaster][..0] == [];
    assert Exec(s, []) == Some(s);
  }

  lemma QuietFinishesAll(s: State)
    requires Inv(s) && s.master == Accept
    ensures s.log.offered == s.log.finished + s.log.dropped
    ensures |s.log.offered| < FIRST_DROP ==> s.log.finished == s.log.offered
  {
    forall j | 0 <= j < |s.managers| ensures Todo(s.managers[j]) == multiset{} {
      assert ExitedOk(s.managers[j]);
    }
    PoolEmpty(s.managers, Todo);
    PoolEmpty(s.workers, Held);
    assert MasterOk(s.master, s.sh);
    hide ProgressInv, StatsInv, ReportInv;
  }
}
