/**
 Progress in the mirror server: no wakeup is lost.  Whoever sleeps is answered by a thread that
 is awake, or by work that is on its way (mirror_manager.cpp:131-161, worker.cpp:67-93 and
 164-178).
 */
module MirrorProgress {
  import opened MirrorModel
  import opened Threads
  import opened MirrorBarrier
  import opened MirrorFlags

  /** Between a pop and the signal on the full condition. */
  predicate Signalling(pc: WorkerPc) {
    Lowering(pc) || pc == Popping(SignalF)
  }

  /** Awake in the push section, before the push. */
  predicate Ready(pc: ManagerPc) {
    pc == FWoken || pc == FTest || pc == FWait || pc == RwLock || pc == Push
  }

  /** Between a push and the signal on the empty condition. */
  predicate Publishing(pc: ManagerPc) {
    Unpublished(pc) || pc == SignalE
  }

  predicate AnySignalling(ws: seq<Worker>) {
    exists i :: 0 <= i < |ws| && Signalling(ws[i].pc)
  }

  predicate AnyReady(gs: seq<Manager>) {
    exists j :: 0 <= j < |gs| && Ready(gs[j].pc)
  }

  predicate AnyPublishing(gs: seq<Manager>) {
    exists j :: 0 <= j < |gs| && Publishing(gs[j].pc)
  }

  /** Some worker is not asleep on the empty condition. */
  predicate AnyAwake(ws: seq<Worker>) {
    exists i :: 0 <= i < |ws| && ws[i].pc != Waiting(SleepE)
  }

  predicate AnyTelling(ws: seq<Worker>) {
    exists i :: 0 <= i < |ws| && ws[i].pc == Telling(SignalQ)
  }

  predicate HasWork(g: Manager) {
    g.pc == FLock || g.pc == FSleep || Ready(g.pc) ==> g.todo != []
  }

  /**
   A sleeping manager: there is an entry to pop, a signal on its way, or another manager about to
   push.
   */
  ghost predicate ManagersWoken(s: State) {
    && (forall j :: 0 <= j < |s.managers| ==> HasWork(s.managers[j]))
    && (AnyAsleepF(s.managers) ==> s.sh.q != [] || AnySignalling(s.workers) || AnyReady(s.managers))
  }

  /** An entry in the queue while managers may push: a signal is on its way or some worker is awake. */
  ghost predicate WorkersWoken(s: State) {
    !s.sh.done && s.sh.q != [] ==> AnyPublishing(s.managers) || AnyAwake(s.workers)
  }

  /** After a broadcast nobody sleeps on its condition; a sleeping master will be signalled. */
  ghost predicate BroadcastsWork(s: State) {
    && (s.sh.done && s.master != Closing(BroadcastE) ==> forall i :: 0 <= i < |s.workers| ==>
      s.workers[i].pc != Waiting(SleepE))
    && (s.sh.ack && s.master != Finishing(BroadcastA) ==> forall i :: 0 <= i < |s.workers| ==>
      s.workers[i].pc != Acking(SleepA))
    && (s.master == Collecting(QSleep) ==> s.sh.qDone < |s.workers| || AnyTelling(s.workers))
  }

  ghost predicate ProgressInv(s: State) {
    FlagInv(s) && ManagersWoken(s) && WorkersWoken(s) && BroadcastsWork(s)
  }

  lemma ProgressInit(s: State, n: nat)
    requires Init(s, n)
    ensures ProgressInv(s)
  {
    FlagInit(s, n);
  }

  // ---- Moves -----------------------------------------------------------------------------------------

  lemma WorkerSteps(w: Worker, sh: Shared, outcome: NetResult)
    ensures var pc' := WorkerNext(w, sh, outcome).pc;
            && (Signalling(w.pc) ==> Signalling(pc') || w.pc == Popping(SignalF))
            && (pc' == Waiting(SleepE) ==> w.pc == Waiting(WaitE) || w.pc == Waiting(SleepE))
            && (pc' == Acking(SleepA) ==> w.pc == Acking(WaitA) || w.pc == Acking(SleepA))
            && (w.pc == Telling(WriteQ) ==> pc' == Telling(SignalQ))
  {
  }

  lemma ManagerSteps(g: Manager, sh: Shared)
    requires HasWork(g) && g.pc != FSleep && g.pc != Exited
    ensures var g' := ManagerNext(g, sh);
            && HasWork(g')
            && (Ready(g.pc) ==> Ready(g'.pc) || g.pc == Push || g.pc == FWait)
            && (Publishing(g.pc) ==> Publishing(g'.pc) || g.pc == SignalE)
            && (g'.pc == FSleep ==> g.pc == FWait)
            && (g.pc == Push ==> Publishing(g'.pc) && ManagerShared(g, sh).q != [])
            && (g.pc == SignalE ==> g'.pc == EUnlock)
  {
  }

  // ---- A worker's step --------------------------------------------------------------------------

  /** With no manager asleep before a worker's step, none is after it; a signal wakes one if any is. */
  lemma SignalWakesManager(gs: seq<Manager>, pick: nat, hs: seq<Manager>)
    requires SignalManagers(gs, pick) == Some(hs) && AnyAsleepF(hs)
    ensures AnyReady(hs)
  {
    SignalledManagers(gs, pick, hs);
    if pick < |gs| && gs[pick].pc == FSleep {
      assert Ready(hs[pick].pc);
    }
  }

  lemma WorkerKeepsManagersWoken(s: State, i: nat, pick: nat, outcome: NetResult, s': State)
    requires ProgressInv(s) && i < |s.workers| && WorkerStep(s, i, pick, outcome) == Some(s') && !s'.aborted
    ensures ManagersWoken(s')
  {
    var w := s.workers[i];
    WorkerEffect(w, s.sh);
    WorkerMoves(w, s.sh, outcome);
    WorkerSteps(w, s.sh, outcome);
    assert WorkerOk(w, s.master, s.sh) && MasterOk(s.master, s.sh);
    if w.pc == Popping(SignalF) {
      SignalledManagers(s.managers, pick, s'.managers);
      if AnyAsleepF(s'.managers) { SignalWakesManager(s.managers, pick, s'.managers); }
      hide BarrierInv, FlagInv, WorkerNext, WorkerShared, WorkerLog, WorkerCode, Blocked, LocksNext, WorkersWoken,
        BroadcastsWork;
    } else if AnyAsleepF(s'.managers) {
      var a :| 0 <= a < |s.managers| && s.managers[a].pc == FSleep;
      assert !s.sh.done && w.pc != Draining(TryPop);
      hide BarrierInv, FlagInv, WorkerNext, WorkerShared, WorkerLog, WorkerCode, Blocked, LocksNext, WorkersWoken,
        BroadcastsWork;
      StillSignalling(s.workers, i, WorkerNext(w, s.sh, outcome));
      hide AnySignalling, AnyReady;
    }
  }

  lemma StillSignalling(ws: seq<Worker>, i: nat, w: Worker)
    requires i < |ws|
    ensures AnySignalling(ws) && (Signalling(ws[i].pc) ==> Signalling(w.pc)) ==> AnySignalling(ws[i := w])
    ensures Signalling(w.pc) ==> AnySignalling(ws[i := w])
  {
    var vs := ws[i := w];
    if AnySignalling(ws) && (Signalling(ws[i].pc) ==> Signalling(w.pc)) {
      var k :| 0 <= k < |ws| && Signalling(ws[k].pc);
      assert Signalling(vs[k].pc);
    }
    if Signalling(w.pc) { assert Signalling(vs[i].pc); }
  }

  lemma WorkerKeepsWorkersWoken(s: State, i: nat, pick: nat, outcome: NetResult, s': State)
    requires ProgressInv(s) && i < |s.workers| && WorkerStep(s, i, pick, outcome) == Some(s') && !s'.aborted
    ensures WorkersWoken(s')
  {
    var w := s.workers[i];
    WorkerEffect(w, s.sh);
    WorkerSteps(w, s.sh, outcome);
    assert w.pc != Waiting(SleepE);
    hide BarrierInv, WorkerNext, WorkerShared, WorkerLog, WorkerCode, Blocked, LocksNext, ManagersWoken,
      BroadcastsWork, FullFlag;
    assert s'.workers[i] == WorkerNext(w, s.sh, outcome);
    if w.pc == Waiting(WaitE) {
      assert WorkerWaits(w, s.sh);
      if AnyUnpublished(s.managers) {
        var j :| 0 <= j < |s.managers| && Unpublished(s.managers[j].pc);
        assert Publishing(s'.managers[j].pc);
      }
    } else {
      assert s'.workers[i].pc != Waiting(SleepE);
    }
  }

  lemma WorkerKeepsBroadcasts(s: State, i: nat, pick: nat, outcome: NetResult, s': State)
    requires ProgressInv(s) && i < |s.workers| && WorkerStep(s, i, pick, outcome) == Some(s') && !s'.aborted
    ensures BroadcastsWork(s')
  {
    var w := s.workers[i];
    WorkerEffect(w, s.sh);
    WorkerSteps(w, s.sh, outcome);
    WorkerLeaves(w, s.sh);
    assert WorkerWaits(w, s.sh);
    assert w.pc != Waiting(SleepE) && w.pc != Acking(SleepA);
    hide BarrierInv, WorkerNext, WorkerShared, WorkerLog, WorkerCode, Blocked, LocksNext, ManagersWoken, WorkersWoken,
      FullFlag, EmptyFlag;
    assert s'.workers[i] == WorkerNext(w, s.sh, outcome);
    if s'.master == Collecting(QSleep) {
      assert s.master == Collecting(QSleep) && w.pc != Telling(SignalQ);
      if AnyTelling(s.workers) {
        var k :| 0 <= k < |s.workers| && s.workers[k].pc == Telling(SignalQ);
        assert s'.workers[k].pc == Telling(SignalQ);
      } else if w.pc == Telling(WriteQ) {
        assert s'.workers[i].pc == Telling(SignalQ);
      }
    }
  }

  // ---- A manager's step -------------------------------------------------------------------------

  lemma ManagerChanges(s: State, j: nat, pick: nat, s': State)
    requires j < |s.managers| && ManagerStep(s, j, pick) == Some(s')
    ensures s'.managers == s.managers[j := ManagerNext(s.managers[j], s.sh)]
      && s'.sh == ManagerShared(s.managers[j], s.sh)
    ensures |s'.workers| == |s.workers| && forall i :: 0 <= i < |s.workers| && Signalling(s.workers[i].pc) ==>
      Signalling(s'.workers[i].pc)
    ensures s.managers[j].pc != FSleep && s.managers[j].pc != Exited
  {
    if s.managers[j].pc == SignalE { SignalledWorkers(s.workers, pick, s'.workers); }
    hide ManagerNext, ManagerShared, ManagerLog, SignalWorkers;
  }

  lemma ManagerKeepsWork(s: State, j: nat, pick: nat, s': State)
    requires ManagersWoken(s) && j < |s.managers| && ManagerStep(s, j, pick) == Some(s')
    ensures forall k :: 0 <= k < |s'.managers| ==> HasWork(s'.managers[k])
  {
    ManagerChanges(s, j, pick, s');
    ManagerSteps(s.managers[j], s.sh);
    hide ManagerStep, ManagerNext, ManagerShared;
  }

  /** What a manager's step may use of the invariant. */
  lemma ManagerFacts(s: State, j: nat, pick: nat, s': State)
    requires ProgressInv(s) && j < |s.managers| && ManagerStep(s, j, pick) == Some(s')
    ensures ManagersWoken(s) && FullFlag(s) && Waits(s) && !s.sh.done && HasWork(s.managers[j])
  {
    ManagerMovesInJoin(s, j, pick, s');
    assert MasterOk(s.master, s.sh);
    hide ManagerStep;
  }

  lemma ManagerKeepsManagersWoken(s: State, j: nat, pick: nat, s': State)
    requires ProgressInv(s) && j < |s.managers| && ManagerStep(s, j, pick) == Some(s')
    ensures ManagersWoken(s')
  {
    hide ProgressInv, ManagerStep, ManagerNext, ManagerShared;
    var g := s.managers[j];
    ManagerFacts(s, j, pick, s');
    ManagerChanges(s, j, pick, s');
    ManagerKeepsWork(s, j, pick, s');
    ManagerEffect(g, s.sh);
    ManagerSteps(g, s.sh);
    assert s'.managers[j] == ManagerNext(g, s.sh);
    if AnyAsleepF(s'.managers) && s'.sh.q == [] {
      assert g.pc != Push && s.sh.q == [];
      if g.pc == FWait {
        FullMeansLowering(s, j);
        var i :| 0 <= i < |s.workers| && Lowering(s.workers[i].pc);
        assert Signalling(s'.workers[i].pc);
      } else {
        var a :| 0 <= a < |s'.managers| && s'.managers[a].pc == FSleep;
        assert s.managers[a].pc == FSleep;
        if AnySignalling(s.workers) {
          var i :| 0 <= i < |s.workers| && Signalling(s.workers[i].pc);
          assert Signalling(s'.workers[i].pc);
        } else {
          var k :| 0 <= k < |s.managers| && Ready(s.managers[k].pc);
          assert Ready(s'.managers[k].pc);
        }
      }
    }
  }

  lemma FullMeansLowering(s: State, j: nat)
    requires FullFlag(s) && Waits(s) && !s.sh.done && j < |s.managers| && s.managers[j].pc == FWait && s.sh.q == []
    ensures AnyLowering(s.workers)
  {
  }

  lemma ManagerKeepsWorkersWoken(s: State, j: nat, pick: nat, s': State)
    requires ProgressInv(s) && j < |s.managers| && ManagerStep(s, j, pick) == Some(s')
    ensures WorkersWoken(s')
  {
    var g := s.managers[j];
    assert g.pc != FSleep && g.pc != Exited;
    assert |s.workers| >= 1;
    ManagerEffect(g, s.sh);
    ManagerSteps(g, s.sh);
    hide FlagInv, ManagerNext, ManagerShared, ManagerLog, ManagerCode, Blocked, LocksNext, ManagersWoken,
      BroadcastsWork;
    assert s'.managers[j] == ManagerNext(g, s.sh);
    if g.pc == SignalE {
      if pick < |s.workers| && s.workers[pick].pc == Waiting(SleepE) {
        assert s'.workers[pick].pc != Waiting(SleepE);
      } else {
        assert s'.workers[0].pc != Waiting(SleepE);
      }
    } else if Publishing(s'.managers[j].pc) {
    } else if AnyPublishing(s.managers) {
      var k :| 0 <= k < |s.managers| && Publishing(s.managers[k].pc);
      assert s'.managers[k] == s.managers[k];
    }
  }

  lemma ManagerKeepsBroadcasts(s: State, j: nat, pick: nat, s': State)
    requires ProgressInv(s) && j < |s.managers| && ManagerStep(s, j, pick) == Some(s')
    ensures BroadcastsWork(s')
  {
    var g := s.managers[j];
    ManagerEffect(g, s.sh);
    ManagerMovesInJoin(s, j, pick, s');
    assert MasterOk(s.master, s.sh);
    if g.pc == SignalE { SignalledWorkers(s.workers, pick, s'.workers); }
    hide FlagInv, ManagerNext, ManagerShared, ManagerLog, ManagerCode, Blocked, LocksNext, ManagersWoken, WorkersWoken,
      SignalWorkers;
  }

  // ---- The master's step ------------------------------------------------------------------------

  lemma MasterKeepsManagersWoken(s: State, s': State)
    requires ProgressInv(s) && MasterStep(s) == Some(s')
    ensures ManagersWoken(s')
  {
    MasterEffect(s.master, s.sh);
    assert Joined(s.managers, s.master);
    hide FlagInv, MasterGo, MasterShared, MasterLog, MasterCode, Blocked, LocksNext, WorkersWoken, BroadcastsWork;
    if AnySignalling(s.workers) {
      var i :| 0 <= i < |s.workers| && Signalling(s.workers[i].pc);
      assert Signalling(s'.workers[i].pc);
    }
  }

  lemma MasterKeepsWorkersWoken(s: State, s': State)
    requires ProgressInv(s) && MasterStep(s) == Some(s')
    ensures WorkersWoken(s')
  {
    MasterEffect(s.master, s.sh);
    assert MasterOk(s.master, s.sh);
    hide FlagInv, MasterGo, MasterShared, MasterLog, MasterCode, Blocked, LocksNext, ManagersWoken, BroadcastsWork;
    if AnyAwake(s.workers) {
      var i :| 0 <= i < |s.workers| && s.workers[i].pc != Waiting(SleepE);
      assert s'.workers[i].pc != Waiting(SleepE);
    }
  }

  lemma MasterSteps(pc: MasterPc, more: bool)
    requires !pc.Join?
    ensures var pc' := MasterGo(pc, more);
            && (pc == Closing(SetDone) ==> pc' == Closing(BroadcastE))
            && (pc == Finishing(SetAck) ==> pc' == Finishing(BroadcastA))
            && (pc' == Collecting(QSleep) ==> pc == Collecting(QWait) || pc == Collecting(QSleep))
            && (pc == Closing(BroadcastE) || pc == Finishing(BroadcastA) ==> pc' != pc)
  {
  }

  lemma MasterKeepsBroadcasts(s: State, s': State)
    requires ProgressInv(s) && MasterStep(s) == Some(s')
    ensures BroadcastsWork(s')
  {
    MasterEffect(s.master, s.sh);
    if !s.master.Join? { MasterSteps(s.master, s.sh.qDone < |s.workers|); }
    assert MasterOk(s.master, s.sh);
    assert Waits(s);
    hide FlagInv, MasterGo, MasterShared, MasterLog, MasterCode, Blocked, LocksNext, ManagersWoken, WorkersWoken;
  }

  // ---- Every step ---------------------------------------------------------------------------------

  lemma SpuriousWorkerKeepsProgress(s: State, i: nat, s': State)
    requires ProgressInv(s) && SpuriousWorkerStep(s, i) == Some(s')
    ensures ManagersWoken(s') && WorkersWoken(s') && BroadcastsWork(s')
  {
    hide FlagInv;
    if AnySignalling(s.workers) {
      var k :| 0 <= k < |s.workers| && Signalling(s.workers[k].pc);
      assert Signalling(s'.workers[k].pc);
    }
    if AnyAwake(s.workers) {
      var k :| 0 <= k < |s.workers| && s.workers[k].pc != Waiting(SleepE);
      assert s'.workers[k].pc != Waiting(SleepE);
    }
    if AnyTelling(s.workers) {
      var k :| 0 <= k < |s.workers| && s.workers[k].pc == Telling(SignalQ);
      assert s'.workers[k].pc == Telling(SignalQ);
    }
  }

  lemma SpuriousManagerKeepsProgress(s: State, j: nat, s': State)
    requires ProgressInv(s) && SpuriousManagerStep(s, j) == Some(s')
    ensures ManagersWoken(s') && WorkersWoken(s') && BroadcastsWork(s')
  {
    hide FlagInv;
    assert Ready(s'.managers[j].pc);
    if AnyPublishing(s.managers) {
      var k :| 0 <= k < |s.managers| && Publishing(s.managers[k].pc);
      assert Publishing(s'.managers[k].pc);
    }
  }

  lemma HangKeepsProgress(s: State, j: nat, s': State)
    requires ProgressInv(s) && HangManagerStep(s, j) == Some(s')
    ensures ManagersWoken(s') && WorkersWoken(s') && BroadcastsWork(s')
  {
    HangKeepsPromises(s.managers, j, s'.managers[j]);
    hide FlagInv, AnyReady, AnyPublishing, AnyAsleepF, AnyAwake, AnySignalling, AnyTelling;
  }

  /** A manager that is never answered had nothing to do for anybody, and does not wait for room. */
  lemma HangKeepsPromises(gs: seq<Manager>, j: nat, g: Manager)
    requires j < |gs| && gs[j].pc == NextFile && g.pc == Unanswered
    ensures AnyReady(gs) ==> AnyReady(gs[j := g])
    ensures AnyPublishing(gs) ==> AnyPublishing(gs[j := g])
    ensures AnyAsleepF(gs[j := g]) ==> AnyAsleepF(gs)
  {
    var hs := gs[j := g];
    if k :| 0 <= k < |gs| && Ready(gs[k].pc) { assert Ready(hs[k].pc); }
    if k :| 0 <= k < |gs| && Publishing(gs[k].pc) { assert Publishing(hs[k].pc); }
    if k :| 0 <= k < |hs| && hs[k].pc == FSleep { assert gs[k].pc == FSleep; }
  }

  lemma OutsideKeepsProgress(s: State, a: Action, s': State)
    requires ProgressInv(s) && FromOutside(a) && Step(s, a) == Some(s')
    ensures ManagersWoken(s') && WorkersWoken(s') && BroadcastsWork(s')
  {
    hide FlagInv, SpuriousWorkerStep, SpuriousManagerStep, HangManagerStep;
    match a
    case SpuriousWorker(i) => SpuriousWorkerKeepsProgress(s, i, s');
    case SpuriousManager(j) => SpuriousManagerKeepsProgress(s, j, s');
    case HangManager(j) => HangKeepsProgress(s, j, s');
    case _ =>
  }

  lemma NewSessionKeepsProgress(s: State, jobs: seq<seq<Entry>>, s': State)
    requires ProgressInv(s) && NewSessionStep(s, jobs) == Some(s')
    ensures ManagersWoken(s') && WorkersWoken(s') && BroadcastsWork(s')
  {
    assert MasterOk(s.master, s.sh);
    hide FlagInv;
  }

  /** Every step that does not abort keeps every sleeper's promise. */
  lemma StepKeepsProgress(s: State, a: Action, s': State)
    requires ProgressInv(s) && Step(s, a) == Some(s') && !s'.aborted
    ensures ProgressInv(s')
  {
    StepKeepsFlags(s, a, s');
    hide FlagInv, ManagersWoken, WorkersWoken, BroadcastsWork, WorkerStep, ManagerStep, MasterStep, NewSessionStep;
    match a
    case RunWorker(i, pick, outcome) =>
      WorkerKeepsManagersWoken(s, i, pick, outcome, s');
      WorkerKeepsWorkersWoken(s, i, pick, outcome, s');
      WorkerKeepsBroadcasts(s, i, pick, outcome, s');
    case RunManager(j, pick) =>
      ManagerKeepsManagersWoken(s, j, pick, s');
      ManagerKeepsWorkersWoken(s, j, pick, s');
      ManagerKeepsBroadcasts(s, j, pick, s');
    case RunMaster =>
      MasterKeepsManagersWoken(s, s');
      MasterKeepsWorkersWoken(s, s');
      MasterKeepsBroadcasts(s, s');
    case NewSession(jobs) => NewSessionKeepsProgress(s, jobs, s');
    case _ => OutsideKeepsProgress(s, a, s');
  }
}
