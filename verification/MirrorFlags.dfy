/**
 What the flags `_empty` and `_full` of the mirror server mean while the managers may still
 push: each is true only for a reason, and each sleeper's reason still holds when it goes to
 sleep (worker.cpp:67-93, mirror_manager.cpp:131-161).
 */
module MirrorFlags {
  import opened MirrorModel
  import opened Threads
  import opened MirrorLocks
  import opened MirrorBarrier

  /** Between a push and lowering the empty flag. */
  predicate Unpublished(pc: ManagerPc) {
    pc == SetFull || pc == RwUnlock || pc == ELock || pc == ClearEmpty
  }

  /** Between a pop and lowering the full flag. */
  predicate Lowering(pc: WorkerPc) {
    pc.Popping? && pc.pop != LockRw && pc.pop != Pop && pc.pop != SignalF && pc.pop != UnlockF
  }

  predicate AnyUnpublished(gs: seq<Manager>) {
    exists j :: 0 <= j < |gs| && Unpublished(gs[j].pc)
  }

  predicate AnyLowering(ws: seq<Worker>) {
    exists i :: 0 <= i < |ws| && Lowering(ws[i].pc)
  }

  /** `_var_init` has lowered the full flag and has not yet lowered the done flag. */
  predicate FullIsReset(pc: MasterPc) {
    pc.Resetting? && (pc == Resetting(ResetFull, ResetDrop) || pc.what == ResetEmpty || pc.what == ResetDone)
  }

  /** The empty flag: raised only over an empty queue or an entry not yet published. */
  ghost predicate EmptyFlag(s: State) {
    !s.sh.done && s.sh.empty ==> s.sh.q == [] || AnyUnpublished(s.managers)
  }

  /** The full flag: raised only over a full queue or a pop that has not lowered it yet. */
  ghost predicate FullFlag(s: State) {
    && |s.sh.q| <= CAPACITY
    && (!s.sh.done && s.sh.full ==> |s.sh.q| == CAPACITY || AnyLowering(s.workers))
    && (FullIsReset(s.master) ==> !s.sh.full)
  }

  /** A thread about to sleep still has its reason, since it holds the mutex of the flag. */
  predicate WorkerWaits(w: Worker, sh: Shared) {
    && (w.pc == Waiting(WaitE) ==> sh.empty && !sh.done)
    && (w.pc == Acking(WaitA) ==> !sh.ack)
  }

  ghost predicate Waits(s: State) {
    && (forall i :: 0 <= i < |s.workers| ==> WorkerWaits(s.workers[i], s.sh))
    && (forall j :: 0 <= j < |s.managers| && s.managers[j].pc == FWait ==> s.sh.full)
    && (s.master == Collecting(QWait) ==> s.sh.qDone < |s.workers|)
  }

  ghost predicate FlagInv(s: State) {
    BarrierInv(s) && EmptyFlag(s) && FullFlag(s) && Waits(s)
  }

  lemma FlagInit(s: State, n: nat)
    requires Init(s, n)
    ensures FlagInv(s)
  {
    BarrierInit(s, n);
  }

  // ---- What each thread's step does to the flags and the queue ------------------------------------

  lemma WorkerEffect(w: Worker, sh: Shared)
    ensures var sh' := WorkerShared(w, sh);
            && sh'.empty == (if w.pc == Popping(SetEmpty) then sh.q == [] else sh.empty)
            && sh'.full == (if w.pc == Popping(ClearFull) then false else sh.full)
            && sh'.q == (if (w.pc == Popping(Pop) || w.pc == Draining(TryPop)) && sh.q != [] then sh.q[1..] else sh.q)
            && sh'.done == sh.done && sh'.ack == sh.ack
  {
    WorkerOps(w.pc);
    hide WorkerCode;
  }

  lemma WorkerMoves(w: Worker, sh: Shared, outcome: NetResult)
    ensures var pc' := WorkerNext(w, sh, outcome).pc;
            && (Lowering(w.pc) ==> Lowering(pc') || w.pc == Popping(ClearFull))
            && (w.pc == Popping(Pop) ==> pc' == Popping(SetEmpty))
            && (pc' == Waiting(WaitE) ==> (w.pc == Waiting(TestE) && sh.empty && !sh.done))
            && (pc' == Acking(WaitA) ==> (w.pc == Acking(TestA) && !sh.ack))
  {
  }

  lemma ManagerEffect(g: Manager, sh: Shared)
    ensures var sh' := ManagerShared(g, sh);
            && sh'.empty == (if g.pc == ClearEmpty then false else sh.empty)
            && sh'.full == (if g.pc == SetFull then |sh.q| == CAPACITY else sh.full)
            && sh'.q == (if g.pc == Push && g.todo != [] && |sh.q| != CAPACITY then sh.q + [g.todo[0]] else sh.q)
            && sh'.done == sh.done && sh'.ack == sh.ack && sh'.qDone == sh.qDone
  {
  }

  lemma ManagerMoves(g: Manager, sh: Shared)
    ensures var pc' := ManagerNext(g, sh).pc;
            && (Unpublished(g.pc) ==> Unpublished(pc') || g.pc == ClearEmpty)
            && (g.pc == Push ==> pc' == SetFull)
            && (pc' == FWait ==> g.pc == FTest && sh.full)
            && (g.pc == FWait ==> pc' == FSleep)
  {
  }

  lemma MasterEffect(pc: MasterPc, sh: Shared)
    ensures var sh' := MasterShared(pc, sh);
            && sh'.empty == (sh.empty || pc == Resetting(ResetEmpty, ResetWrite))
            && sh'.full == (sh.full && pc != Resetting(ResetFull, ResetWrite))
            && sh'.q == sh.q
            && sh'.done == (if pc == Closing(SetDone) then true else if pc == Resetting(ResetDone, ResetWrite)
              then false else sh.done)
            && sh'.ack == (if pc == Closing(ClearAck) then false else if pc == Finishing(SetAck) then true else sh.ack)
            && sh'.qDone == (if pc == Resetting(ResetQDone, ResetWrite) then 0 else sh.qDone)
  {
    MasterOps(pc);
    hide MasterCode;
  }

  lemma MasterMoves(pc: MasterPc, more: bool)
    requires !pc.Join?
    ensures var pc' := MasterGo(pc, more);
            && (FullIsReset(pc') ==> FullIsReset(pc) || pc == Resetting(ResetFull, ResetWrite))
            && (pc == Resetting(ResetDone, ResetWrite) ==> FullIsReset(pc) && Quiet(pc) && FullIsReset(pc'))
            && (pc' == Collecting(QWait) ==> pc == Collecting(QTest) && more)
  {
  }

  // ---- A worker's step --------------------------------------------------------------------------

  lemma SignalledManagers(gs: seq<Manager>, pick: nat, hs: seq<Manager>)
    requires SignalManagers(gs, pick) == Some(hs)
    ensures |hs| == |gs|
    ensures forall j :: 0 <= j < |gs| ==> hs[j] == gs[j] || (gs[j].pc == FSleep && hs[j] == gs[j].(pc := FWoken))
  {
  }

  lemma WorkerKeepsFlags(s: State, i: nat, pick: nat, outcome: NetResult, s': State)
    requires FlagInv(s) && i < |s.workers| && WorkerStep(s, i, pick, outcome) == Some(s') && !s'.aborted
    ensures EmptyFlag(s') && FullFlag(s')
  {
    var w := s.workers[i];
    WorkerEffect(w, s.sh);
    WorkerMoves(w, s.sh, outcome);
    assert WorkerOk(w, s.master, s.sh);
    StillLowering(s.workers, i, WorkerNext(w, s.sh, outcome));
    hide BarrierInv, Waits, WorkerNext, WorkerShared, WorkerLog, WorkerCode, Blocked, LocksNext, AnyLowering;
    if AnyUnpublished(s.managers) {
      var j :| 0 <= j < |s.managers| && Unpublished(s.managers[j].pc);
      assert s'.managers[j] == s.managers[j];
    }
    hide AnyUnpublished;
  }

  lemma StillLowering(ws: seq<Worker>, i: nat, w: Worker)
    requires i < |ws|
    ensures AnyLowering(ws) && (Lowering(ws[i].pc) ==> Lowering(w.pc)) ==> AnyLowering(ws[i := w])
    ensures Lowering(w.pc) ==> AnyLowering(ws[i := w])
  {
    var vs := ws[i := w];
    if AnyLowering(ws) && (Lowering(ws[i].pc) ==> Lowering(w.pc)) {
      var k :| 0 <= k < |ws| && Lowering(ws[k].pc);
      assert Lowering(vs[k].pc);
    }
    if Lowering(w.pc) { assert Lowering(vs[i].pc); }
  }

  lemma WorkerKeepsWorkerWaits(s: State, i: nat, pick: nat, outcome: NetResult, s': State)
    requires FlagInv(s) && i < |s.workers| && WorkerStep(s, i, pick, outcome) == Some(s') && !s'.aborted
    ensures forall k :: 0 <= k < |s'.workers| ==> WorkerWaits(s'.workers[k], s'.sh)
  {
    var w := s.workers[i];
    WorkerEffect(w, s.sh);
    WorkerMoves(w, s.sh, outcome);
    hide WorkerNext, WorkerShared, WorkerLog, WorkerCode, Blocked, LocksNext, WorkerOk, MasterOk, SignalManagers,
      EmptyFlag, FullFlag, Joined, LocksExact;
    forall k | 0 <= k < |s.workers| ensures WorkerWaits(s'.workers[k], s'.sh) {
      if k != i && s.workers[k].pc == Waiting(WaitE) && w.pc == Popping(SetEmpty) {
        MutualExclusion(s, OfWorker(i), OfWorker(k), EMtx);
      }
    }
  }

  lemma WorkerKeepsWaits(s: State, i: nat, pick: nat, outcome: NetResult, s': State)
    requires FlagInv(s) && i < |s.workers| && WorkerStep(s, i, pick, outcome) == Some(s') && !s'.aborted
    ensures Waits(s')
  {
    var w := s.workers[i];
    WorkerKeepsWorkerWaits(s, i, pick, outcome, s');
    WorkerEffect(w, s.sh);
    WorkerLeaves(w, s.sh);
    if w.pc == Popping(SignalF) { SignalledManagers(s.managers, pick, s'.managers); }
    hide WorkerNext, WorkerShared, WorkerLog, WorkerCode, Blocked, LocksNext, WorkerOk, MasterOk, SignalManagers,
      EmptyFlag, FullFlag, Joined, LocksExact, WorkerWaits;
    forall j | 0 <= j < |s.managers| && s'.managers[j].pc == FWait ensures s'.sh.full {
      if w.pc == Popping(ClearFull) {
        MutualExclusion(s, OfWorker(i), OfManager(j), FMtx);
      }
    }
    if s'.master == Collecting(QWait) && w.pc == Telling(WriteQ) {
      MutualExclusion(s, OfWorker(i), OfMaster, QDoneMtx);
    }
  }

  // ---- A manager's step -------------------------------------------------------------------------

  lemma ManagerKeepsFlags(s: State, j: nat, pick: nat, s': State)
    requires FlagInv(s) && j < |s.managers| && ManagerStep(s, j, pick) == Some(s')
    ensures EmptyFlag(s') && FullFlag(s')
  {
    var g := s.managers[j];
    ManagerEffect(g, s.sh);
    ManagerMoves(g, s.sh);
    hide BarrierInv, ManagerNext, ManagerShared, ManagerLog, ManagerCode, Blocked, LocksNext;
    if AnyUnpublished(s.managers) {
      var k :| 0 <= k < |s.managers| && Unpublished(s.managers[k].pc);
      assert k != j ==> s'.managers[k] == s.managers[k];
    }
    assert s'.managers[j] == ManagerNext(g, s.sh);
    if AnyLowering(s.workers) {
      var i :| 0 <= i < |s.workers| && Lowering(s.workers[i].pc);
      assert s'.workers[i] == s.workers[i];
    }
  }

  lemma ManagerKeepsWorkerWaits(s: State, j: nat, pick: nat, s': State)
    requires FlagInv(s) && j < |s.managers| && ManagerStep(s, j, pick) == Some(s')
    ensures forall k :: 0 <= k < |s'.workers| ==> WorkerWaits(s'.workers[k], s'.sh)
  {
    var g := s.managers[j];
    ManagerEffect(g, s.sh);
    if g.pc == SignalE { SignalledWorkers(s.workers, pick, s'.workers); }
    hide ManagerNext, ManagerShared, ManagerLog, ManagerCode, Blocked, LocksNext, WorkerOk, MasterOk, SignalWorkers,
      EmptyFlag, FullFlag, Joined, LocksExact;
    forall k | 0 <= k < |s.workers| ensures WorkerWaits(s'.workers[k], s'.sh) {
      if s.workers[k].pc == Waiting(WaitE) && g.pc == ClearEmpty {
        MutualExclusion(s, OfManager(j), OfWorker(k), EMtx);
      }
    }
  }

  lemma ManagerKeepsWaits(s: State, j: nat, pick: nat, s': State)
    requires FlagInv(s) && j < |s.managers| && ManagerStep(s, j, pick) == Some(s')
    ensures Waits(s')
  {
    var g := s.managers[j];
    ManagerEffect(g, s.sh);
    ManagerMoves(g, s.sh);
    ManagerMovesInJoin(s, j, pick, s');
    if g.pc == SignalE { SignalledWorkers(s.workers, pick, s'.workers); }
    ManagerKeepsWorkerWaits(s, j, pick, s');
    hide ManagerNext, ManagerShared, ManagerLog, ManagerCode, Blocked, LocksNext, WorkerOk, MasterOk, SignalWorkers,
      EmptyFlag, FullFlag, Joined, LocksExact, WorkerWaits;
    forall k | 0 <= k < |s.managers| && s'.managers[k].pc == FWait ensures s'.sh.full {
      if k != j && g.pc == SetFull {
        MutualExclusion(s, OfManager(j), OfManager(k), FMtx);
      }
    }
  }

  // ---- The master's step ------------------------------------------------------------------------

  lemma MasterKeepsFlags(s: State, s': State)
    requires FlagInv(s) && MasterStep(s) == Some(s')
    ensures EmptyFlag(s') && FullFlag(s')
  {
    var pc := s.master;
    MasterEffect(pc, s.sh);
    if !pc.Join? { MasterMoves(pc, s.sh.qDone < |s.workers|); }
    assert MasterOk(pc, s.sh);
    hide BarrierInv, MasterGo, MasterShared, MasterLog, MasterCode, Blocked, LocksNext;
    if AnyLowering(s.workers) {
      var k :| 0 <= k < |s.workers| && Lowering(s.workers[k].pc);
      assert s'.workers[k].pc == s.workers[k].pc;
    }
  }

  lemma MasterKeepsWaits(s: State, s': State)
    requires FlagInv(s) && MasterStep(s) == Some(s')
    ensures Waits(s')
  {
    var pc := s.master;
    MasterEffect(pc, s.sh);
    if !pc.Join? { MasterMoves(pc, s.sh.qDone < |s.workers|); }
    hide MasterGo, MasterShared, MasterLog, MasterCode, Blocked, LocksNext, WorkerOk, MasterOk, EmptyFlag, FullFlag,
      LocksExact;
    forall k | 0 <= k < |s.workers| ensures WorkerWaits(s'.workers[k], s'.sh) {
      if s.workers[k].pc == Waiting(WaitE) && pc == Closing(SetDone) {
        MutualExclusion(s, OfMaster, OfWorker(k), EMtx);
      }
      if s.workers[k].pc == Acking(WaitA) && pc == Finishing(SetAck) {
        MutualExclusion(s, OfMaster, OfWorker(k), AckMtx);
      }
    }
  }

  // ---- Every step ---------------------------------------------------------------------------------

  lemma OtherKeepsFlags(s: State, a: Action, s': State)
    requires FlagInv(s) && !a.RunWorker? && !a.RunManager? && !a.RunMaster? && Step(s, a) == Some(s')
    ensures EmptyFlag(s') && FullFlag(s')
  {
    assert MasterOk(s.master, s.sh);
    hide BarrierInv, Waits;
    if AnyLowering(s.workers) {
      var k :| 0 <= k < |s.workers| && Lowering(s.workers[k].pc);
      assert s'.workers[k].pc == s.workers[k].pc;
    }
    hide AnyLowering;
    if AnyUnpublished(s.managers) && !a.NewSession? {
      var j :| 0 <= j < |s.managers| && Unpublished(s.managers[j].pc);
      assert s'.managers[j].pc == s.managers[j].pc;
    }
  }

  lemma OtherKeepsWaits(s: State, a: Action, s': State)
    requires FlagInv(s) && !a.RunWorker? && !a.RunManager? && !a.RunMaster? && Step(s, a) == Some(s')
    ensures Waits(s')
  {
    hide BarrierInv, EmptyFlag, FullFlag;
  }

  /** Every step that does not abort keeps what the flags mean. */
  lemma StepKeepsFlags(s: State, a: Action, s': State)
    requires FlagInv(s) && Step(s, a) == Some(s') && !s'.aborted
    ensures FlagInv(s')
  {
    StepKeepsBarrier(s, a, s');
    hide BarrierInv, EmptyFlag, FullFlag, Waits, WorkerStep, ManagerStep, MasterStep, NewSessionStep;
    match a
    case RunWorker(i, pick, outcome) =>
      WorkerKeepsFlags(s, i, pick, outcome, s');
      WorkerKeepsWaits(s, i, pick, outcome, s');
    case RunManager(j, pick) =>
      ManagerKeepsFlags(s, j, pick, s');
      ManagerKeepsWaits(s, j, pick, s');
    case RunMaster =>
      MasterKeepsFlags(s, s');
      MasterKeepsWaits(s, s');
    case _ =>
      OtherKeepsFlags(s, a, s');
      OtherKeepsWaits(s, a, s');
  }
}
