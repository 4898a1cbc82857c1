/**
 A mirror server with one worker never pops an empty queue, although the pop is not guarded
 (worker.cpp:67-93): each manager keeps the full mutex from its push until it lowers the empty
 flag (mirror_manager.cpp:132-161), so the worker can take at most one entry in between.
 */
module MirrorSolo {
  import opened MirrorModel
  import opened Threads
  import opened MirrorLocks
  import opened MirrorBarrier
  import opened MirrorFlags
  import opened MirrorProgress

  /** Has popped and does not yet own the full mutex. */
  predicate Ahead(pc: WorkerPc) {
    pc.Popping? && (pc.pop == SetEmpty || pc.pop == UnlockRw || pc.pop == UnlockE || pc.pop == LockF)
  }

  /** A worker on its way to the pop saw the empty flag lowered, and it is still lowered. */
  predicate Committed(pc: WorkerPc, sh: Shared) {
    && (pc == Popping(LockRw) || pc == Popping(Pop) ==> !sh.empty && !sh.done)
    && (pc == Waiting(Branch) ==> !sh.empty || sh.done)
  }

  /** Enough entries behind a lowered empty flag, counting the one that is not published yet. */
  predicate Backed(pc: WorkerPc, unpublished: bool, sh: Shared) {
    if unpublished then
      |sh.q| >= 1 && (!sh.empty && !Ahead(pc) ==> |sh.q| >= 2)
    else
      !sh.empty && pc != Popping(SetEmpty) ==> |sh.q| >= 1
  }

  /** `_var_init` has raised the empty flag and has not yet lowered the done flag. */
  predicate EmptyIsReset(pc: MasterPc) {
    pc.Resetting? && (pc == Resetting(ResetEmpty, ResetDrop) || pc.what == ResetDone)
  }

  ghost predicate SoloInv(s: State) {
    && |s.workers| == 1
    && Committed(s.workers[0].pc, s.sh)
    && (!s.sh.done ==> Backed(s.workers[0].pc, AnyUnpublished(s.managers), s.sh))
    && (EmptyIsReset(s.master) ==> s.sh.empty)
  }

  lemma SoloInit(s: State)
    requires Init(s, 1)
    ensures SoloInv(s)
  {
  }

  /** The unguarded pop finds an entry. */
  lemma SoloPopFinds(s: State)
    requires SoloInv(s) && s.workers[0].pc == Popping(Pop)
    ensures s.sh.q != []
  {
  }

  lemma WorkerGoes(w: Worker, sh: Shared, outcome: NetResult)
    ensures var pc' := WorkerNext(w, sh, outcome).pc;
            && (pc' == Popping(LockRw) ==> w.pc == Waiting(Branch) && !sh.done)
            && (pc' == Popping(Pop) ==> w.pc == Popping(LockRw))
            && (pc' == Waiting(Branch) ==> w.pc == Waiting(TestE) && (!sh.empty || sh.done))
            && (pc' == Popping(SetEmpty) <==> w.pc == Popping(Pop))
            && (Ahead(w.pc) ==> Ahead(pc') || w.pc == Popping(LockF))
            && (Ahead(pc') ==> Ahead(w.pc) || w.pc == Popping(Pop))
  {
  }

  lemma UnpublishedOwns(s: State)
    requires LocksExact(s) && AnyUnpublished(s.managers)
    ensures FMtx in s.locks
  {
    var j :| 0 <= j < |s.managers| && Unpublished(s.managers[j].pc);
    assert FMtx in Owns(s, OfManager(j));
  }

  lemma UnpublishedStays(s: State, i: nat, pick: nat, outcome: NetResult, s': State)
    requires i < |s.workers| && WorkerStep(s, i, pick, outcome) == Some(s') && !s'.aborted
    ensures AnyUnpublished(s'.managers) == AnyUnpublished(s.managers)
  {
    if s.workers[i].pc == Popping(SignalF) { SignalledManagers(s.managers, pick, s'.managers); }
    hide WorkerNext, WorkerShared, WorkerLog, WorkerCode, Blocked, LocksNext, SignalManagers;
    if AnyUnpublished(s.managers) {
      var j :| 0 <= j < |s.managers| && Unpublished(s.managers[j].pc);
      assert Unpublished(s'.managers[j].pc);
    }
    if AnyUnpublished(s'.managers) {
      var j :| 0 <= j < |s'.managers| && Unpublished(s'.managers[j].pc);
      assert Unpublished(s.managers[j].pc);
    }
  }

  lemma WorkerKeepsSolo(s: State, pick: nat, outcome: NetResult, s': State)
    requires FlagInv(s) && SoloInv(s) && WorkerStep(s, 0, pick, outcome) == Some(s')
    ensures !s'.aborted && SoloInv(s')
  {
    var w := s.workers[0];
    if w.pc == Popping(Pop) { SoloPopFinds(s); }
    WorkerEffect(w, s.sh);
    WorkerGoes(w, s.sh, outcome);
    UnpublishedStays(s, 0, pick, outcome, s');
    assert WorkerOk(w, s.master, s.sh);
    if AnyUnpublished(s.managers) { UnpublishedOwns(s); }
    assert w.pc == Popping(LockF) ==> FMtx !in s.locks;
    hide FlagInv, WorkerNext, WorkerShared, WorkerLog, WorkerCode, Blocked, LocksNext, SignalManagers, AnyUnpublished;
  }

  // ---- A manager's step -----------------------------------------------------------------------------

  lemma OnePublisher(s: State, j: nat, k: nat)
    requires LocksExact(s) && j < |s.managers| && k < |s.managers|
    requires Unpublished(s.managers[j].pc) || s.managers[j].pc == Push
    requires Unpublished(s.managers[k].pc)
    ensures j == k
  {
    MutualExclusion(s, OfManager(j), OfManager(k), FMtx);
  }

  lemma PublishingChanges(s: State, j: nat, pick: nat, s': State)
    requires LocksExact(s) && j < |s.managers| && ManagerStep(s, j, pick) == Some(s')
    ensures s.managers[j].pc == Push ==> !AnyUnpublished(s.managers) && AnyUnpublished(s'.managers)
    ensures s.managers[j].pc == ClearEmpty ==> AnyUnpublished(s.managers) && !AnyUnpublished(s'.managers)
    ensures s.managers[j].pc != Push && s.managers[j].pc != ClearEmpty ==>
      AnyUnpublished(s.managers) == AnyUnpublished(s'.managers)
  {
    var g := s.managers[j];
    ManagerMoves(g, s.sh);
    ManagerMoves3(g, s.sh);
    assert s'.managers == s.managers[j := ManagerNext(g, s.sh)];
    hide ManagerStep, ManagerNext;
    if g.pc == Push {
      if AnyUnpublished(s.managers) {
        var k :| 0 <= k < |s.managers| && Unpublished(s.managers[k].pc);
        OnePublisher(s, j, k);
      }
      assert Unpublished(s'.managers[j].pc);
    } else if g.pc == ClearEmpty {
      if AnyUnpublished(s'.managers) {
        var k :| 0 <= k < |s'.managers| && Unpublished(s'.managers[k].pc);
        OnePublisher(s, j, k);
      }
    } else {
      if AnyUnpublished(s.managers) {
        var k :| 0 <= k < |s.managers| && Unpublished(s.managers[k].pc);
        assert Unpublished(s'.managers[k].pc);
      }
      if AnyUnpublished(s'.managers) {
        var k :| 0 <= k < |s'.managers| && Unpublished(s'.managers[k].pc);
        assert Unpublished(s.managers[k].pc);
      }
    }
  }

  lemma ManagerMoves3(g: Manager, sh: Shared)
    ensures Unpublished(ManagerNext(g, sh).pc) ==> Unpublished(g.pc) || g.pc == Push
    ensures g.pc == ClearEmpty ==> !Unpublished(ManagerNext(g, sh).pc)
  {
  }

  lemma ManagerKeepsSolo(s: State, j: nat, pick: nat, s': State)
    requires FlagInv(s) && SoloInv(s) && j < |s.managers| && ManagerStep(s, j, pick) == Some(s')
    requires HasWork(s.managers[j])
    ensures SoloInv(s')
  {
    var g := s.managers[j];
    PublishingChanges(s, j, pick, s');
    ManagerEffect(g, s.sh);
    ManagerMovesInJoin(s, j, pick, s');
    if g.pc == Push && s.workers[0].pc == Popping(SetEmpty) {
      MutualExclusion(s, OfManager(j), OfWorker(0), RwMtx);
    }
    assert g.pc == SignalE ==> s'.workers[0] == s.workers[0] || s'.workers[0].pc == Waiting(WokenE);
    hide FlagInv, ManagerNext, ManagerShared, ManagerLog, ManagerCode, Blocked, LocksNext, SignalWorkers,
      AnyUnpublished;
  }

  // ---- The other steps ------------------------------------------------------------------------------

  lemma MasterKeepsSolo(s: State, s': State)
    requires FlagInv(s) && SoloInv(s) && MasterStep(s) == Some(s')
    ensures SoloInv(s')
  {
    MasterEffect(s.master, s.sh);
    if !s.master.Join? { MasterResets(s.master, s.sh.qDone < |s.workers|); }
    assert MasterOk(s.master, s.sh) && WorkerOk(s.workers[0], s.master, s.sh);
    assert s.master == Closing(SetDone) ==> s.workers[0].pc != Popping(LockRw) && s.workers[0].pc != Popping(Pop) by {
      if s.master == Closing(SetDone) && (s.workers[0].pc == Popping(LockRw) || s.workers[0].pc == Popping(Pop)) {
        MutualExclusion(s, OfMaster, OfWorker(0), EMtx);
      }
    }
    assert s.master.Resetting? ==> s.workers[0].pc.Acking?;
    assert !s.master.Join? ==> !AnyUnpublished(s.managers) by {
      assert !s.master.Join? ==> forall k :: 0 <= k < |s.managers| ==> s.managers[k].pc == Exited;
    }
    hide FlagInv, MasterGo, MasterShared, MasterLog, MasterCode, Blocked, LocksNext, AnyUnpublished;
  }

  lemma MasterResets(pc: MasterPc, more: bool)
    requires !pc.Join?
    ensures EmptyIsReset(MasterGo(pc, more)) ==> EmptyIsReset(pc) || pc == Resetting(ResetEmpty, ResetWrite)
    ensures pc == Resetting(ResetDone, ResetWrite) ==> EmptyIsReset(pc)
  {
  }

  lemma OtherKeepsSolo(s: State, a: Action, s': State)
    requires FlagInv(s) && SoloInv(s) && !a.RunWorker? && !a.RunManager? && !a.RunMaster? && Step(s, a) == Some(s')
    ensures SoloInv(s')
  {
    if a.SpuriousManager? {
      assert forall k :: 0 <= k < |s.managers| ==> Unpublished(s'.managers[k].pc) == Unpublished(s.managers[k].pc);
      if AnyUnpublished(s.managers) {
        var k :| 0 <= k < |s.managers| && Unpublished(s.managers[k].pc);
        assert Unpublished(s'.managers[k].pc);
      }
    }
    if a.NewSession? {
      assert forall k :: 0 <= k < |s.managers| ==> s.managers[k].pc == Exited;
    }
    hide FlagInv;
  }

  /** With one worker no step aborts, and every step keeps the invariant. */
  lemma StepKeepsSolo(s: State, a: Action, s': State)
    requires ProgressInv(s) && SoloInv(s) && Step(s, a) == Some(s')
    ensures !s'.aborted && SoloInv(s')
  {
    match a
    case RunWorker(i, pick, outcome) =>
      hide FlagInv, WorkerStep;
      WorkerKeepsSolo(s, pick, outcome, s');
    case RunManager(j, pick) =>
      ManagerKeepsSolo(s, j, pick, s');
    case RunMaster =>
      hide FlagInv, MasterNext, MasterWorkers;
      MasterKeepsSolo(s, s');
    case _ =>
      OtherKeepsSolo(s, a, s');
  }
}
