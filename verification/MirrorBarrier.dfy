/**
 The session barrier of the mirror server: what the master may rely on when it leaves its
 wait, resets the shared variables and acknowledges (mirror_server.cpp:198-268 against
 worker.cpp:121-178).
 */
module MirrorBarrier {
  import opened Folds
  import opened MirrorModel
  import opened Threads
  import opened MirrorLocks

  // ---- Where the master is ------------------------------------------------------------------

  /** From lowering the acknowledgement to raising it again. */
  predicate AckIsLow(pc: MasterPc) {
    match pc
    case Accept | Join(_) => false
    case Closing(at) => at != AckLock && at != ClearAck
    case Collecting(_) | Resetting(_, _) => true
    case Finishing(at) => at == AckLock2 || at == SetAck
  }

  /** From raising the done flag to lowering it in `_var_init`. */
  predicate DoneIsHigh(pc: MasterPc) {
    match pc
    case Accept | Join(_) | Finishing(_) => false
    case Closing(at) => at == BroadcastE || at == DoneUnlock
    case Collecting(_) => true
    case Resetting(r, at) => r == ResetFull || r == ResetEmpty || (r == ResetDone && at != ResetDrop)
  }

  /** From raising the done flag to resetting `_q_done`. */
  predicate Counting(pc: MasterPc) {
    match pc
    case Resetting(r, at) =>
      r == ResetFull || r == ResetEmpty || r == ResetDone || (r == ResetQDone && at != ResetDrop)
    case _ => DoneIsHigh(pc)
  }

  /** From leaving the wait for the workers to raising the acknowledgement. */
  predicate PastBarrier(pc: MasterPc) {
    match pc
    case Accept | Join(_) | Closing(_) => false
    case Collecting(at) => at == QUnlock || at == Send
    case Resetting(_, _) => true
    case Finishing(at) => at == AckLock2 || at == SetAck
  }

  /** From leaving the wait to the next accept: there is nothing left to do. */
  predicate Quiet(pc: MasterPc) {
    PastBarrier(pc) || pc.Finishing? || pc == Accept
  }

  // ---- Where a worker is ----------------------------------------------------------------------

  /** Waiting for the acknowledgement. */
  predicate Parked(pc: WorkerPc) {
    pc.Acking? && pc.ack != UnlockA
  }

  /** Past the branch that only the done flag opens. */
  predicate SeenDone(pc: WorkerPc) {
    pc.Draining? || pc.Telling? || (pc.Fetching? && pc.loop == Drain)
  }

  /** Between a pop and the end of the fetch. */
  predicate Carrying(pc: WorkerPc) {
    match pc
    case Waiting(_) | Telling(_) | Acking(_) => false
    case Popping(at) => at != LockRw && at != Pop
    case Fetching(_, _) => true
    case Draining(at) => at == UnlockRw2 || at == TestEnd
  }

  /** This worker found the queue empty with the done flag raised. */
  predicate FoundEmpty(w: Worker) {
    w.pc.Telling? || w.counted || (w.pc.Draining? && (w.pc.drain == UnlockRw2 || w.pc.drain == TestEnd) && w.item.None?)
  }

  function CountBit(w: Worker): int {
    if w.counted then 1 else 0
  }

  // ---- The invariant -----------------------------------------------------------------------------

  predicate WorkerOk(w: Worker, master: MasterPc, sh: Shared) {
    && (SeenDone(w.pc) ==> sh.done)
    && (w.counted ==> Counting(master) && (Parked(w.pc) || w.pc == Telling(SignalQ) || w.pc == Telling(UnlockQ)))
    && (w.pc == Telling(SignalQ) || w.pc == Telling(UnlockQ) ==> w.counted)
    && (w.pc.Acking? && !sh.ack ==> AckIsLow(master))
    && (PastBarrier(master) ==> Parked(w.pc))
    && (FoundEmpty(w) ==> sh.q == [])
    && (w.item.Some? ==> Carrying(w.pc))
    && (w.pc == Telling(WriteQ) ==> w.tmp == sh.qDone)
  }

  predicate MasterOk(master: MasterPc, sh: Shared) {
    && (sh.done <==> DoneIsHigh(master))
    && (AckIsLow(master) ==> !sh.ack)
    && (Quiet(master) ==> sh.q == [])
  }

  /** The managers the master has joined, which is all of them once it is past the join. */
  predicate Joined(managers: seq<Manager>, master: MasterPc) {
    forall j :: 0 <= j < |managers| && (master.Join? ==> j < master.next) ==> managers[j].pc == Exited
  }

  ghost predicate BarrierInv(s: State) {
    && LocksExact(s)
    && |s.workers| >= 1
    && MasterOk(s.master, s.sh)
    && Joined(s.managers, s.master)
    && (forall i :: 0 <= i < |s.workers| ==> WorkerOk(s.workers[i], s.master, s.sh))
    && (Quiet(s.master) ==> forall i :: 0 <= i < |s.workers| ==> s.workers[i].item.None?)
    && s.sh.qDone == Total(s.workers, CountBit)
  }

  lemma BarrierInit(s: State, n: nat)
    requires Init(s, n)
    ensures BarrierInv(s)
  {
    TotalZero(s.workers, CountBit);
  }

  // ---- Where the threads write --------------------------------------------------------------------

  lemma MasterOps(pc: MasterPc)
    ensures MasterCode(pc).Do? ==>
      && (MasterCode(pc).op == LowerAck <==> pc == Closing(ClearAck))
      && (MasterCode(pc).op == RaiseDone <==> pc == Closing(SetDone))
      && (MasterCode(pc).op == RaiseAck <==> pc == Finishing(SetAck))
      && (MasterCode(pc).op.ResetVar? ==> pc == Resetting(MasterCode(pc).op.what, ResetWrite))
    ensures pc == Closing(ClearAck) || pc == Closing(SetDone) || pc == Finishing(SetAck) ==> MasterCode(pc).Do?
    ensures pc.Resetting? && pc.reset == ResetWrite ==> MasterCode(pc).Do? && MasterCode(pc).op == ResetVar(pc.what)
  {
  }

  lemma WorkerOps(pc: WorkerPc)
    ensures WorkerCode(pc).Do? ==>
      && (WorkerCode(pc).op == PopItem <==> pc == Popping(Pop))
      && (WorkerCode(pc).op == TryPopItem <==> pc == Draining(TryPop))
      && (WorkerCode(pc).op == StoreEmptiness <==> pc == Popping(SetEmpty))
      && (WorkerCode(pc).op == LowerFull <==> pc == Popping(ClearFull))
    ensures pc in {Popping(Pop), Draining(TryPop), Popping(SetEmpty), Popping(ClearFull)} ==> WorkerCode(pc).Do?
  {
  }

  // ---- A worker's step ----------------------------------------------------------------------------

  ghost predicate OwnStepOk(w: Worker, master: MasterPc, sh: Shared, outcome: NetResult) {
    var w' := WorkerNext(w, sh, outcome);
    && WorkerOk(w', master, WorkerShared(w, sh))
    && (Quiet(master) && w.item.None? ==> w'.item.None?)
    && CountBit(w') - CountBit(w) == WorkerShared(w, sh).qDone - sh.qDone
  }

  lemma OwnStepWaiting(w: Worker, master: MasterPc, sh: Shared, outcome: NetResult)
    requires w.pc.Waiting?
    requires WorkerOk(w, master, sh) && MasterOk(master, sh)
    ensures OwnStepOk(w, master, sh, outcome)
  {
  }

  lemma OwnStepPop(w: Worker, master: MasterPc, sh: Shared, outcome: NetResult)
    requires w.pc == Popping(Pop)
    requires WorkerOk(w, master, sh) && MasterOk(master, sh) && sh.q != []
    ensures OwnStepOk(w, master, sh, outcome)
  {
  }

  /** A worker with an entry, or on its way to one, and what it keeps until the fetch is over. */
  ghost predicate GoesOn(w: Worker, w': Worker, sh: Shared, sh': Shared) {
    && w'.item == w.item && w'.counted == w.counted && (w'.pc.Popping? || w'.pc.Fetching?)
    && (SeenDone(w'.pc) <==> SeenDone(w.pc)) && (Carrying(w.pc) ==> Carrying(w'.pc))
    && sh'.q == sh.q && sh'.done == sh.done && sh'.ack == sh.ack && sh'.qDone == sh.qDone
  }

  lemma GoingOnKeeps(w: Worker, w': Worker, master: MasterPc, sh: Shared, sh': Shared)
    requires WorkerOk(w, master, sh) && (w.pc.Popping? || w.pc.Fetching?) && GoesOn(w, w', sh, sh')
    ensures WorkerOk(w', master, sh')
  {
  }

  lemma PoppingGoesOn(w: Worker, sh: Shared, outcome: NetResult)
    requires w.pc.Popping? && w.pc.pop != Pop
    ensures GoesOn(w, WorkerNext(w, sh, outcome), sh, WorkerShared(w, sh))
  {
  }

  lemma UpdatingGoesOn(w: Worker, sh: Shared, outcome: NetResult)
    requires w.pc.Fetching? && w.pc.fetch.Update?
    ensures GoesOn(w, WorkerNext(w, sh, outcome), sh, WorkerShared(w, sh))
  {
  }

  lemma OwnStepPopping(w: Worker, master: MasterPc, sh: Shared, outcome: NetResult)
    requires w.pc.Popping? && w.pc.pop != Pop
    requires WorkerOk(w, master, sh) && MasterOk(master, sh)
    ensures OwnStepOk(w, master, sh, outcome)
  {
    PoppingGoesOn(w, sh, outcome);
    GoingOnKeeps(w, WorkerNext(w, sh, outcome), master, sh, WorkerShared(w, sh));
    hide WorkerNext, WorkerShared, WorkerOk, MasterOk;
  }

  lemma OwnStepFetching(w: Worker, master: MasterPc, sh: Shared, outcome: NetResult)
    requires w.pc.Fetching? && !w.pc.fetch.Update?
    requires WorkerOk(w, master, sh) && MasterOk(master, sh)
    ensures OwnStepOk(w, master, sh, outcome)
  {
  }

  lemma OwnStepUpdating(w: Worker, master: MasterPc, sh: Shared, outcome: NetResult)
    requires w.pc.Fetching? && w.pc.fetch.Update?
    requires WorkerOk(w, master, sh) && MasterOk(master, sh)
    ensures OwnStepOk(w, master, sh, outcome)
  {
    UpdatingGoesOn(w, sh, outcome);
    GoingOnKeeps(w, WorkerNext(w, sh, outcome), master, sh, WorkerShared(w, sh));
    hide WorkerNext, WorkerShared, WorkerOk, MasterOk;
  }

  lemma OwnStepTryPop(w: Worker, master: MasterPc, sh: Shared, outcome: NetResult)
    requires w.pc == Draining(TryPop)
    requires WorkerOk(w, master, sh) && MasterOk(master, sh)
    ensures OwnStepOk(w, master, sh, outcome)
  {
  }

  lemma OwnStepDraining(w: Worker, master: MasterPc, sh: Shared, outcome: NetResult)
    requires w.pc.Draining? && w.pc.drain != TryPop
    requires WorkerOk(w, master, sh) && MasterOk(master, sh)
    ensures OwnStepOk(w, master, sh, outcome)
  {
  }

  lemma OwnStepTelling(w: Worker, master: MasterPc, sh: Shared, outcome: NetResult)
    requires w.pc.Telling?
    requires WorkerOk(w, master, sh) && MasterOk(master, sh)
    ensures OwnStepOk(w, master, sh, outcome)
  {
  }

  lemma OwnStepAcking(w: Worker, master: MasterPc, sh: Shared, outcome: NetResult)
    requires w.pc.Acking?
    requires WorkerOk(w, master, sh) && MasterOk(master, sh)
    ensures OwnStepOk(w, master, sh, outcome)
  {
  }

  lemma OwnStep(w: Worker, master: MasterPc, sh: Shared, outcome: NetResult)
    requires WorkerOk(w, master, sh) && MasterOk(master, sh) && !(w.pc == Popping(Pop) && sh.q == [])
    ensures OwnStepOk(w, master, sh, outcome)
  {
    hide *;
    match w.pc
    case Waiting(_) => OwnStepWaiting(w, master, sh, outcome);
    case Popping(at) =>
      if at == Pop { OwnStepPop(w, master, sh, outcome); } else { OwnStepPopping(w, master, sh, outcome); }
    case Fetching(_, at) =>
      if at.Update? { OwnStepUpdating(w, master, sh, outcome); } else { OwnStepFetching(w, master, sh, outcome); }
    case Draining(at) =>
      if at == TryPop { OwnStepTryPop(w, master, sh, outcome); } else { OwnStepDraining(w, master, sh, outcome); }
    case Telling(_) => OwnStepTelling(w, master, sh, outcome);
    case Acking(_) => OwnStepAcking(w, master, sh, outcome);
  }

  /** What a worker leaves alone: the done and ack flags always, the counter except at its increment. */
  lemma WorkerLeaves(w: Worker, sh: Shared)
    ensures WorkerShared(w, sh).done == sh.done && WorkerShared(w, sh).ack == sh.ack
    ensures sh.q == [] ==> WorkerShared(w, sh).q == []
    ensures WorkerShared(w, sh).qDone == if w.pc == Telling(WriteQ) then w.tmp + 1 else sh.qDone
  {
  }

  lemma OthersKeep(v: Worker, w: Worker, master: MasterPc, sh: Shared)
    requires WorkerOk(v, master, sh)
    requires v.pc == Telling(WriteQ) ==> w.pc != Telling(WriteQ)
    ensures WorkerOk(v, master, WorkerShared(w, sh))
  {
    hide WorkerShared;
    WorkerLeaves(w, sh);
  }

  lemma MasterUndisturbed(w: Worker, master: MasterPc, sh: Shared)
    requires MasterOk(master, sh)
    ensures MasterOk(master, WorkerShared(w, sh))
  {
    hide WorkerShared;
    WorkerLeaves(w, sh);
  }

  /** Waking the master from its wait changes none of the zones it is in. */
  lemma WakingMaster(w: Worker, sh: Shared)
    ensures WorkerOk(w, Collecting(QSleep), sh) ==> WorkerOk(w, Collecting(QWoken), sh)
    ensures MasterOk(Collecting(QSleep), sh) ==> MasterOk(Collecting(QWoken), sh)
    ensures !Quiet(Collecting(QSleep)) && !Quiet(Collecting(QWoken))
  {
  }

  lemma OnlyOneAtWriteQ(s: State, i: nat, k: nat)
    requires LocksExact(s) && i < |s.workers| && k < |s.workers|
    requires s.workers[i].pc == Telling(WriteQ) && s.workers[k].pc == Telling(WriteQ)
    ensures i == k
  {
    MutualExclusion(s, OfWorker(i), OfWorker(k), QDoneMtx);
  }

  lemma WorkerKeepsBarrier(s: State, i: nat, pick: nat, outcome: NetResult, s': State)
    requires BarrierInv(s) && i < |s.workers| && WorkerStep(s, i, pick, outcome) == Some(s')
    requires LocksExact(s') && !s'.aborted
    ensures BarrierInv(s')
  {
    hide LocksExact, WorkerOk, MasterOk, Quiet, WorkerNext, WorkerShared, WorkerLog, WorkerCode, Blocked, LocksNext;
    var w := s.workers[i];
    OwnStep(w, s.master, s.sh, outcome);
    TotalUpdate(s.workers, CountBit, i, s'.workers[i]);
    WorkerLeaves(w, s.sh);
    forall k | 0 <= k < |s.workers|
      ensures WorkerOk(s'.workers[k], s'.master, s'.sh)
    {
      if k != i {
        if w.pc == Telling(WriteQ) && s.workers[k].pc == Telling(WriteQ) { OnlyOneAtWriteQ(s, i, k); }
        OthersKeep(s.workers[k], w, s.master, s.sh);
      }
      WakingMaster(s'.workers[k], s'.sh);
    }
    MasterUndisturbed(w, s.master, s.sh);
    WakingMaster(w, s'.sh);
  }

  // ---- A manager's step ---------------------------------------------------------------------------

  /** While the master joins, nothing a manager does to the shared variables disturbs a worker's facts. */
  lemma ManagerUndisturbs(v: Worker, k: nat, g: Manager, sh: Shared)
    requires WorkerOk(v, Join(k), sh) && MasterOk(Join(k), sh)
    ensures WorkerOk(v, Join(k), ManagerShared(g, sh)) && MasterOk(Join(k), ManagerShared(g, sh))
    ensures ManagerShared(g, sh).qDone == sh.qDone
  {
  }

  lemma WakingWorker(v: Worker, master: MasterPc, sh: Shared)
    requires WorkerOk(v, master, sh)
    ensures WorkerOk(v.(pc := Spurious(v.pc)), master, sh)
    ensures CountBit(v.(pc := Spurious(v.pc))) == CountBit(v)
  {
  }

  /** A manager that can move has not exited, so the master is still joining. */
  lemma ManagerMovesInJoin(s: State, j: nat, pick: nat, s': State)
    requires Joined(s.managers, s.master) && j < |s.managers| && ManagerStep(s, j, pick) == Some(s')
    ensures s.master.Join? && j >= s.master.next && Joined(s'.managers, s'.master)
  {
    assert s.managers[j].pc != Exited;
  }

  /** A signal on the empty condition leaves every worker as it was or woken. */
  lemma SignalledWorkers(ws: seq<Worker>, pick: nat, vs: seq<Worker>)
    requires SignalWorkers(ws, pick) == Some(vs)
    ensures |vs| == |ws| && Total(vs, CountBit) == Total(ws, CountBit)
    ensures forall i :: 0 <= i < |ws| ==> vs[i] == ws[i] || vs[i] == ws[i].(pc := Spurious(ws[i].pc))
  {
    TotalSame(vs, ws, CountBit);
  }

  lemma ManagerKeepsBarrier(s: State, j: nat, pick: nat, s': State)
    requires BarrierInv(s) && j < |s.managers| && ManagerStep(s, j, pick) == Some(s')
    requires LocksExact(s')
    ensures BarrierInv(s')
  {
    ManagerMovesInJoin(s, j, pick, s');
    var g := s.managers[j];
    if g.pc == SignalE { SignalledWorkers(s.workers, pick, s'.workers); }
    hide LocksExact, WorkerOk, MasterOk, Joined, ManagerNext, ManagerShared, ManagerLog, ManagerCode, Blocked,
      LocksNext, SignalWorkers, Spurious;
    forall i | 0 <= i < |s.workers| ensures WorkerOk(s'.workers[i], s'.master, s'.sh) {
      ManagerUndisturbs(s.workers[i], s.master.next, g, s.sh);
      WakingWorker(s.workers[i], s.master, s'.sh);
    }
    ManagerUndisturbs(s.workers[0], s.master.next, g, s.sh);
  }

  // ---- The master's step ------------------------------------------------------------------------

  ghost predicate MasterStepOk(v: Worker, pc: MasterPc, more: bool, sh: Shared) {
    var next := MasterGo(pc, more);
    && WorkerOk(MasterTouch(pc, v), next, MasterShared(pc, sh))
    && MasterOk(next, MasterShared(pc, sh))
    && MasterTouch(pc, v).item == v.item
    && (Quiet(next) ==> Quiet(pc))
    && (next.Join? ==> pc.Join?)
  }

  lemma ClosingKeeps(v: Worker, at: ClosePc, sh: Shared)
    requires WorkerOk(v, Closing(at), sh) && MasterOk(Closing(at), sh)
    ensures MasterStepOk(v, Closing(at), true, sh)
  {
  }

  lemma CollectingKeeps(v: Worker, at: CollectPc, sh: Shared)
    requires WorkerOk(v, Collecting(at), sh) && MasterOk(Collecting(at), sh)
    ensures MasterStepOk(v, Collecting(at), true, sh)
  {
  }

  lemma ResetKeeps(v: Worker, r: Resettable, sh: Shared)
    requires WorkerOk(v, Resetting(r, ResetWrite), sh) && MasterOk(Resetting(r, ResetWrite), sh)
    ensures MasterStepOk(v, Resetting(r, ResetWrite), true, sh)
  {
  }

  lemma ResettingKeeps(v: Worker, r: Resettable, at: ResetPc, sh: Shared)
    requires WorkerOk(v, Resetting(r, at), sh) && MasterOk(Resetting(r, at), sh) && at != ResetWrite
    ensures MasterStepOk(v, Resetting(r, at), true, sh)
  {
  }

  lemma FinishingKeeps(v: Worker, at: FinishPc, sh: Shared)
    requires WorkerOk(v, Finishing(at), sh) && MasterOk(Finishing(at), sh)
    ensures MasterStepOk(v, Finishing(at), true, sh)
  {
  }

  /** Every step of the master but leaving its wait keeps each worker's facts. */
  lemma MasterStepKeeps(v: Worker, pc: MasterPc, more: bool, sh: Shared)
    requires WorkerOk(v, pc, sh) && MasterOk(pc, sh)
    requires !pc.Join? && pc != Accept && (pc == Collecting(QTest) ==> more)
    ensures MasterStepOk(v, pc, more, sh)
  {
    match pc
    case Closing(at) => ClosingKeeps(v, at, sh); assert MasterGo(pc, more) == MasterGo(pc, true);
    case Collecting(at) => CollectingKeeps(v, at, sh); assert MasterGo(pc, more) == MasterGo(pc, true);
    case Resetting(r, at) =>
      if at == ResetWrite { ResetKeeps(v, r, sh); } else { ResettingKeeps(v, r, at, sh); }
      assert MasterGo(pc, more) == MasterGo(pc, true);
    case Finishing(at) => FinishingKeeps(v, at, sh); assert MasterGo(pc, more) == MasterGo(pc, true);
  }

  /**
   The barrier.  When the master finds every worker counted, every worker is parked, holds no
   entry, and the queue is empty.
   */
  lemma AllCounted(s: State)
    requires BarrierInv(s) && s.master == Collecting(QTest) && s.sh.qDone >= |s.workers|
    ensures s.sh.q == []
    ensures forall i :: 0 <= i < |s.workers| ==>
      s.workers[i].counted && Parked(s.workers[i].pc) && s.workers[i].item.None?
  {
    TotalOfBits(s.workers, CountBit);
    assert WorkerOk(s.workers[0], s.master, s.sh);
    assert CountBit(s.workers[0]) == 1;
    forall i | 0 <= i < |s.workers|
      ensures s.workers[i].counted && Parked(s.workers[i].pc) && s.workers[i].item.None?
    {
      assert CountBit(s.workers[i]) == 1;
      assert WorkerOk(s.workers[i], s.master, s.sh);
      if !Parked(s.workers[i].pc) {
        MutualExclusion(s, OfMaster, OfWorker(i), QDoneMtx);
      }
    }
  }

  lemma LeavingWaitKeeps(v: Worker, sh: Shared)
    requires WorkerOk(v, Collecting(QTest), sh) && MasterOk(Collecting(QTest), sh)
    requires Parked(v.pc) && v.item.None? && sh.q == []
    ensures WorkerOk(v, Collecting(QUnlock), sh) && MasterOk(Collecting(QUnlock), sh)
  {
  }

  lemma MasterTotal(s: State)
    requires BarrierInv(s)
    ensures MasterShared(s.master, s.sh).qDone == Total(MasterWorkers(s.master, s.workers), CountBit)
  {
    var ws := MasterWorkers(s.master, s.workers);
    if s.master == Resetting(ResetQDone, ResetWrite) {
      TotalZero(ws, CountBit);
    } else {
      TotalSame(ws, s.workers, CountBit);
      MasterOps(s.master);
      hide MasterCode, MasterWorkers;
      assert MasterShared(s.master, s.sh).qDone == s.sh.qDone;
    }
  }

  lemma LeavingWaitKeepsBarrier(s: State, s': State)
    requires BarrierInv(s) && s.master == Collecting(QTest) && s.sh.qDone >= |s.workers| && MasterStep(s) == Some(s')
    requires LocksExact(s')
    ensures BarrierInv(s')
  {
    AllCounted(s);
    MasterTotal(s);
    forall i | 0 <= i < |s.workers| ensures WorkerOk(s'.workers[i], s'.master, s'.sh) {
      LeavingWaitKeeps(s.workers[i], s.sh);
    }
    LeavingWaitKeeps(s.workers[0], s.sh);
  }

  lemma JoiningKeeps(v: Worker, k: nat, sh: Shared, managers: seq<Manager>)
    requires WorkerOk(v, Join(k), sh) && MasterOk(Join(k), sh)
    ensures WorkerOk(v, JoinNext(k, managers), sh) && MasterOk(JoinNext(k, managers), sh)
      && !Quiet(JoinNext(k, managers))
  {
  }

  lemma JoiningKeepsBarrier(s: State, s': State)
    requires BarrierInv(s) && s.master.Join? && MasterStep(s) == Some(s')
    requires LocksExact(s')
    ensures BarrierInv(s')
  {
    MasterTotal(s);
    hide LocksExact, WorkerOk, MasterOk, Quiet;
    forall i | 0 <= i < |s.workers| ensures WorkerOk(s'.workers[i], s'.master, s'.sh) {
      JoiningKeeps(s.workers[i], s.master.next, s.sh, s.managers);
    }
    JoiningKeeps(s.workers[0], s.master.next, s.sh, s.managers);
  }

  lemma MasterKeepsBarrier(s: State, s': State)
    requires BarrierInv(s) && MasterStep(s) == Some(s')
    requires LocksExact(s')
    ensures BarrierInv(s')
  {
    if s.master.Join? {
      JoiningKeepsBarrier(s, s');
    } else if s.master == Collecting(QTest) && s.sh.qDone >= |s.workers| {
      LeavingWaitKeepsBarrier(s, s');
    } else {
      MasterTotal(s);
      var more := s.sh.qDone < |s.workers|;
      assert s.master != Accept;
      hide LocksExact, WorkerOk, MasterOk, Quiet, MasterGo, MasterShared, MasterTouch, MasterLog, MasterCode, Blocked,
        LocksNext;
      forall i | 0 <= i < |s.workers| ensures WorkerOk(s'.workers[i], s'.master, s'.sh) {
        MasterStepKeeps(s.workers[i], s.master, more, s.sh);
      }
      MasterStepKeeps(s.workers[0], s.master, more, s.sh);
      forall i | Quiet(s'.master) && 0 <= i < |s.workers| ensures s'.workers[i].item.None? {
        MasterStepKeeps(s.workers[i], s.master, more, s.sh);
      }
    }
  }

  // ---- Every step ---------------------------------------------------------------------------------

  lemma AcceptKeeps(v: Worker, sh: Shared)
    requires WorkerOk(v, Accept, sh) && MasterOk(Accept, sh)
    ensures WorkerOk(v, Join(0), sh) && MasterOk(Join(0), sh) && !Quiet(Join(0))
  {
  }

  lemma NewSessionKeepsBarrier(s: State, jobs: seq<seq<Entry>>, s': State)
    requires BarrierInv(s) && NewSessionStep(s, jobs) == Some(s')
    requires LocksExact(s')
    ensures BarrierInv(s')
  {
    hide LocksExact, WorkerOk, MasterOk, Quiet;
    forall i | 0 <= i < |s.workers| ensures WorkerOk(s'.workers[i], s'.master, s'.sh) {
      AcceptKeeps(s.workers[i], s.sh);
    }
    AcceptKeeps(s.workers[0], s.sh);
  }

  lemma OutsideKeepsBarrier(s: State, a: Action, s': State)
    requires BarrierInv(s) && FromOutside(a) && Step(s, a) == Some(s')
    requires LocksExact(s')
    ensures BarrierInv(s')
  {
    hide LocksExact, WorkerOk, MasterOk, Quiet, Spurious;
    match a
    case SpuriousWorker(i) =>
      WakingWorker(s.workers[i], s.master, s.sh);
      TotalUpdate(s.workers, CountBit, i, s'.workers[i]);
    case SpuriousManager(_) =>
    case HangManager(_) =>
    case SpuriousMaster =>
      forall i | 0 <= i < |s.workers| ensures WorkerOk(s'.workers[i], s'.master, s'.sh) {
        WakingMaster(s.workers[i], s.sh);
      }
      WakingMaster(s.workers[0], s.sh);
  }

  /** Every step that does not abort keeps the barrier invariant. */
  lemma StepKeepsBarrier(s: State, a: Action, s': State)
    requires BarrierInv(s) && Step(s, a) == Some(s') && !s'.aborted
    ensures BarrierInv(s')
  {
    StepKeepsLocks(s, a, s');
    hide LocksExact, WorkerOk, MasterOk, Quiet, Spurious, WorkerStep, ManagerStep, MasterStep, NewSessionStep;
    match a
    case RunWorker(i, pick, outcome) => WorkerKeepsBarrier(s, i, pick, outcome, s');
    case RunManager(j, pick) => ManagerKeepsBarrier(s, j, pick, s');
    case RunMaster => MasterKeepsBarrier(s, s');
    case NewSession(jobs) => NewSessionKeepsBarrier(s, jobs, s');
    case _ => OutsideKeepsBarrier(s, a, s');
  }
}
