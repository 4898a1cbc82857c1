/**
 A session of the mirror server that offers at most one entry never pops an empty queue, with any
 number of workers: until that entry is published the empty flag stays raised (worker.cpp:67-93,
 mirror_manager.cpp:132-161).
 */
module MirrorFew {
  import opened Folds
  import opened MirrorModel
  import opened Threads
  import opened MirrorLocks
  import opened MirrorBarrier
  import opened MirrorFlags
  import opened MirrorProgress
  import opened MirrorLedger
  import opened MirrorSolo
  import opened MirrorTermination
  import opened MirrorRuns

  /** Past the branch that only a lowered empty flag opens, and the flag is not rewritten yet. */
  predicate InPop(pc: WorkerPc) {
    pc.Popping? && (pc.pop == LockRw || pc.pop == Pop || pc.pop == SetEmpty)
  }

  /** What a worker saw of the empty flag still holds, as long as it owns the empty mutex. */
  predicate SawFlag(pc: WorkerPc, sh: Shared) {
    && (InPop(pc) ==> !sh.empty && !sh.done)
    && (pc == Waiting(Branch) ==> !sh.empty || sh.done)
  }

  ghost predicate AllSaw(s: State) {
    forall i :: 0 <= i < |s.workers| ==> SawFlag(s.workers[i].pc, s.sh)
  }

  /** `_var_init` has raised the empty flag, and no session has started since. */
  predicate EmptyIsRaised(pc: MasterPc) {
    match pc
    case Resetting(r, at) => (r != ResetFull && r != ResetEmpty) || (r == ResetEmpty && at == ResetDrop)
    case Finishing(_) | Accept => true
    case _ => false
  }

  predicate AnyTodo(gs: seq<Manager>) {
    exists j :: 0 <= j < |gs| && gs[j].todo != []
  }

  predicate AnySetEmpty(ws: seq<Worker>) {
    exists i :: 0 <= i < |ws| && ws[i].pc == Popping(SetEmpty)
  }

  /** With one entry at most, the empty flag is exact until the entry is published, and behind a pop. */
  ghost predicate Exact(s: State) {
    && (AnyTodo(s.managers) ==> s.sh.empty)
    && (AnyUnpublished(s.managers) ==> s.sh.empty && s.sh.q != [])
    && (!s.sh.empty ==> s.sh.q != [] || AnySetEmpty(s.workers))
  }

  ghost predicate FewInv(s: State) {
    && AllSaw(s)
    && (EmptyIsRaised(s.master) ==> s.sh.empty)
    && (|s.log.offered| <= 1 && !s.sh.done ==> Exact(s))
  }

  lemma FewInit(s: State, n: nat)
    requires Init(s, n)
    ensures FewInv(s)
  {
  }

  // ---- One entry is in one place --------------------------------------------------------------------

  lemma TodoIsOffered(s: State)
    requires LedgerInv(s)
    ensures |Pool(s.managers, Todo)| + |s.sh.q| <= |s.log.offered|
  {
    var others := Pool(s.workers, Held) + s.log.finished + s.log.dropped;
    assert s.log.offered == Pool(s.managers, Todo) + multiset(s.sh.q) + others by {
      assert Account(s);
      hide Pool, Todo, Held;
    }
    assert |Pool(s.managers, Todo) + multiset(s.sh.q) + others|
      == |Pool(s.managers, Todo)| + |multiset(s.sh.q)| + |others|;
  }

  lemma SizeOfShare(all: multiset<Entry>, others: multiset<Entry>, mine: multiset<Entry>)
    requires mine <= all && others == all - mine + multiset{}
    ensures |all| == |others| + |mine|
  {
    assert all == others + mine;
  }

  /** While a manager has an entry to push, that is the only one there is. */
  lemma OnlyEntry(s: State, j: nat)
    requires LedgerInv(s) && |s.log.offered| <= 1 && j < |s.managers| && s.managers[j].todo != []
    ensures s.sh.q == [] && |s.managers[j].todo| == 1
    ensures forall k :: 0 <= k < |s.managers| && k != j ==> s.managers[k].todo == []
  {
    var gs := s.managers;
    var rest := gs[j := gs[j].(todo := [])];
    PoolUpdate(gs, Todo, j, rest[j]);
    TodoIsOffered(s);
    hide LedgerInv, Pool;
    SizeOfShare(Pool(gs, Todo), Pool(rest, Todo), Todo(gs[j]));
    assert Pool(rest, Todo) == multiset{};
    forall k | 0 <= k < |gs| && k != j ensures gs[k].todo == [] {
      NoShare(rest, k);
    }
  }

  lemma NoShare(gs: seq<Manager>, k: nat)
    requires k < |gs| && Pool(gs, Todo) == multiset{}
    ensures gs[k].todo == []
  {
    PoolUpdate(gs, Todo, k, gs[k]);
    assert |Todo(gs[k])| == |gs[k].todo|;
  }

  // ---- A worker's step ------------------------------------------------------------------------------

  /** The empty mutex keeps others out while a worker is past its test. */
  lemma AloneUnderE(s: State, t: Tid, k: nat)
    requires LocksExact(s) && k < |s.workers| && EMtx in Owns(s, t) && t != OfWorker(k)
    ensures !InPop(s.workers[k].pc) && s.workers[k].pc != Waiting(Branch)
  {
    if InPop(s.workers[k].pc) || s.workers[k].pc == Waiting(Branch) {
      MutualExclusion(s, t, OfWorker(k), EMtx);
    }
  }

  lemma WorkerKeepsSaw(s: State, i: nat, pick: nat, outcome: NetResult, s': State)
    requires LocksExact(s) && FewInv(s) && i < |s.workers| && WorkerStep(s, i, pick, outcome) == Some(s') && !s'.aborted
    ensures AllSaw(s')
  {
    var w := s.workers[i];
    WorkerEffect(w, s.sh);
    WorkerGoes(w, s.sh, outcome);
    LeavesSetEmpty(w, s.sh, outcome);
    if w.pc == Popping(SetEmpty) {
      assert EMtx in Owns(s, OfWorker(i));
      forall k | 0 <= k < |s.workers| && k != i ensures !InPop(s.workers[k].pc) && s.workers[k].pc != Waiting(Branch) {
        AloneUnderE(s, OfWorker(i), k);
      }
    }
    hide LocksExact, Exact, WorkerNext, WorkerShared, WorkerLog, WorkerCode, Blocked, LocksNext, SignalManagers;
  }

  lemma LeavesSetEmpty(w: Worker, sh: Shared, outcome: NetResult)
    ensures w.pc == Popping(SetEmpty) ==> WorkerNext(w, sh, outcome).pc == Popping(UnlockRw)
    ensures w.pc != Popping(Pop) ==> WorkerNext(w, sh, outcome).pc != Popping(SetEmpty)
    ensures w.pc == Draining(TryPop) ==> SeenDone(w.pc)
  {
  }

  /** An unguarded pop of the empty queue needs two entries offered. */
  lemma PopFinds(s: State, i: nat)
    requires LocksExact(s) && FewInv(s) && |s.log.offered| <= 1 && i < |s.workers| && s.workers[i].pc == Popping(Pop)
    ensures s.sh.q != []
  {
    assert SawFlag(s.workers[i].pc, s.sh);
    if AnySetEmpty(s.workers) {
      var k :| 0 <= k < |s.workers| && s.workers[k].pc == Popping(SetEmpty);
      assert EMtx in Owns(s, OfWorker(i));
      AloneUnderE(s, OfWorker(i), k);
    }
  }

  lemma WorkerKeepsExact(s: State, i: nat, pick: nat, outcome: NetResult, s': State)
    requires BarrierInv(s) && FewInv(s) && i < |s.workers| && WorkerStep(s, i, pick, outcome) == Some(s') && !s'.aborted
    requires |s.log.offered| <= 1 && !s.sh.done && s'.sh.done == s.sh.done
    requires AnyTodo(s'.managers) ==> AnyTodo(s.managers)
    ensures Exact(s')
  {
    var w := s.workers[i];
    WorkerEffect(w, s.sh);
    LeavesSetEmpty(w, s.sh, outcome);
    UnpublishedStays(s, i, pick, outcome, s');
    assert SawFlag(w.pc, s.sh);
    assert WorkerOk(w, s.master, s.sh);
    hide BarrierInv, WorkerNext, WorkerShared, WorkerLog, WorkerCode, Blocked, LocksNext, SignalManagers, AnyTodo,
      AnyUnpublished, AllSaw;
    if !s'.sh.empty && s'.sh.q == [] {
      if w.pc == Popping(Pop) {
        assert s'.workers[i].pc == Popping(SetEmpty) by { PopGoesOn(w, s.sh, outcome); }
      } else {
        var k :| 0 <= k < |s.workers| && s.workers[k].pc == Popping(SetEmpty);
        assert s'.workers[k].pc == Popping(SetEmpty);
      }
    }
  }

  lemma PopGoesOn(w: Worker, sh: Shared, outcome: NetResult)
    requires w.pc == Popping(Pop)
    ensures WorkerNext(w, sh, outcome).pc == Popping(SetEmpty)
  {
  }

  lemma WorkerTodoStays(s: State, i: nat, pick: nat, outcome: NetResult, s': State)
    requires i < |s.workers| && WorkerStep(s, i, pick, outcome) == Some(s') && !s'.aborted
    ensures (AnyTodo(s'.managers) ==> AnyTodo(s.managers)) && s'.log.offered == s.log.offered
    ensures EmptyIsRaised(s'.master) ==> EmptyIsRaised(s.master)
  {
    if s.workers[i].pc == Popping(SignalF) { SignalledManagers(s.managers, pick, s'.managers); }
    LogMoves(s.workers[i], s.log, outcome);
    hide WorkerNext, WorkerShared, WorkerLog, LocksNext, SignalManagers;
    if k :| 0 <= k < |s'.managers| && s'.managers[k].todo != [] { assert s.managers[k].todo != []; }
  }

  lemma WorkerKeepsFew(s: State, i: nat, pick: nat, outcome: NetResult, s': State)
    requires BarrierInv(s) && FewInv(s) && i < |s.workers| && WorkerStep(s, i, pick, outcome) == Some(s') && !s'.aborted
    ensures FewInv(s')
  {
    assert LocksExact(s);
    WorkerEffect(s.workers[i], s.sh);
    WorkerKeepsSaw(s, i, pick, outcome, s');
    WorkerTodoStays(s, i, pick, outcome, s');
    WorkerSharedIs(s, i, pick, outcome, s');
    assert SawFlag(s.workers[i].pc, s.sh);
    if |s.log.offered| <= 1 && !s.sh.done { WorkerKeepsExact(s, i, pick, outcome, s'); }
    hide BarrierInv, LocksExact, WorkerStep, WorkerShared, Exact, AllSaw, EmptyIsRaised;
  }

  lemma WorkerSharedIs(s: State, i: nat, pick: nat, outcome: NetResult, s': State)
    requires i < |s.workers| && WorkerStep(s, i, pick, outcome) == Some(s') && !s'.aborted
    ensures s'.sh == WorkerShared(s.workers[i], s.sh)
  {
    hide WorkerNext, WorkerShared, WorkerLog, LocksNext, SignalManagers;
  }

  // ---- A manager's step -----------------------------------------------------------------------------

  lemma ManagerKeepsSaw(s: State, j: nat, pick: nat, s': State)
    requires LocksExact(s) && AllSaw(s) && j < |s.managers| && ManagerStep(s, j, pick) == Some(s')
    ensures AllSaw(s')
  {
    var g := s.managers[j];
    ManagerEffect(g, s.sh);
    if g.pc == SignalE { SignalledWorkers(s.workers, pick, s'.workers); }
    hide ManagerNext, ManagerShared, ManagerLog, LocksNext, SignalWorkers;
    if g.pc == ClearEmpty {
      assert EMtx in Owns(s, OfManager(j));
      forall k | 0 <= k < |s.workers| ensures SawFlag(s'.workers[k].pc, s'.sh) { AloneUnderE(s, OfManager(j), k); }
    }
  }

  lemma ManagerTodo(g: Manager, sh: Shared)
    requires HasWork(g)
    ensures ManagerNext(g, sh).todo == if g.pc == Push then g.todo[1..] else g.todo
    ensures g.pc == Push ==> g.todo != []
  {
  }

  lemma SetEmptyStays(s: State, j: nat, pick: nat, s': State)
    requires j < |s.managers| && ManagerStep(s, j, pick) == Some(s') && AnySetEmpty(s.workers)
    ensures AnySetEmpty(s'.workers)
  {
    if s.managers[j].pc == SignalE { SignalledWorkers(s.workers, pick, s'.workers); }
    hide ManagerNext, ManagerShared, ManagerLog, LocksNext, SignalWorkers;
    var k :| 0 <= k < |s.workers| && s.workers[k].pc == Popping(SetEmpty);
    assert s'.workers[k].pc == Popping(SetEmpty);
  }

  lemma ManagerTodoFalls(s: State, j: nat, pick: nat, s': State)
    requires LedgerInv(s) && |s.log.offered| <= 1 && j < |s.managers| && HasWork(s.managers[j])
    requires ManagerStep(s, j, pick) == Some(s')
    ensures AnyTodo(s'.managers) ==> AnyTodo(s.managers) && s.managers[j].pc != Push
    ensures s.managers[j].pc == Push ==> s.sh.q == [] && AnyTodo(s.managers)
  {
    var g := s.managers[j];
    ManagerTodo(g, s.sh);
    if g.pc == Push { OnlyEntry(s, j); }
    assert s'.managers == s.managers[j := ManagerNext(g, s.sh)];
    hide LedgerInv, ManagerStep, ManagerNext;
    if k :| 0 <= k < |s'.managers| && s'.managers[k].todo != [] {
      assert s.managers[k].todo != [];
    }
  }

  lemma ManagerKeepsExact(s: State, j: nat, pick: nat, s': State)
    requires LocksExact(s) && LedgerInv(s) && Exact(s) && |s.log.offered| <= 1 && j < |s.managers|
    requires HasWork(s.managers[j]) && ManagerStep(s, j, pick) == Some(s')
    ensures Exact(s')
  {
    ManagerEffect(s.managers[j], s.sh);
    PublishingChanges(s, j, pick, s');
    ManagerTodoFalls(s, j, pick, s');
    TodoMeansEmpty(s);
    if AnySetEmpty(s.workers) { SetEmptyStays(s, j, pick, s'); }
    ManagerSharedIs(s, j, pick, s');
    ManagerTodo(s.managers[j], s.sh);
    hide LocksExact, LedgerInv, ManagerStep, ManagerShared, ManagerNext, AnyTodo, AnyUnpublished, AnySetEmpty, HasWork;
  }

  lemma TodoMeansEmpty(s: State)
    requires LedgerInv(s) && |s.log.offered| <= 1
    ensures AnyTodo(s.managers) ==> s.sh.q == []
  {
    hide LedgerInv;
    if j :| 0 <= j < |s.managers| && s.managers[j].todo != [] { OnlyEntry(s, j); }
  }

  lemma ManagerSharedIs(s: State, j: nat, pick: nat, s': State)
    requires j < |s.managers| && ManagerStep(s, j, pick) == Some(s')
    ensures s'.sh == ManagerShared(s.managers[j], s.sh) && s'.master == s.master && s'.log.offered == s.log.offered
  {
    hide ManagerNext, ManagerShared, SignalWorkers, LocksNext;
  }

  lemma ManagerKeepsFew(s: State, j: nat, pick: nat, s': State)
    requires ProgressInv(s) && LedgerInv(s) && FewInv(s) && j < |s.managers| && ManagerStep(s, j, pick) == Some(s')
    ensures FewInv(s')
  {
    assert LocksExact(s) && HasWork(s.managers[j]);
    ManagerKeepsSaw(s, j, pick, s');
    ManagerSharedIs(s, j, pick, s');
    ManagerEffect(s.managers[j], s.sh);
    ManagerMovesInJoin(s, j, pick, s');
    if |s.log.offered| <= 1 && !s.sh.done { ManagerKeepsExact(s, j, pick, s'); }
    hide ProgressInv, LedgerInv, ManagerStep, ManagerShared, Exact, AllSaw;
  }

  // ---- The other steps ------------------------------------------------------------------------------

  lemma MasterRaises(pc: MasterPc, more: bool)
    requires !pc.Join?
    ensures EmptyIsRaised(MasterGo(pc, more)) ==> EmptyIsRaised(pc) || pc == Resetting(ResetEmpty, ResetWrite)
    ensures pc == Resetting(ResetDone, ResetWrite) ==> EmptyIsRaised(pc) && PastBarrier(pc)
    ensures pc == Resetting(ResetEmpty, ResetWrite) ==> PastBarrier(pc)
  {
  }

  lemma TouchedAlike(pc: MasterPc, w: Worker)
    ensures InPop(MasterTouch(pc, w).pc) == InPop(w.pc)
      && (MasterTouch(pc, w).pc == Waiting(Branch) <==> w.pc == Waiting(Branch))
    ensures Parked(w.pc) ==> !InPop(w.pc) && w.pc != Waiting(Branch)
  {
  }

  lemma MasterKeepsSaw(s: State, s': State)
    requires BarrierInv(s) && AllSaw(s) && MasterStep(s) == Some(s')
    ensures AllSaw(s')
  {
    var pc := s.master;
    assert LocksExact(s);
    MasterEffect(pc, s.sh);
    if !pc.Join? { MasterRaises(pc, s.sh.qDone < |s.workers|); }
    forall k | 0 <= k < |s.workers| ensures SawFlag(s'.workers[k].pc, s'.sh) {
      TouchedAlike(pc, s.workers[k]);
      assert WorkerOk(s.workers[k], pc, s.sh) && SawFlag(s.workers[k].pc, s.sh);
      if pc == Closing(SetDone) {
        assert EMtx in Owns(s, OfMaster);
        AloneUnderE(s, OfMaster, k);
      }
      hide BarrierInv, AllSaw, MasterGo, MasterShared, MasterCode, MasterLog, MasterTouch, LocksNext, InPop, Parked;
    }
  }

  /** Once the master is past the join, the managers have nothing left to push or to publish. */
  lemma NothingLeft(s: State)
    requires BarrierInv(s) && LedgerInv(s) && !s.master.Join?
    ensures !AnyTodo(s.managers) && !AnyUnpublished(s.managers)
  {
    assert Joined(s.managers, s.master);
    forall j | 0 <= j < |s.managers| ensures s.managers[j].todo == [] { assert ExitedOk(s.managers[j]); }
  }

  lemma MasterKeepsExact(s: State, s': State)
    requires BarrierInv(s) && LedgerInv(s) && FewInv(s) && MasterStep(s) == Some(s')
    requires |s.log.offered| <= 1 && !s'.sh.done
    ensures Exact(s')
  {
    var pc := s.master;
    MasterEffect(pc, s.sh);
    if pc.Join? {
      JoinKeepsExact(s, s');
    } else {
      NothingLeft(s);
      MasterRaises(pc, s.sh.qDone < |s.workers|);
      if AnySetEmpty(s.workers) {
        var k :| 0 <= k < |s.workers| && s.workers[k].pc == Popping(SetEmpty);
        assert s'.workers[k].pc == Popping(SetEmpty);
      }
      hide BarrierInv, LedgerInv, MasterGo, MasterShared, MasterCode, MasterLog, LocksNext, AnyTodo, AnyUnpublished,
        EmptyIsRaised;
    }
  }

  lemma JoinKeepsExact(s: State, s': State)
    requires Exact(s) && s.master.Join? && MasterStep(s) == Some(s')
    ensures Exact(s')
  {
    MasterEffect(s.master, s.sh);
    hide MasterGo, MasterShared, MasterCode, MasterLog, LocksNext, Exact;
    assert s'.workers == s.workers by { assert forall k :: 0 <= k < |s.workers| ==> s'.workers[k] == s.workers[k]; }
    SameExact(s, s');
  }

  lemma SameExact(s: State, s': State)
    requires Exact(s) && s'.workers == s.workers && s'.managers == s.managers
    requires s'.sh.empty == s.sh.empty && s'.sh.q == s.sh.q
    ensures Exact(s')
  {
  }

  lemma MasterKeepsFew(s: State, s': State)
    requires BarrierInv(s) && LedgerInv(s) && FewInv(s) && MasterStep(s) == Some(s')
    ensures FewInv(s')
  {
    MasterKeepsSaw(s, s');
    MasterEffect(s.master, s.sh);
    if !s.master.Join? { MasterRaises(s.master, s.sh.qDone < |s.workers|); }
    if |s.log.offered| <= 1 && !s'.sh.done { MasterKeepsExact(s, s'); }
    hide BarrierInv, LedgerInv, MasterGo, MasterShared, MasterCode, LocksNext, Exact, AllSaw, MasterWorkers;
  }

  lemma NewSessionKeepsFew(s: State, jobs: seq<seq<Entry>>, s': State)
    requires BarrierInv(s) && FewInv(s) && NewSessionStep(s, jobs) == Some(s')
    ensures FewInv(s')
  {
    assert MasterOk(s.master, s.sh);
    hide BarrierInv, AllSaw, Pool;
  }

  lemma OutsideKeepsFew(s: State, a: Action, s': State)
    requires FewInv(s) && FromOutside(a) && Step(s, a) == Some(s')
    ensures FewInv(s')
  {
    OutsideMoves(s, a, s');
    hide Step;
    ManagersStay(s.managers, s'.managers);
    if AnySetEmpty(s.workers) {
      var k :| 0 <= k < |s.workers| && s.workers[k].pc == Popping(SetEmpty);
      assert s'.workers[k].pc == Popping(SetEmpty);
    }
    hide AnyTodo, AnyUnpublished, AnySetEmpty, InPop;
  }

  /** What can happen from outside: a wakeup, or a manager that is never answered. */
  lemma OutsideMoves(s: State, a: Action, s': State)
    requires FromOutside(a) && Step(s, a) == Some(s')
    ensures s'.sh == s.sh && s'.log == s.log && (EmptyIsRaised(s'.master) <==> EmptyIsRaised(s.master))
    ensures |s'.workers| == |s.workers| && |s'.managers| == |s.managers|
    ensures forall i :: 0 <= i < |s.workers| ==>
      s'.workers[i] == s.workers[i]
      || (s'.workers[i].pc != Waiting(Branch) && !InPop(s'.workers[i].pc) && !InPop(s.workers[i].pc))
    ensures forall j :: 0 <= j < |s.managers| ==>
      s'.managers[j].todo == s.managers[j].todo && (Unpublished(s'.managers[j].pc) ==> Unpublished(s.managers[j].pc))
  {
  }

  lemma ManagersStay(gs: seq<Manager>, hs: seq<Manager>)
    requires |hs| == |gs|
    requires forall j :: 0 <= j < |gs| ==> hs[j].todo == gs[j].todo && (Unpublished(hs[j].pc) ==> Unpublished(gs[j].pc))
    ensures AnyTodo(hs) ==> AnyTodo(gs)
    ensures AnyUnpublished(hs) ==> AnyUnpublished(gs)
  {
    if k :| 0 <= k < |hs| && hs[k].todo != [] { assert gs[k].todo != []; }
    if k :| 0 <= k < |hs| && Unpublished(hs[k].pc) { assert Unpublished(gs[k].pc); }
  }

  lemma StepKeepsFew(s: State, a: Action, s': State)
    requires Inv(s) && FewInv(s) && Step(s, a) == Some(s') && !s'.aborted
    ensures FewInv(s')
  {
    FewFacts(s);
    hide Inv, ProgressInv, BarrierInv, LedgerInv, FewInv, WorkerStep, ManagerStep, MasterStep, NewSessionStep;
    match a
    case RunWorker(i, pick, outcome) => WorkerKeepsFew(s, i, pick, outcome, s');
    case RunManager(j, pick) => ManagerKeepsFew(s, j, pick, s');
    case RunMaster => MasterKeepsFew(s, s');
    case NewSession(jobs) => NewSessionKeepsFew(s, jobs, s');
    case _ => OutsideKeepsFew(s, a, s');
  }

  lemma FewFacts(s: State)
    requires Inv(s)
    ensures ProgressInv(s) && BarrierInv(s) && LedgerInv(s) && LocksExact(s)
  {
  }

  /** Only a pop of the empty queue ends the program. */
  lemma AbortIsPop(s: State, a: Action, s': State)
    requires Step(s, a) == Some(s') && s'.aborted
    ensures s'.log.offered == s.log.offered
    ensures exists i :: 0 <= i < |s.workers| && s.workers[i].pc == Popping(Pop) && s.sh.q == []
  {
    hide WorkerNext, WorkerShared, WorkerLog, ManagerNext, ManagerShared, ManagerLog, MasterGo, MasterShared, LocksNext;
    if a.RunWorker? { assert s.workers[a.w].pc == Popping(Pop); }
  }

  lemma {:induction false} FewOnRuns(s0: State, n: nat, actions: seq<Action>, s: State)
    requires Init(s0, n) && Exec(s0, actions) == Some(s)
    ensures if s.aborted then |s.log.offered| >= 2 else FewInv(s)
  {
    hide Inv, Step, FewInv;
    if actions == [] {
      FewInit(s0, n);
      InitIsLive(s0, n);
    } else {
      var most := actions[..|actions| - 1];
      var a := actions[|actions| - 1];
      var u := Exec(s0, most).value;
      LiveBeforeStep(u, a, s);
      FewOnRuns(s0, n, most, u);
      InvOnRuns(s0, n, most, u);
      if s.aborted {
        AbortIsPop(u, a, s);
        var i :| 0 <= i < |u.workers| && u.workers[i].pc == Popping(Pop) && u.sh.q == [];
        FewFacts(u);
        if |u.log.offered| <= 1 { PopFinds(u, i); }
      } else {
        StepKeepsFew(u, a, s);
      }
    }
  }

  lemma InitIsLive(s: State, n: nat)
    requires Init(s, n)
    ensures !s.aborted
  {
  }

  /** A session that offers at most one entry never aborts. */
  lemma AbortNeedsTwo(s: State, n: nat)
    requires Reachable(s, n) && s.aborted
    ensures |s.log.offered| >= 2
  {
    var s0, actions :| Init(s0, n) && Exec(s0, actions) == Some(s);
    FewOnRuns(s0, n, actions, s);
  }
}
