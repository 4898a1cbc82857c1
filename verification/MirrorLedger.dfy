/**
 Conservation in the mirror server: every entry offered to a session is still to be pushed,
 queued, held by one worker, finished, or dropped at a full queue, and is counted once
 (mirror_manager.cpp:120-149, worker.cpp:74-159).
 */
module MirrorLedger {
  import opened Folds
  import opened MirrorModel
  import opened Threads
  import opened MirrorLocks
  import opened MirrorBarrier
  import opened MirrorFlags

  /** Fewer offered entries than this never meet a full queue. */
  const FIRST_DROP: nat := CAPACITY + 2

  /** From its pop to the end of its fetch a worker has an entry. */
  predicate CarryOk(w: Worker) {
    (Carrying(w.pc) && !w.pc.Draining?) ==> w.item.Some?
  }

  predicate ExitedOk(g: Manager) {
    g.pc == Exited ==> g.todo == []
  }

  ghost function Accounted(s: State): multiset<Entry> {
    Pool(s.managers, Todo) + multiset(s.sh.q) + Pool(s.workers, Held) + s.log.finished + s.log.dropped
  }

  /** Entries that have been popped in this session. */
  ghost function Popped(s: State): multiset<Entry> {
    Pool(s.workers, Held) + s.log.finished
  }

  predicate AnySetFull(gs: seq<Manager>) {
    exists j :: 0 <= j < |gs| && gs[j].pc == SetFull
  }

  /** A manager about to push saw the full flag lowered, and nobody has raised it since. */
  predicate SawRoom(g: Manager, sh: Shared) {
    g.pc == RwLock || g.pc == Push ==> !sh.full
  }

  ghost predicate SomePopped(s: State) {
    Popped(s) != multiset{}
  }

  /** A full queue under a lowered full flag: a push not yet noted, or somebody has popped. */
  ghost predicate FullUnnoted(s: State) {
    !s.sh.done && !s.sh.full && |s.sh.q| == CAPACITY ==> AnySetFull(s.managers) || SomePopped(s)
  }

  /** What the single threads know about their entries. */
  ghost predicate Notes(s: State) {
    && (forall i :: 0 <= i < |s.workers| ==> CarryOk(s.workers[i]))
    && (forall j :: 0 <= j < |s.managers| ==> ExitedOk(s.managers[j]) && SawRoom(s.managers[j], s.sh))
  }

  ghost predicate Account(s: State) {
    s.log.offered == Accounted(s)
  }

  ghost predicate DropsJustified(s: State) {
    s.log.dropped != multiset{} ==> |s.log.offered| >= FIRST_DROP
  }

  ghost predicate LedgerInv(s: State) {
    Notes(s) && Account(s) && FullUnnoted(s) && DropsJustified(s)
  }

  lemma LedgerInit(s: State, n: nat)
    requires Init(s, n)
    ensures LedgerInv(s)
  {
    PoolEmpty(s.workers, Held);
  }

  // ---- A worker's step ----------------------------------------------------------------------------

  predicate Pops(pc: WorkerPc, sh: Shared) {
    (pc == Popping(Pop) || pc == Draining(TryPop)) && sh.q != []
  }

  predicate Closes(pc: WorkerPc) {
    pc.Fetching? && pc.fetch == Close
  }

  /** Only a pop gives a worker an entry, and only the end of a fetch takes it away. */
  lemma ItemMoves(w: Worker, sh: Shared, log: Log, outcome: NetResult)
    ensures var w' := WorkerNext(w, sh, outcome);
            && w'.item == (if Pops(w.pc, sh) then Some(sh.q[0]) else if Closes(w.pc) then None else w.item)
            && (Carrying(w'.pc) && !w'.pc.Draining? && !Carrying(w.pc) ==> w.pc == Popping(Pop))
            && (Closes(w.pc) ==> !Carrying(w'.pc))
            && (w.pc.Draining? && Carrying(w'.pc) && !w'.pc.Draining? ==> w.item.Some?)
  {
  }

  lemma LogMoves(w: Worker, log: Log, outcome: NetResult)
    ensures var log' := WorkerLog(w, log, outcome);
            && log'.finished == (if Closes(w.pc) then log.finished + Held(w) else log.finished)
            && log'.offered == log.offered && log'.dropped == log.dropped && log'.reports == log.reports
  {
  }

  lemma WorkerCarries(w: Worker, master: MasterPc, sh: Shared, log: Log, outcome: NetResult)
    requires WorkerOk(w, master, sh) && CarryOk(w) && !(w.pc == Popping(Pop) && sh.q == [])
    ensures CarryOk(WorkerNext(w, sh, outcome))
    ensures Pops(w.pc, sh) ==> Held(w) == multiset{}
    ensures w.pc == Popping(ClearFull) ==> Held(w) != multiset{}
  {
    ItemMoves(w, sh, log, outcome);
    hide WorkerNext;
  }

  /** What a worker's step does to the entry it holds, the queue and the finished entries. */
  ghost predicate Balanced(w: Worker, w': Worker, q: seq<Entry>, q': seq<Entry>, finished: multiset<Entry>,
      finished': multiset<Entry>) {
    && multiset(q) + Held(w) + finished == multiset(q') + Held(w') + finished'
    && (Held(w) + finished <= Held(w') + finished')
  }

  lemma WorkerBalances(w: Worker, master: MasterPc, sh: Shared, log: Log, outcome: NetResult)
    requires WorkerOk(w, master, sh) && CarryOk(w) && !(w.pc == Popping(Pop) && sh.q == [])
    ensures Balanced(w, WorkerNext(w, sh, outcome), sh.q, WorkerShared(w, sh).q, log.finished,
      WorkerLog(w, log, outcome).finished)
  {
    ItemMoves(w, sh, log, outcome);
    LogMoves(w, log, outcome);
    WorkerEffect(w, sh);
    WorkerCarries(w, master, sh, log, outcome);
    hide WorkerNext, WorkerShared, WorkerLog, WorkerOk, CarryOk, Carrying, Closes;
    if Pops(w.pc, sh) {
      assert !Closes(w.pc) by { NotBoth(w.pc, sh); }
      hide Pops;
      assert multiset(sh.q) == multiset{sh.q[0]} + multiset(sh.q[1..]) by { assert sh.q == [sh.q[0]] + sh.q[1..]; }
    } else if Closes(w.pc) {
      assert Held(WorkerNext(w, sh, outcome)) == multiset{};
    } else {
      assert Held(WorkerNext(w, sh, outcome)) == Held(w);
    }
  }

  lemma NotBoth(pc: WorkerPc, sh: Shared)
    requires Pops(pc, sh)
    ensures !Closes(pc)
  {
  }

  lemma WorkerKeepsBalance(s: State, i: nat, pick: nat, outcome: NetResult, s': State)
    requires FlagInv(s) && LedgerInv(s) && i < |s.workers| && WorkerStep(s, i, pick, outcome) == Some(s') && !s'.aborted
    ensures Account(s') && s'.log.dropped == s.log.dropped && s'.log.offered == s.log.offered
    ensures Popped(s) <= Popped(s')
  {
    var w := s.workers[i];
    assert WorkerOk(w, s.master, s.sh);
    WorkerBalances(w, s.master, s.sh, s.log, outcome);
    LogMoves(w, s.log, outcome);
    PoolUpdate(s.workers, Held, i, WorkerNext(w, s.sh, outcome));
    if w.pc == Popping(SignalF) {
      SignalledManagers(s.managers, pick, s'.managers);
      PoolSame(s'.managers, s.managers, Todo);
    }
    hide FlagInv, WorkerNext, WorkerShared, WorkerLog, WorkerCode, Blocked, LocksNext, SignalManagers, WorkerOk,
      FullUnnoted, Held, Notes, DropsJustified;
    assert Pool(s'.managers, Todo) == Pool(s.managers, Todo);
    assert Pool(s'.workers, Held) == Pool(s.workers, Held) - Held(w) + Held(WorkerNext(w, s.sh, outcome));
    BalanceShifts(Pool(s.workers, Held), Held(w), Held(WorkerNext(w, s.sh, outcome)),
                  multiset(s.sh.q), multiset(s'.sh.q), s.log.finished, s'.log.finished,
                  Pool(s.managers, Todo), s.log.dropped);
  }

  /** Multiset bookkeeping: replacing one share by another that balances leaves the account as it is. */
  lemma BalanceShifts(pool: multiset<Entry>, h: multiset<Entry>, h': multiset<Entry>,
                      q: multiset<Entry>, q': multiset<Entry>, fin: multiset<Entry>, fin': multiset<Entry>,
                      todo: multiset<Entry>, dropped: multiset<Entry>)
    requires h <= pool && q + h + fin == q' + h' + fin' && h + fin <= h' + fin'
    ensures todo + q + pool + fin + dropped == todo + q' + (pool - h + h') + fin' + dropped
    ensures pool + fin <= pool - h + h' + fin'
  {
    var rest := pool - h;
    assert pool == rest + h;
    assert todo + q + pool + fin + dropped == (q + h + fin) + (todo + rest + dropped);
    assert todo + q' + (pool - h + h') + fin' + dropped == (q' + h' + fin') + (todo + rest + dropped);
    assert pool + fin == rest + (h + fin);
    assert pool - h + h' + fin' == rest + (h' + fin');
  }

  /** A worker that lowers the full flag has an entry in its hands. */
  lemma ClearerHolds(s: State, i: nat)
    requires Notes(s) && i < |s.workers| && s.workers[i].pc == Popping(ClearFull)
    ensures SomePopped(s)
  {
    var w := s.workers[i];
    assert CarryOk(w);
    PoolUpdate(s.workers, Held, i, w);
    assert w.item.value in Pool(s.workers, Held);
    assert w.item.value in Popped(s);
  }

  lemma PoppedStays(s: State, s': State)
    requires Popped(s) <= Popped(s') && SomePopped(s)
    ensures SomePopped(s')
  {
    var e :| e in Popped(s);
    assert e in Popped(s');
  }

  lemma SetFullStays(s: State, i: nat, pick: nat, outcome: NetResult, s': State)
    requires i < |s.workers| && WorkerStep(s, i, pick, outcome) == Some(s') && !s'.aborted
    ensures AnySetFull(s.managers) ==> AnySetFull(s'.managers)
  {
    if s.workers[i].pc == Popping(SignalF) { SignalledManagers(s.managers, pick, s'.managers); }
    hide WorkerNext, WorkerShared, WorkerLog, WorkerCode, Blocked, LocksNext, SignalManagers;
    if AnySetFull(s.managers) {
      var j :| 0 <= j < |s.managers| && s.managers[j].pc == SetFull;
      assert s'.managers[j].pc == SetFull;
    }
  }

  lemma WorkerKeepsUnnoted(s: State, i: nat, pick: nat, outcome: NetResult, s': State)
    requires FlagInv(s) && LedgerInv(s) && i < |s.workers| && WorkerStep(s, i, pick, outcome) == Some(s') && !s'.aborted
    ensures FullUnnoted(s')
  {
    var w := s.workers[i];
    assert |s.sh.q| <= CAPACITY;
    WorkerEffect(w, s.sh);
    WorkerKeepsBalance(s, i, pick, outcome, s');
    if SomePopped(s) { PoppedStays(s, s'); }
    if w.pc == Popping(ClearFull) { ClearerHolds(s, i); }
    SetFullStays(s, i, pick, outcome, s');
    hide FlagInv, WorkerNext, WorkerShared, WorkerLog, WorkerCode, Blocked, LocksNext, SignalManagers, Account, Notes,
      DropsJustified, SomePopped, Popped, AnySetFull;
  }

  lemma WorkerKeepsNotes(s: State, i: nat, pick: nat, outcome: NetResult, s': State)
    requires FlagInv(s) && LedgerInv(s) && i < |s.workers| && WorkerStep(s, i, pick, outcome) == Some(s') && !s'.aborted
    ensures Notes(s')
  {
    var w := s.workers[i];
    assert WorkerOk(w, s.master, s.sh);
    WorkerCarries(w, s.master, s.sh, s.log, outcome);
    WorkerEffect(w, s.sh);
    hide FlagInv, WorkerNext, WorkerShared, WorkerLog, WorkerCode, Blocked, LocksNext, SignalManagers, WorkerOk,
      CarryOk, Account, FullUnnoted, DropsJustified, Held;
    if w.pc == Popping(SignalF) {
      SignalledManagers(s.managers, pick, s'.managers);
      SignalKeepsNotes(s.managers, pick, s'.managers, s.sh);
    }
  }

  lemma SignalKeepsNotes(gs: seq<Manager>, pick: nat, hs: seq<Manager>, sh: Shared)
    requires SignalManagers(gs, pick) == Some(hs)
    requires forall j :: 0 <= j < |gs| ==> ExitedOk(gs[j]) && SawRoom(gs[j], sh)
    ensures forall j :: 0 <= j < |hs| ==> ExitedOk(hs[j]) && SawRoom(hs[j], sh)
  {
    SignalledManagers(gs, pick, hs);
  }

  lemma WorkerKeepsLedger(s: State, i: nat, pick: nat, outcome: NetResult, s': State)
    requires FlagInv(s) && LedgerInv(s) && i < |s.workers| && WorkerStep(s, i, pick, outcome) == Some(s') && !s'.aborted
    ensures LedgerInv(s')
  {
    WorkerKeepsBalance(s, i, pick, outcome, s');
    WorkerKeepsUnnoted(s, i, pick, outcome, s');
    WorkerKeepsNotes(s, i, pick, outcome, s');
    hide FlagInv, WorkerStep, Notes, Account, FullUnnoted;
  }

  // ---- A manager's step ---------------------------------------------------------------------------

  lemma ManagerSaw(g: Manager, sh: Shared)
    requires ExitedOk(g) && SawRoom(g, sh) && g.pc != Exited
    ensures ExitedOk(ManagerNext(g, sh)) && SawRoom(ManagerNext(g, sh), ManagerShared(g, sh))
    ensures (g.pc == SetFull) <==> ManagerNext(g, sh).pc == RwUnlock
    ensures ManagerNext(g, sh).todo == if g.pc == Push && g.todo != [] then g.todo[1..] else g.todo
  {
  }

  /** Another manager's view of the full flag: only the holder of the full mutex changes it. */
  lemma OthersSaw(s: State, j: nat, k: nat, s': State, pick: nat)
    requires FlagInv(s) && j < |s.managers| && k < |s.managers| && j != k && ManagerStep(s, j, pick) == Some(s')
    requires SawRoom(s.managers[k], s.sh)
    ensures SawRoom(s'.managers[k], s'.sh)
  {
    ManagerEffect(s.managers[j], s.sh);
    if s.managers[j].pc == SetFull && (s.managers[k].pc == RwLock || s.managers[k].pc == Push) {
      MutualExclusion(s, OfManager(j), OfManager(k), FMtx);
    }
  }

  /** The share of a manager in the account, with what it pushes or drops. */
  lemma ManagerBalances(g: Manager, sh: Shared, log: Log)
    ensures var g' := ManagerNext(g, sh);
            && Todo(g) + multiset(sh.q) + log.dropped
              == Todo(g') + multiset(ManagerShared(g, sh).q) + ManagerLog(g, sh, log).dropped
            && ManagerLog(g, sh, log).finished == log.finished && ManagerLog(g, sh, log).offered == log.offered
  {
    ManagerEffect(g, sh);
    if g.pc == Push && g.todo != [] {
      assert g.todo == [g.todo[0]] + g.todo[1..];
    }
  }

  lemma ManagerKeepsBalance(s: State, j: nat, pick: nat, s': State)
    requires LedgerInv(s) && j < |s.managers| && ManagerStep(s, j, pick) == Some(s')
    ensures Account(s') && s'.log.offered == s.log.offered
    ensures Popped(s') == Popped(s)
  {
    var g := s.managers[j];
    ManagerBalances(g, s.sh, s.log);
    PoolUpdate(s.managers, Todo, j, ManagerNext(g, s.sh));
    if g.pc == SignalE { SignalledHold(s.workers, pick, s'.workers); }
    hide ManagerNext, ManagerShared, ManagerLog, ManagerCode, Blocked, LocksNext, SignalWorkers, FullUnnoted, Todo,
      Notes, DropsJustified;
    assert Pool(s'.workers, Held) == Pool(s.workers, Held);
    ShareMoves(Pool(s.managers, Todo), Todo(g), Todo(s'.managers[j]), multiset(s.sh.q), multiset(s'.sh.q),
               Pool(s.workers, Held), s.log.finished, s.log.dropped, s'.log.dropped);
  }

  lemma ShareMoves(pool: multiset<Entry>, t: multiset<Entry>, t': multiset<Entry>,
                   q: multiset<Entry>, q': multiset<Entry>, held: multiset<Entry>,
                   fin: multiset<Entry>, dropped: multiset<Entry>, dropped': multiset<Entry>)
    requires t <= pool && t + q + dropped == t' + q' + dropped'
    ensures pool + q + held + fin + dropped == (pool - t + t') + q' + held + fin + dropped'
  {
    var rest := pool - t;
    assert pool == rest + t;
    assert pool + q + held + fin + dropped == (t + q + dropped) + (rest + held + fin);
    assert (pool - t + t') + q' + held + fin + dropped' == (t' + q' + dropped') + (rest + held + fin);
  }

  lemma SignalledHold(ws: seq<Worker>, pick: nat, vs: seq<Worker>)
    requires SignalWorkers(ws, pick) == Some(vs)
    ensures |vs| == |ws| && Pool(vs, Held) == Pool(ws, Held)
    ensures forall i :: 0 <= i < |ws| ==> vs[i] == ws[i] || vs[i] == ws[i].(pc := Spurious(ws[i].pc))
  {
    PoolSame(vs, ws, Held);
  }

  lemma ManagerKeepsUnnoted(s: State, j: nat, pick: nat, s': State)
    requires FlagInv(s) && LedgerInv(s) && j < |s.managers| && ManagerStep(s, j, pick) == Some(s')
    ensures FullUnnoted(s')
  {
    var g := s.managers[j];
    ManagerKeepsBalance(s, j, pick, s');
    assert SomePopped(s') == SomePopped(s);
    ManagerEffect(g, s.sh);
    ManagerIsLive(s, j, pick, s');
    SetFullMoves(s.managers, j, s.sh);
    hide FlagInv, ManagerStep, ManagerNext, ManagerShared, SomePopped, Notes, Account, DropsJustified, AnySetFull;
  }

  /** A manager about to write the full flag stays there unless it is the one that steps. */
  lemma SetFullMoves(gs: seq<Manager>, j: nat, sh: Shared)
    requires j < |gs|
    ensures AnySetFull(gs) && gs[j].pc != SetFull ==> AnySetFull(gs[j := ManagerNext(gs[j], sh)])
    ensures gs[j].pc == Push ==> AnySetFull(gs[j := ManagerNext(gs[j], sh)])
  {
    ManagerMoves(gs[j], sh);
    hide ManagerNext;
    var hs := gs[j := ManagerNext(gs[j], sh)];
    if gs[j].pc == Push { assert hs[j].pc == SetFull; }
    if AnySetFull(gs) && gs[j].pc != SetFull {
      var k :| 0 <= k < |gs| && gs[k].pc == SetFull;
      assert hs[k] == gs[k];
    }
  }

  lemma PusherIsAlone(s: State, j: nat)
    requires LocksExact(s) && j < |s.managers| && s.managers[j].pc == Push
    ensures !AnySetFull(s.managers)
  {
    forall k | 0 <= k < |s.managers| ensures s.managers[k].pc != SetFull {
      if s.managers[k].pc == SetFull {
        MutualExclusion(s, OfManager(j), OfManager(k), FMtx);
      }
    }
  }

  /** A push that meets a full queue: somebody has popped, and there is one entry too many. */
  lemma DropNeedsMany(s: State, j: nat, pick: nat, s': State)
    requires FlagInv(s) && LedgerInv(s) && j < |s.managers| && ManagerStep(s, j, pick) == Some(s')
    requires s.managers[j].pc == Push && s.managers[j].todo != [] && |s.sh.q| == CAPACITY
    ensures |s.log.offered| >= FIRST_DROP
  {
    var g := s.managers[j];
    PusherIsAlone(s, j);
    ManagerMovesInJoin(s, j, pick, s');
    assert MasterOk(s.master, s.sh) && SawRoom(g, s.sh);
    assert SomePopped(s);
    PoolUpdate(s.managers, Todo, j, g);
    ManyOffered(Pool(s.managers, Todo), g.todo, s.sh.q, Popped(s), s.log.dropped);
    hide FlagInv, ManagerStep, Notes, FullUnnoted, DropsJustified;
    assert Accounted(s) == Pool(s.managers, Todo) + multiset(s.sh.q) + Popped(s) + s.log.dropped;
  }

  lemma ManyOffered(todo: multiset<Entry>, mine: seq<Entry>, q: seq<Entry>, popped: multiset<Entry>,
      dropped: multiset<Entry>)
    requires multiset(mine) <= todo && mine != [] && |q| == CAPACITY && popped != multiset{}
    ensures |todo + multiset(q) + popped + dropped| >= FIRST_DROP
  {
    var e :| e in popped;
    assert popped == multiset{e} + (popped - multiset{e});
    assert mine == [mine[0]] + mine[1..];
    assert mine[0] in todo;
    assert todo == multiset{mine[0]} + (todo - multiset{mine[0]});
  }

  lemma ManagerKeepsJustified(s: State, j: nat, pick: nat, s': State)
    requires FlagInv(s) && LedgerInv(s) && j < |s.managers| && ManagerStep(s, j, pick) == Some(s')
    ensures DropsJustified(s')
  {
    var g := s.managers[j];
    if g.pc == Push && g.todo != [] && |s.sh.q| == CAPACITY {
      DropNeedsMany(s, j, pick, s');
    }
    hide FlagInv, ManagerNext, ManagerShared, ManagerCode, Blocked, LocksNext, SignalWorkers, Notes, Account,
      FullUnnoted;
  }

  lemma ManagerKeepsCarry(s: State, j: nat, pick: nat, s': State)
    requires Notes(s) && j < |s.managers| && ManagerStep(s, j, pick) == Some(s')
    ensures forall i :: 0 <= i < |s'.workers| ==> CarryOk(s'.workers[i])
  {
    if s.managers[j].pc == SignalE { SignalledHold(s.workers, pick, s'.workers); }
    hide ManagerNext, ManagerShared, ManagerLog, ManagerCode, Blocked, LocksNext, SignalWorkers;
  }

  lemma ManagerKeepsNotes(s: State, j: nat, pick: nat, s': State)
    requires FlagInv(s) && LedgerInv(s) && j < |s.managers| && ManagerStep(s, j, pick) == Some(s')
    ensures Notes(s')
  {
    ManagerIsLive(s, j, pick, s');
    hide FlagInv, ManagerStep, CarryOk, ManagerNext, ManagerShared, Account, FullUnnoted, DropsJustified;
    ManagerKeepsCarry(s, j, pick, s');
    ManagerSaw(s.managers[j], s.sh);
    forall k | 0 <= k < |s.managers| ensures ExitedOk(s'.managers[k]) && SawRoom(s'.managers[k], s'.sh) {
      if k != j { OthersSaw(s, j, k, s', pick); }
    }
  }

  lemma ManagerIsLive(s: State, j: nat, pick: nat, s': State)
    requires j < |s.managers| && ManagerStep(s, j, pick) == Some(s')
    ensures s.managers[j].pc != Exited
    ensures s'.managers == s.managers[j := ManagerNext(s.managers[j], s.sh)]
      && s'.sh == ManagerShared(s.managers[j], s.sh)
  {
    hide ManagerNext, ManagerShared, ManagerLog, SignalWorkers;
  }

  lemma ManagerKeepsLedger(s: State, j: nat, pick: nat, s': State)
    requires FlagInv(s) && LedgerInv(s) && j < |s.managers| && ManagerStep(s, j, pick) == Some(s')
    ensures LedgerInv(s')
  {
    ManagerKeepsBalance(s, j, pick, s');
    ManagerKeepsUnnoted(s, j, pick, s');
    ManagerKeepsJustified(s, j, pick, s');
    ManagerKeepsNotes(s, j, pick, s');
  }

  // ---- The master's step and the others -----------------------------------------------------------

  /** Steps that move no entry: the same queue, the same shares, the same history. */
  ghost predicate SameShares(s: State, s': State) {
    && s'.sh.q == s.sh.q && s'.log.offered == s.log.offered && s'.log.finished == s.log.finished
      && s'.log.dropped == s.log.dropped
    && |s'.workers| == |s.workers| && (forall i :: 0 <= i < |s.workers| ==> s'.workers[i].item == s.workers[i].item)
    && |s'.managers| == |s.managers|
      && (forall j :: 0 <= j < |s.managers| ==> s'.managers[j].todo == s.managers[j].todo)
  }

  lemma SameSharesKeep(s: State, s': State)
    requires SameShares(s, s') && Account(s) && DropsJustified(s)
    ensures Account(s') && DropsJustified(s') && SomePopped(s') == SomePopped(s)
  {
    PoolSame(s'.workers, s.workers, Held);
    PoolSame(s'.managers, s.managers, Todo);
  }

  /** The master's steps and the spurious wakeups move no entry and no manager out of its push. */
  lemma MasterShares(s: State, s': State)
    requires FlagInv(s) && MasterStep(s) == Some(s')
    ensures SameShares(s, s') && s'.managers == s.managers
    ensures forall i :: 0 <= i < |s.workers| ==>
      s'.workers[i].pc == s.workers[i].pc || s'.workers[i].pc == Spurious(s.workers[i].pc)
  {
    MasterEffect(s.master, s.sh);
    hide FlagInv, MasterGo, MasterShared, MasterCode, Blocked, LocksNext;
  }

  lemma MasterFull(s: State, s': State)
    requires FlagInv(s) && MasterStep(s) == Some(s')
    ensures s'.sh.full ==> s.sh.full
    ensures !s'.sh.done && !s'.sh.full && s'.sh.q != [] ==> !s.sh.done && !s.sh.full
  {
    MasterEffect(s.master, s.sh);
    if !s.master.Join? { MasterMoves(s.master, s.sh.qDone < |s.workers|); }
    assert MasterOk(s.master, s.sh);
    hide FlagInv, MasterGo, MasterShared, MasterCode, Blocked, LocksNext;
  }

  lemma MasterKeepsLedger(s: State, s': State)
    requires FlagInv(s) && LedgerInv(s) && MasterStep(s) == Some(s')
    ensures LedgerInv(s')
  {
    hide FlagInv, MasterStep, SomePopped, AnySetFull;
    MasterShares(s, s');
    MasterFull(s, s');
    SameSharesKeep(s, s');
    SharesKeepNotes(s, s');
    hide Notes, Account, DropsJustified;
  }

  lemma SharesKeepNotes(s: State, s': State)
    requires Notes(s) && SameShares(s, s') && (s'.sh.full ==> s.sh.full)
    requires forall j :: 0 <= j < |s.managers| ==> GoesOutside(s.managers[j].pc, s'.managers[j].pc)
    requires forall i :: 0 <= i < |s.workers| ==> s'.workers[i].pc in {s.workers[i].pc, Spurious(s.workers[i].pc)}
    ensures Notes(s')
  {
    forall i | 0 <= i < |s.workers| ensures CarryOk(s'.workers[i]) {
      assert CarryOk(s.workers[i]);
    }
    forall j | 0 <= j < |s.managers| ensures ExitedOk(s'.managers[j]) && SawRoom(s'.managers[j], s'.sh) {
      assert ExitedOk(s.managers[j]) && SawRoom(s.managers[j], s.sh);
    }
  }

  lemma NewSessionKeepsLedger(s: State, jobs: seq<seq<Entry>>, s': State)
    requires FlagInv(s) && LedgerInv(s) && NewSessionStep(s, jobs) == Some(s')
    ensures LedgerInv(s')
  {
    assert MasterOk(s.master, s.sh);
    PoolEmpty(s.workers, Held);
    hide FlagInv;
  }

  lemma OutsideKeepsNotes(s: State, a: Action, s': State)
    requires Notes(s) && FromOutside(a) && Step(s, a) == Some(s')
    ensures Notes(s') && SameShares(s, s') && s'.sh == s.sh && (AnySetFull(s.managers) ==> AnySetFull(s'.managers))
  {
    OutsideShares(s, a, s');
    hide Step;
    SharesKeepNotes(s, s');
    if AnySetFull(s.managers) {
      var k :| 0 <= k < |s.managers| && s.managers[k].pc == SetFull;
      assert s'.managers[k].pc == SetFull;
    }
  }

  lemma OutsideShares(s: State, a: Action, s': State)
    requires FromOutside(a) && Step(s, a) == Some(s')
    ensures SameShares(s, s') && s'.sh == s.sh
    ensures forall i :: 0 <= i < |s.workers| ==> s'.workers[i].pc in {s.workers[i].pc, Spurious(s.workers[i].pc)}
    ensures forall j :: 0 <= j < |s.managers| ==> GoesOutside(s.managers[j].pc, s'.managers[j].pc)
  {
  }

  /** A manager that something outside moves is at neither end of its push, nor at its exit. */
  predicate GoesOutside(pc: ManagerPc, pc': ManagerPc) {
    pc' == pc || (pc != SetFull && pc' != RwLock && pc' != Push && pc' != Exited)
  }

  lemma OutsideKeepsLedger(s: State, a: Action, s': State)
    requires LedgerInv(s) && FromOutside(a) && Step(s, a) == Some(s')
    ensures LedgerInv(s')
  {
    OutsideKeepsNotes(s, a, s');
    SameSharesKeep(s, s');
    hide Step, Notes, Account, DropsJustified, SomePopped, AnySetFull, SameShares;
  }

  /** Every step that does not abort keeps the account. */
  lemma StepKeepsLedger(s: State, a: Action, s': State)
    requires FlagInv(s) && LedgerInv(s) && Step(s, a) == Some(s') && !s'.aborted
    ensures LedgerInv(s')
  {
    hide FlagInv, LedgerInv, WorkerStep, ManagerStep, MasterStep, NewSessionStep;
    match a
    case RunWorker(i, pick, outcome) => WorkerKeepsLedger(s, i, pick, outcome, s');
    case RunManager(j, pick) => ManagerKeepsLedger(s, j, pick, s');
    case RunMaster => MasterKeepsLedger(s, s');
    case NewSession(jobs) => NewSessionKeepsLedger(s, jobs, s');
    case _ => OutsideKeepsLedger(s, a, s');
  }
}
