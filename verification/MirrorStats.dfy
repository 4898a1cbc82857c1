/**
 The statistics of the mirror server: three updates of one fetch under three different mutexes
 (worker.cpp:230-249), each a read and a write, lose nothing, and what the master reports does
 not depend on the schedule (mirror_server.cpp:231-252).
 */
module MirrorStats {
  import opened Folds
  import opened MirrorModel
  import opened Threads
  import opened MirrorLocks
  import opened MirrorBarrier
  import opened MirrorFlags
  import opened MirrorLedger

  /** Has fetched a file and not yet stored the `k`-th statistic of it. */
  predicate Owes(w: Worker, k: Stat) {
    w.got.Some? && w.pc.Fetching?
    && match w.pc.fetch
       case Start | Hung | Close => false
       case Outcome => true
       case Update(at, phase) =>
         if at == k then phase != Drop else (at == Bytes || (at == Files && k == Spread))
  }

  function OwedBytes(w: Worker): int {
    if Owes(w, Bytes) then w.got.value else 0
  }

  function OwedFiles(w: Worker): int {
    if Owes(w, Files) then 1 else 0
  }

  function OwedSpread(w: Worker): multiset<int> {
    if Owes(w, Spread) then multiset{w.got.value} else multiset{}
  }

  /** From resetting the `k`-th statistic to the next accept. */
  predicate StatIsReset(pc: MasterPc, k: Stat) {
    match pc
    case Accept | Finishing(_) => true
    case Resetting(r, at) => (
      match k
      case Bytes => (r == ResetBytes && at == ResetDrop) || r == ResetFiles || r == ResetSpread
      case Files => (r == ResetFiles && at == ResetDrop) || r == ResetSpread
      case Spread => r == ResetSpread && at == ResetDrop)
    case _ => false
  }

  /** What a worker read is still there when it writes: it holds the mutex. */
  predicate ReadIsFresh(w: Worker, sh: Shared) {
    && (w.pc.Fetching? && w.pc.fetch.Update? ==> w.got.Some?)
    && (w.pc.Fetching? && w.pc.fetch.Update? && w.pc.fetch.phase == Write ==> w.tmp == StatValue(sh, w.pc.fetch.stat))
  }

  ghost predicate BytesExact(s: State) {
    if StatIsReset(s.master, Bytes) then s.sh.bytes == 0
    else s.sh.bytes + Total(s.workers, OwedBytes) == Sum(s.log.fetched)
  }

  ghost predicate FilesExact(s: State) {
    if StatIsReset(s.master, Files) then s.sh.files == 0
    else s.sh.files + Total(s.workers, OwedFiles) == |s.log.fetched|
  }

  ghost predicate SpreadExact(s: State) {
    if StatIsReset(s.master, Spread) then s.sh.spread == []
    else multiset(s.sh.spread) + Pool(s.workers, OwedSpread) == multiset(s.log.fetched)
  }

  ghost predicate AllFresh(s: State) {
    forall i :: 0 <= i < |s.workers| ==> ReadIsFresh(s.workers[i], s.sh)
  }

  ghost predicate StatsInv(s: State) {
    AllFresh(s) && BytesExact(s) && FilesExact(s) && SpreadExact(s)
  }

  lemma StatsInit(s: State, n: nat)
    requires Init(s, n)
    ensures StatsInv(s)
  {
  }

  // ---- A worker's step ----------------------------------------------------------------------------

  /** At a given instruction a worker writes the `k`-th statistic. */
  predicate Writes(pc: WorkerPc, k: Stat) {
    pc.Fetching? && pc.fetch == Update(k, Write)
  }

  lemma StatEffect(w: Worker, sh: Shared)
    ensures var sh' := WorkerShared(w, sh);
            var got := if w.got.Some? then w.got.value else 0;
            && sh'.bytes == (if Writes(w.pc, Bytes) then w.tmp + got else sh.bytes)
            && sh'.files == (if Writes(w.pc, Files) then w.tmp + 1 else sh.files)
            && (w.tmp == |sh.spread| || !Writes(w.pc, Spread) ==>
                  sh'.spread == if Writes(w.pc, Spread) then sh.spread + [got] else sh.spread)
  {
    CodeWrites(w.pc);
    hide WorkerCode, Writes;
    if WorkerCode(w.pc).Do? && WorkerCode(w.pc).op.WriteStat? {
      assert Writes(w.pc, WorkerCode(w.pc).op.k);
    }
  }

  /** A statistic is written only there. */
  lemma CodeWrites(pc: WorkerPc)
    ensures forall k :: Writes(pc, k) <==> WorkerCode(pc).Do? && WorkerCode(pc).op == WriteStat(k)
  {
  }

  lemma FetchMoves(w: Worker, sh: Shared, outcome: NetResult)
    requires ReadIsFresh(w, sh)
    ensures var w' := WorkerNext(w, sh, outcome);
            && ReadIsFresh(w', WorkerShared(w, sh))
            && (w'.pc.Fetching? && !w.pc.Fetching? ==> w.pc == Popping(UnlockF) || w.pc == Draining(TestEnd))
            && (w'.got == if w.pc.Fetching? && w.pc.fetch == Start
              then (if outcome.Got? then Some(outcome.bytes) else None) else w.got)
  {
  }

  lemma OwesMoves(w: Worker, sh: Shared, outcome: NetResult, k: Stat)
    requires ReadIsFresh(w, sh)
    ensures var w' := WorkerNext(w, sh, outcome);
            Owes(w', k) <==>
              if w.pc.Fetching? && w.pc.fetch == Start then outcome.Got? else Owes(w, k) && !Writes(w.pc, k)
    ensures Writes(w.pc, k) ==> Owes(w, k)
    ensures w.pc.Fetching? && w.pc.fetch == Start ==> !Owes(w, k)
  {
  }

  lemma FetchedMoves(w: Worker, log: Log, outcome: NetResult)
    ensures WorkerLog(w, log, outcome).fetched
            == if w.pc.Fetching? && w.pc.fetch == Start && outcome.Got? then log.fetched + [outcome.bytes]
              else log.fetched
  {
  }

  lemma NumbersStep(w: Worker, sh: Shared, log: Log, outcome: NetResult)
    requires ReadIsFresh(w, sh)
    ensures var w' := WorkerNext(w, sh, outcome);
            var sh' := WorkerShared(w, sh);
            var fetched' := WorkerLog(w, log, outcome).fetched;
            && sh'.bytes + OwedBytes(w') - Sum(fetched') == sh.bytes + OwedBytes(w) - Sum(log.fetched)
            && sh'.files + OwedFiles(w') - |fetched'| == sh.files + OwedFiles(w) - |log.fetched|
  {
    StatEffect(w, sh);
    FetchMoves(w, sh, outcome);
    OwesMoves(w, sh, outcome, Bytes);
    OwesMoves(w, sh, outcome, Files);
    FetchedMoves(w, log, outcome);
    if outcome.Got? { SumSnoc(log.fetched, outcome.bytes); }
    hide WorkerNext, WorkerShared, WorkerLog, Owes, Sum;
  }

  lemma SpreadStep(w: Worker, sh: Shared, log: Log, outcome: NetResult)
    requires ReadIsFresh(w, sh)
    ensures multiset(WorkerShared(w, sh).spread) + OwedSpread(WorkerNext(w, sh, outcome)) + multiset(log.fetched)
            == multiset(sh.spread) + OwedSpread(w) + multiset(WorkerLog(w, log, outcome).fetched)
  {
    StatEffect(w, sh);
    FetchMoves(w, sh, outcome);
    OwesMoves(w, sh, outcome, Spread);
    FetchedMoves(w, log, outcome);
    hide WorkerNext, WorkerShared, WorkerLog, Owes;
  }

  /** A quiet master means that nobody is fetching. */
  lemma NoneFetching(s: State, i: nat)
    requires BarrierInv(s) && LedgerInv(s) && Quiet(s.master) && i < |s.workers|
    ensures !s.workers[i].pc.Fetching?
  {
    assert CarryOk(s.workers[i]);
  }

  lemma ResetIsQuiet(pc: MasterPc, k: Stat)
    ensures StatIsReset(pc, k) ==> Quiet(pc)
    ensures StatIsReset(Collecting(QSleep), k) == StatIsReset(Collecting(QWoken), k)
  {
  }

  lemma WorkerKeepsNumbers(s: State, i: nat, pick: nat, outcome: NetResult, s': State)
    requires FlagInv(s) && LedgerInv(s) && StatsInv(s) && i < |s.workers| && WorkerStep(s, i, pick, outcome) == Some(s')
      && !s'.aborted
    ensures BytesExact(s') && FilesExact(s')
  {
    var w := s.workers[i];
    assert ReadIsFresh(w, s.sh);
    NumbersStep(w, s.sh, s.log, outcome);
    TotalUpdate(s.workers, OwedBytes, i, WorkerNext(w, s.sh, outcome));
    TotalUpdate(s.workers, OwedFiles, i, WorkerNext(w, s.sh, outcome));
    StatEffect(w, s.sh);
    if Quiet(s.master) { NoneFetching(s, i); }
    ResetIsQuiet(s.master, Bytes);
    ResetIsQuiet(s.master, Files);
    hide FlagInv, LedgerInv, AllFresh, SpreadExact, WorkerNext, WorkerShared, WorkerLog, WorkerCode, Blocked,
      LocksNext, SignalManagers, OwedBytes, OwedFiles, StatIsReset, Quiet, Sum;
  }

  lemma WorkerKeepsSpread(s: State, i: nat, pick: nat, outcome: NetResult, s': State)
    requires FlagInv(s) && LedgerInv(s) && StatsInv(s) && i < |s.workers| && WorkerStep(s, i, pick, outcome) == Some(s')
      && !s'.aborted
    ensures SpreadExact(s')
  {
    var w := s.workers[i];
    var w' := WorkerNext(w, s.sh, outcome);
    assert ReadIsFresh(w, s.sh);
    SpreadStep(w, s.sh, s.log, outcome);
    PoolUpdate(s.workers, OwedSpread, i, w');
    StatEffect(w, s.sh);
    if Quiet(s.master) { NoneFetching(s, i); }
    hide Pool;
    ResetIsQuiet(s.master, Spread);
    hide FlagInv, LedgerInv, AllFresh, BytesExact, FilesExact, WorkerNext, WorkerShared, WorkerLog, WorkerCode,
      Blocked, LocksNext, SignalManagers, OwedSpread, StatIsReset, Quiet;
    assert s'.master == s.master || (s.master == Collecting(QSleep) && s'.master == Collecting(QWoken));
    if !StatIsReset(s.master, Spread) {
      SpreadShifts(Pool(s.workers, OwedSpread), OwedSpread(w), OwedSpread(w'), multiset(s.sh.spread),
        multiset(s'.sh.spread),
                   multiset(s.log.fetched), multiset(s'.log.fetched));
    }
  }

  lemma SpreadShifts(pool: multiset<int>, o: multiset<int>, o': multiset<int>, sp: multiset<int>, sp': multiset<int>,
                     f: multiset<int>, f': multiset<int>)
    requires o <= pool && sp' + o' + f == sp + o + f' && sp + pool == f
    ensures sp' + (pool - o + o') == f'
  {
    var rest := pool - o;
    assert pool == rest + o;
    assert (sp' + (rest + o')) + f == (sp + o + f') + rest;
    assert (sp + o + f') + rest == f' + f;
    forall x ensures (sp' + (rest + o'))[x] == f'[x] {
      assert ((sp' + (rest + o')) + f)[x] == (f' + f)[x];
    }
  }

  lemma WorkerKeepsFresh(s: State, i: nat, pick: nat, outcome: NetResult, s': State)
    requires FlagInv(s) && LedgerInv(s) && StatsInv(s) && i < |s.workers| && WorkerStep(s, i, pick, outcome) == Some(s')
      && !s'.aborted
    ensures AllFresh(s')
  {
    var w := s.workers[i];
    FetchMoves(w, s.sh, outcome);
    forall k | 0 <= k < |s.workers| ensures ReadIsFresh(s'.workers[k], s'.sh) {
      if k != i { OthersFresh(s, i, k); }
    }
  }

  lemma OthersFresh(s: State, i: nat, k: nat)
    requires LocksExact(s) && i < |s.workers| && k < |s.workers| && i != k && ReadIsFresh(s.workers[k], s.sh)
    requires ReadIsFresh(s.workers[i], s.sh)
    ensures ReadIsFresh(s.workers[k], WorkerShared(s.workers[i], s.sh))
  {
    var w, v := s.workers[i], s.workers[k];
    StatEffect(w, s.sh);
    if v.pc.Fetching? && v.pc.fetch.Update? && v.pc.fetch.phase == Write && Writes(w.pc, v.pc.fetch.stat) {
      MutualExclusion(s, OfWorker(i), OfWorker(k), StatMutex(v.pc.fetch.stat));
    }
    hide WorkerShared;
  }

  // ---- The other steps ----------------------------------------------------------------------------

  /** A worker that a step of another thread leaves alone, forgets or wakes. */
  predicate Untouched(w: Worker, v: Worker) {
    v == w || v == w.(counted := false) || v == w.(pc := Spurious(w.pc))
  }

  /** Steps of other threads leave what each worker owes, and what it read. */
  lemma SameOwed(ws: seq<Worker>, vs: seq<Worker>)
    requires |ws| == |vs| && forall i :: 0 <= i < |ws| ==> Untouched(ws[i], vs[i])
    ensures Total(vs, OwedBytes) == Total(ws, OwedBytes) && Total(vs, OwedFiles) == Total(ws, OwedFiles)
    ensures Pool(vs, OwedSpread) == Pool(ws, OwedSpread)
  {
    TotalSame(vs, ws, OwedBytes);
    TotalSame(vs, ws, OwedFiles);
    PoolSame(vs, ws, OwedSpread);
  }

  lemma SameFresh(w: Worker, v: Worker, sh: Shared, sh': Shared)
    requires Untouched(w, v) && ReadIsFresh(w, sh)
    requires w.pc.Fetching? ==> sh'.bytes == sh.bytes && sh'.files == sh.files && sh'.spread == sh.spread
    ensures ReadIsFresh(v, sh')
  {
  }

  /** A step that touches neither the statistics nor the fetches. */
  ghost predicate SameStats(s: State, s': State) {
    && s'.sh.bytes == s.sh.bytes && s'.sh.files == s.sh.files && s'.sh.spread == s.sh.spread
      && s'.log.fetched == s.log.fetched
    && |s'.workers| == |s.workers| && (forall i :: 0 <= i < |s.workers| ==> Untouched(s.workers[i], s'.workers[i]))
    && (forall k :: StatIsReset(s'.master, k) == StatIsReset(s.master, k))
  }

  lemma SameStatsKeep(s: State, s': State)
    requires StatsInv(s) && SameStats(s, s')
    ensures StatsInv(s')
  {
    SameOwed(s.workers, s'.workers);
    forall i | 0 <= i < |s.workers| ensures ReadIsFresh(s'.workers[i], s'.sh) {
      SameFresh(s.workers[i], s'.workers[i], s.sh, s'.sh);
    }
    hide Untouched, StatIsReset, ReadIsFresh, Sum;
  }

  lemma ManagerKeepsStats(s: State, j: nat, pick: nat, s': State)
    requires StatsInv(s) && j < |s.managers| && ManagerStep(s, j, pick) == Some(s')
    ensures StatsInv(s')
  {
    var g := s.managers[j];
    if g.pc == SignalE { SignalledWorkers(s.workers, pick, s'.workers); }
    ManagerLeavesStats(g, s.sh, s.log);
    hide ManagerNext, ManagerShared, ManagerLog, ManagerCode, Blocked, LocksNext, SignalWorkers, StatIsReset, StatsInv,
      Spurious;
    SameStatsKeep(s, s');
  }

  lemma ManagerLeavesStats(g: Manager, sh: Shared, log: Log)
    ensures var sh' := ManagerShared(g, sh);
            sh'.bytes == sh.bytes && sh'.files == sh.files && sh'.spread == sh.spread
    ensures ManagerLog(g, sh, log).fetched == log.fetched
  {
  }

  function ResetOf(k: Stat): Resettable {
    match k
    case Bytes => ResetBytes
    case Files => ResetFiles
    case Spread => ResetSpread
  }

  lemma MasterStatEffect(pc: MasterPc, sh: Shared)
    ensures var sh' := MasterShared(pc, sh);
            && sh'.bytes == (if pc == Resetting(ResetBytes, ResetWrite) then 0 else sh.bytes)
            && sh'.files == (if pc == Resetting(ResetFiles, ResetWrite) then 0 else sh.files)
            && sh'.spread == (if pc == Resetting(ResetSpread, ResetWrite) then [] else sh.spread)
  {
    MasterOps(pc);
    hide MasterCode;
  }

  lemma MasterResetMoves(pc: MasterPc, more: bool, k: Stat)
    requires !pc.Join? && pc != Accept
    ensures StatIsReset(MasterGo(pc, more), k) <==> (StatIsReset(pc, k) || pc == Resetting(ResetOf(k), ResetWrite))
  {
  }

  lemma TouchedWorkers(pc: MasterPc, ws: seq<Worker>)
    ensures var vs := MasterWorkers(pc, ws);
            forall i :: 0 <= i < |ws| ==> Untouched(ws[i], vs[i])
  {
  }

  lemma MasterKeepsFresh(s: State, s': State)
    requires FlagInv(s) && LedgerInv(s) && StatsInv(s) && MasterStep(s) == Some(s')
    ensures AllFresh(s')
  {
    TouchedWorkers(s.master, s.workers);
    MasterStatEffect(s.master, s.sh);
    forall i | 0 <= i < |s.workers| ensures ReadIsFresh(s'.workers[i], s'.sh) {
      if s.master.Resetting? { NoneFetching(s, i); }
      SameFresh(s.workers[i], s'.workers[i], s.sh, s'.sh);
    }
  }

  lemma MasterKeepsBytes(s: State, s': State)
    requires BytesExact(s) && MasterStep(s) == Some(s')
    ensures BytesExact(s')
  {
    TouchedWorkers(s.master, s.workers);
    MasterStatEffect(s.master, s.sh);
    if !s.master.Join? {
      assert s.master != Accept;
      MasterResetMoves(s.master, s.sh.qDone < |s.workers|, Bytes);
      hide MasterGo, MasterShared, MasterCode, MasterTouch, MasterWorkers, Blocked, LocksNext, StatIsReset, Sum;
      SameOwed(s.workers, s'.workers);
    } else {
      hide MasterShared, MasterTouch, MasterWorkers, Sum;
      SameOwed(s.workers, s'.workers);
    }
  }

  lemma MasterKeepsFiles(s: State, s': State)
    requires FilesExact(s) && MasterStep(s) == Some(s')
    ensures FilesExact(s')
  {
    TouchedWorkers(s.master, s.workers);
    MasterStatEffect(s.master, s.sh);
    if !s.master.Join? {
      assert s.master != Accept;
      MasterResetMoves(s.master, s.sh.qDone < |s.workers|, Files);
      hide MasterGo, MasterShared, MasterCode, MasterTouch, MasterWorkers, Blocked, LocksNext, StatIsReset, Sum;
      SameOwed(s.workers, s'.workers);
    } else {
      hide MasterShared, MasterTouch, MasterWorkers, Sum;
      SameOwed(s.workers, s'.workers);
    }
  }

  lemma MasterKeepsSpread(s: State, s': State)
    requires SpreadExact(s) && MasterStep(s) == Some(s')
    ensures SpreadExact(s')
  {
    TouchedWorkers(s.master, s.workers);
    MasterStatEffect(s.master, s.sh);
    if !s.master.Join? {
      assert s.master != Accept;
      MasterResetMoves(s.master, s.sh.qDone < |s.workers|, Spread);
      hide MasterGo, MasterShared, MasterCode, MasterTouch, MasterWorkers, Blocked, LocksNext, StatIsReset, Sum;
      SameOwed(s.workers, s'.workers);
    } else {
      hide MasterShared, MasterTouch, MasterWorkers, Sum;
      SameOwed(s.workers, s'.workers);
    }
  }

  lemma MasterKeepsExact(s: State, s': State)
    requires StatsInv(s) && MasterStep(s) == Some(s')
    ensures BytesExact(s') && FilesExact(s') && SpreadExact(s')
  {
    hide MasterStep, BytesExact, FilesExact, SpreadExact, AllFresh;
    MasterKeepsBytes(s, s');
    MasterKeepsFiles(s, s');
    MasterKeepsSpread(s, s');
  }

  lemma NewSessionKeepsStats(s: State, jobs: seq<seq<Entry>>, s': State)
    requires FlagInv(s) && LedgerInv(s) && StatsInv(s) && NewSessionStep(s, jobs) == Some(s')
    ensures StatsInv(s')
  {
    forall i | 0 <= i < |s.workers| ensures !s.workers[i].pc.Fetching? { NoneFetching(s, i); }
    TotalZero(s.workers, OwedBytes);
    TotalZero(s.workers, OwedFiles);
    PoolEmpty(s.workers, OwedSpread);
    hide FlagInv, LedgerInv;
  }

  lemma OutsideKeepsStats(s: State, a: Action, s': State)
    requires StatsInv(s) && FromOutside(a) && Step(s, a) == Some(s')
    ensures StatsInv(s')
  {
    hide StatsInv, Spurious;
    forall k ensures StatIsReset(s'.master, k) == StatIsReset(s.master, k) {
      ResetIsQuiet(s.master, k);
    }
    SameStatsKeep(s, s');
  }

  /** Every step that does not abort keeps the statistics exact. */
  lemma StepKeepsStats(s: State, a: Action, s': State)
    requires FlagInv(s) && LedgerInv(s) && StatsInv(s) && Step(s, a) == Some(s') && !s'.aborted
    ensures StatsInv(s')
  {
    hide FlagInv, LedgerInv, AllFresh, BytesExact, FilesExact, SpreadExact, WorkerStep, ManagerStep, MasterStep,
      NewSessionStep;
    match a
    case RunWorker(i, pick, outcome) =>
      WorkerKeepsFresh(s, i, pick, outcome, s');
      WorkerKeepsNumbers(s, i, pick, outcome, s');
      WorkerKeepsSpread(s, i, pick, outcome, s');
    case RunManager(j, pick) => ManagerKeepsStats(s, j, pick, s');
    case RunMaster =>
      MasterKeepsFresh(s, s');
      MasterKeepsExact(s, s');
    case NewSession(jobs) => NewSessionKeepsStats(s, jobs, s');
    case _ => OutsideKeepsStats(s, a, s');
  }
}
