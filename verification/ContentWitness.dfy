/**
 Runs of the content server that show its limits, with any number of workers: two connections
 are enough for a jam, 258 for an abort, one to lose the hash table's mutex, and `n + 1` more to
 strand `n` workers over a connection that nobody will take.
 */
module ContentWitness {
  import opened Threads
  import opened ContentModel
  import opened ContentInvariants
  import opened ContentTheorems

  lemma Go(s0: State, s: State, a: Action, t: State)
    requires Reaches(s0, s) && Step(s, a) == Some(t)
    ensures Reaches(s0, t)
  {
    var xs :| Exec(s0, xs) == Some(s);
    hide Step;
    assert (xs + [a])[..|xs|] == xs;
    assert Exec(s0, xs + [a]) == Some(t);
  }

  /** The workers, of which the `i`-th is the one to move, and the mutexes that are lost. */
  datatype Bench = Bench(ws: seq<Worker>, i: nat, lost: map<Mutex, Tid>)

  predicate Fine(b: Bench) {
    b.i < |b.ws| && !AnyAsleep(b.ws) && b.lost.Keys <= {HMtx}
  }

  function Me(b: Bench): Tid {
    OfWorker(b.i)
  }

  /** A state in which the moving worker is `w`. */
  function Busy(b: Bench, w: Worker, m: MasterPc, fd: int, locks: map<Mutex, Tid>, sh: Shared, log: Log): State
    requires b.i < |b.ws|
  {
    State(b.ws[b.i := w], m, fd, locks, sh, log, false)
  }

  lemma WorkerMoves(s0: State, b: Bench, w: Worker, m: MasterPc, fd: int, locks: map<Mutex, Tid>, sh: Shared, log: Log,
      event: Event)
    requires Fine(b) && Reaches(s0, Busy(b, w, m, fd, locks, sh, log))
    requires !Blocked(locks, WorkerCode(w.pc)) && m != FSleep
    ensures Reaches(s0, Busy(b, WorkerNext(w, sh, event), m, fd, LocksNext(locks, WorkerCode(w.pc), Me(b)),
                             WorkerShared(w.pc, sh), WorkerLog(w, b.i, m, sh, log, event)))
  {
    var s := Busy(b, w, m, fd, locks, sh, log);
    var w' := WorkerNext(w, sh, event);
    var t := Busy(b, w', m, fd, LocksNext(locks, WorkerCode(w.pc), Me(b)), WorkerShared(w.pc, sh),
                  WorkerLog(w, b.i, m, sh, log, event));
    hide WorkerNext, WorkerCode, WorkerShared, WorkerLog, LocksNext, Blocked, Fine;
    assert s.workers[b.i := w'] == t.workers;
    Go(s0, s, RunWorker(b.i, event), t);
  }

  lemma MasterMoves(s0: State, b: Bench, w: Worker, m: MasterPc, fd: int, locks: map<Mutex, Tid>, sh: Shared, log: Log)
    requires Fine(b) && Reaches(s0, Busy(b, w, m, fd, locks, sh, log))
    requires !Blocked(locks, MasterCode(m)) && w.pc != SleepE && (m == Push ==> |sh.q| < CAPACITY)
    ensures Reaches(s0, Busy(b, w, MasterNext(m, sh), fd, LocksNext(locks, MasterCode(m), OfMaster),
      MasterShared(m, fd, sh), log))
  {
    var s := Busy(b, w, m, fd, locks, sh, log);
    var t := Busy(b, w, MasterNext(m, sh), fd, LocksNext(locks, MasterCode(m), OfMaster), MasterShared(m, fd, sh), log);
    hide MasterNext, MasterCode, MasterShared, LocksNext, Blocked;
    assert !AnyAsleep(s.workers);
    Go(s0, s, RunMaster(0), t);
  }

  lemma Accepts(s0: State, b: Bench, w: Worker, fd0: int, sh: Shared, log: Log, fd: int)
    requires Fine(b) && Reaches(s0, Busy(b, w, Accept, fd0, b.lost, sh, log))
    ensures Reaches(s0, Busy(b, w, FLock, fd, b.lost, sh, log.(accepted := log.accepted + [fd])))
  {
    var t := Busy(b, w, FLock, fd, b.lost, sh, log.(accepted := log.accepted + [fd]));
    Go(s0, Busy(b, w, Accept, fd0, b.lost, sh, log), NewClient(fd), t);
  }

  lemma GivenBack(locks: map<Mutex, Tid>, m: Mutex, t: Tid)
    requires m !in locks
    ensures locks[m := t] - {m} == locks
  {
  }

  lemma MasterReachesPush(s0: State, b: Bench, w: Worker, fd: int, sh: Shared, log: Log)
    requires Fine(b) && Reaches(s0, Busy(b, w, FLock, fd, b.lost, sh, log))
    requires w.pc != SleepE && !sh.full
    ensures Reaches(s0, Busy(b, w, Push, fd, b.lost[RwMtx := OfMaster], sh, log))
  {
    hide Reaches, Busy;
    var f := b.lost[FMtx := OfMaster];
    MasterMoves(s0, b, w, FLock, fd, b.lost, sh, log);
    MasterMoves(s0, b, w, FTest, fd, f, sh, log);
    MasterMoves(s0, b, w, FUnlock, fd, f, sh, log);
    GivenBack(b.lost, FMtx, OfMaster);
    MasterMoves(s0, b, w, QLock, fd, b.lost, sh, log);
  }

  function AfterPush(sh: Shared, fd: int): Shared {
    sh.(q := sh.q + [fd], full := |sh.q| + 1 == CAPACITY)
  }

  lemma MasterPuts(s0: State, b: Bench, w: Worker, fd: int, sh: Shared, log: Log)
    requires Fine(b) && Reaches(s0, Busy(b, w, FLock, fd, b.lost, sh, log))
    requires w.pc != SleepE && !sh.full && |sh.q| < CAPACITY
    ensures Reaches(s0, Busy(b, w, SetFull, fd, b.lost[RwMtx := OfMaster], sh.(q := sh.q + [fd]), log))
  {
    MasterReachesPush(s0, b, w, fd, sh, log);
    hide Reaches, Busy, Fine;
    MasterMoves(s0, b, w, Push, fd, b.lost[RwMtx := OfMaster], sh, log);
  }

  lemma MasterPushes(s0: State, b: Bench, w: Worker, fd: int, sh: Shared, log: Log)
    requires Fine(b) && Reaches(s0, Busy(b, w, FLock, fd, b.lost, sh, log))
    requires w.pc != SleepE && !sh.full && |sh.q| < CAPACITY
    ensures Reaches(s0, Busy(b, w, ELock, fd, b.lost, AfterPush(sh, fd), log))
  {
    MasterPuts(s0, b, w, fd, sh, log);
    assert RwMtx !in b.lost;
    hide Reaches, Busy, Fine;
    var r := b.lost[RwMtx := OfMaster];
    MasterMoves(s0, b, w, SetFull, fd, r, sh.(q := sh.q + [fd]), log);
    MasterMoves(s0, b, w, QUnlock, fd, r, AfterPush(sh, fd), log);
    GivenBack(b.lost, RwMtx, OfMaster);
  }

  lemma MasterPublishes(s0: State, b: Bench, w: Worker, fd: int, sh: Shared, log: Log)
    requires Fine(b) && Reaches(s0, Busy(b, w, ELock, fd, b.lost, sh, log)) && w.pc != SleepE
    ensures Reaches(s0, Busy(b, w, Accept, fd, b.lost, sh.(empty := false), log))
  {
    hide Reaches, Busy;
    var e := b.lost[EMtx := OfMaster];
    MasterMoves(s0, b, w, ELock, fd, b.lost, sh, log);
    MasterMoves(s0, b, w, ClearEmpty, fd, e, sh, log);
    MasterMoves(s0, b, w, SignalE, fd, e, sh.(empty := false), log);
    MasterMoves(s0, b, w, EUnlock, fd, e, sh.(empty := false), log);
    GivenBack(b.lost, EMtx, OfMaster);
  }

  /** One connection accepted, pushed and published. */
  lemma Delivers(s0: State, b: Bench, w: Worker, fd0: int, sh: Shared, log: Log, fd: int)
    requires Fine(b) && Reaches(s0, Busy(b, w, Accept, fd0, b.lost, sh, log))
    requires w.pc != SleepE && !sh.full && |sh.q| < CAPACITY
    ensures Reaches(s0, Busy(b, w, Accept, fd, b.lost, AfterPush(sh, fd).(empty := false),
      log.(accepted := log.accepted + [fd])))
  {
    hide Reaches, Busy;
    Accepts(s0, b, w, fd0, sh, log, fd);
    MasterPushes(s0, b, w, fd, sh, log.(accepted := log.accepted + [fd]));
    MasterPublishes(s0, b, w, fd, AfterPush(sh, fd), log.(accepted := log.accepted + [fd]));
  }

  function AtPop(b: Bench): map<Mutex, Tid> {
    b.lost[EMtx := Me(b)][RwMtx := Me(b)]
  }

  lemma WorkerReachesPop(s0: State, b: Bench, w: Worker, m: MasterPc, fd: int, sh: Shared, log: Log)
    requires Fine(b) && Reaches(s0, Busy(b, w, m, fd, b.lost, sh, log))
    requires w.pc == LockE && m != FSleep && !sh.empty
    ensures Reaches(s0, Busy(b, w.(pc := Pop), m, fd, AtPop(b), sh, log))
  {
    hide Reaches, Busy;
    var e := b.lost[EMtx := Me(b)];
    WorkerMoves(s0, b, w, m, fd, b.lost, sh, log, Other);
    WorkerMoves(s0, b, w.(pc := TestE), m, fd, e, sh, log, Other);
    WorkerMoves(s0, b, w.(pc := LockQ), m, fd, e, sh, log, Other);
  }

  function AfterPop(sh: Shared): Shared
    requires sh.q != []
  {
    sh.(q := sh.q[1..], empty := |sh.q| == 1)
  }

  /** The history after the moving worker's pop. */
  function HandedOut(b: Bench, m: MasterPc, sh: Shared, log: Log): Log
    requires sh.q != []
  {
    log.(handed := log.handed + [Handed(b.i, sh.q[0])], early := log.early || (|sh.q| == 1 && Unpublished(m)))
  }

  /** A worker pops one connection and writes the empty flag. */
  lemma WorkerPops(s0: State, b: Bench, w: Worker, m: MasterPc, fd: int, sh: Shared, log: Log)
    requires Fine(b) && Reaches(s0, Busy(b, w, m, fd, b.lost, sh, log))
    requires w.pc == LockE && m != FSleep && !sh.empty && sh.q != []
    ensures Reaches(s0, Busy(b, w.(pc := UnlockQ, fd := Some(sh.q[0])), m, fd, AtPop(b), AfterPop(sh),
      HandedOut(b, m, sh, log)))
  {
    WorkerReachesPop(s0, b, w, m, fd, sh, log);
    hide Reaches, Busy;
    WorkerMoves(s0, b, w.(pc := Pop), m, fd, AtPop(b), sh, log, Other);
    WorkerMoves(s0, b, w.(pc := SetEmpty, fd := Some(sh.q[0])), m, fd, AtPop(b), sh.(q := sh.q[1..]),
      HandedOut(b, m, sh, log), Other);
  }

  /** And it leaves, with the full flag not lowered yet. */
  lemma WorkerTakes(s0: State, b: Bench, w: Worker, m: MasterPc, fd: int, sh: Shared, log: Log)
    requires Fine(b) && Reaches(s0, Busy(b, w, m, fd, b.lost, sh, log))
    requires w.pc == LockE && m != FSleep && !sh.empty && sh.q != []
    ensures Reaches(s0, Busy(b, w.(pc := LockF, fd := Some(sh.q[0])), m, fd, b.lost, AfterPop(sh),
      HandedOut(b, m, sh, log)))
  {
    WorkerPops(s0, b, w, m, fd, sh, log);
    assert EMtx !in b.lost && RwMtx !in b.lost;
    hide Fine;
    var sh' := AfterPop(sh);
    var log' := HandedOut(b, m, sh, log);
    var w' := w.(fd := Some(sh.q[0]));
    hide Reaches, Busy, AfterPop, HandedOut;
    var e := b.lost[EMtx := Me(b)];
    WorkerMoves(s0, b, w'.(pc := UnlockQ), m, fd, AtPop(b), sh', log', Other);
    assert AtPop(b) - {RwMtx} == e;
    WorkerMoves(s0, b, w'.(pc := UnlockE), m, fd, e, sh', log', Other);
    GivenBack(b.lost, EMtx, Me(b));
  }

  /** It lowers the full flag and goes for the request. */
  lemma WorkerLowers(s0: State, b: Bench, w: Worker, m: MasterPc, fd: int, sh: Shared, log: Log)
    requires Fine(b) && Reaches(s0, Busy(b, w, m, fd, b.lost, sh, log)) && w.pc == LockF && m != FSleep
    ensures Reaches(s0, Busy(b, w.(pc := Receive), m, fd, b.lost, sh.(full := false), log))
  {
    hide Reaches, Busy;
    var f := b.lost[FMtx := Me(b)];
    var sh' := sh.(full := false);
    WorkerMoves(s0, b, w, m, fd, b.lost, sh, log, Other);
    WorkerMoves(s0, b, w.(pc := ClearFull), m, fd, f, sh, log, Other);
    WorkerMoves(s0, b, w.(pc := SignalF), m, fd, f, sh', log, Other);
    WorkerMoves(s0, b, w.(pc := UnlockF), m, fd, f, sh', log, Other);
    GivenBack(b.lost, FMtx, Me(b));
  }

  /** The request needs no hash table, and the worker comes back to its loop. */
  lemma WorkerReturns(s0: State, b: Bench, w: Worker, m: MasterPc, fd: int, sh: Shared, log: Log)
    requires Fine(b) && Reaches(s0, Busy(b, w, m, fd, b.lost, sh, log)) && w.pc == LockF && m != FSleep
    ensures Reaches(s0, Busy(b, w.(pc := LockE), m, fd, b.lost, sh.(full := false), log))
  {
    hide Reaches, Busy;
    WorkerLowers(s0, b, w, m, fd, sh, log);
    WorkerMoves(s0, b, w.(pc := Receive), m, fd, b.lost, sh.(full := false), log, Other);
  }

  // ---- A jam -------------------------------------------------------------------------------------------

  const IDLE := Shared([], true, false)

  function Bench0(n: nat): Bench {
    Bench(seq(n, _ => FRESH_WORKER), 0, map[])
  }

  lemma StartIsBusy(n: nat)
    requires n >= 1
    ensures Fine(Bench0(n)) && Start(n) == Busy(Bench0(n), FRESH_WORKER, Accept, 0, map[], IDLE, NO_LOG)
    ensures Reaches(Start(n), Start(n))
  {
    var ws := seq(n, _ => FRESH_WORKER);
    assert ws[0 := FRESH_WORKER] == ws;
    assert Exec(Start(n), []) == Some(Start(n));
  }

  /** One connection is in the queue and published. */
  lemma OnePushed(n: nat, fd: int)
    requires n >= 1
    ensures Fine(Bench0(n))
    ensures Reaches(Start(n),
      Busy(Bench0(n), FRESH_WORKER, Accept, fd, map[], Shared([fd], false, false), NO_LOG.(accepted := [fd])))
  {
    StartIsBusy(n);
    hide Reaches, Busy, Start;
    Delivers(Start(n), Bench0(n), FRESH_WORKER, 0, IDLE, NO_LOG, fd);
    assert [] + [fd] == [fd];
  }

  /** A worker whose last connection was `fd`. */
  function Popper(pc: WorkerPc, fd: int): Worker {
    Worker(pc, Some(fd), false)
  }

  const NONE: seq<Handed> := []

  /** The worker pops the first connection while the second is pushed and not published. */
  lemma PoppedOne(n: nat, a: int, c: int)
    requires n >= 1
    ensures Fine(Bench0(n))
    ensures Reaches(Start(n), Busy(Bench0(n), Popper(LockF, a), ELock, c, map[], Shared([c], false, false),
                                   NO_LOG.(accepted := [a, c], handed := [Handed(0, a)])))
  {
    var s0 := Start(n);
    var b := Bench0(n);
    var two := NO_LOG.(accepted := [a, c]);
    hide Reaches, Busy, Start;
    OnePushed(n, a);
    Accepts(s0, b, FRESH_WORKER, a, Shared([a], false, false), NO_LOG.(accepted := [a]), c);
    assert [a] + [c] == [a, c];
    MasterPushes(s0, b, FRESH_WORKER, c, Shared([a], false, false), two);
    WorkerTakes(s0, b, FRESH_WORKER, ELock, c, Shared([a, c], false, false), two);
    assert [a, c][1..] == [c] && NONE + [Handed(0, a)] == [Handed(0, a)];
  }

  /** It pops the second one too, before the master has published it. */
  lemma PoppedEarly(n: nat, a: int, c: int)
    requires n >= 1
    ensures Fine(Bench0(n))
    ensures Reaches(Start(n), Busy(Bench0(n), Popper(LockF, c), ELock, c, map[], IDLE,
                                   Log([a, c], [Handed(0, a), Handed(0, c)], true, false, None)))
  {
    var s0 := Start(n);
    var b := Bench0(n);
    var log := NO_LOG.(accepted := [a, c], handed := [Handed(0, a)]);
    hide Reaches, Busy, Start;
    PoppedOne(n, a, c);
    WorkerReturns(s0, b, Popper(LockF, a), ELock, c, Shared([c], false, false), log);
    WorkerTakes(s0, b, Popper(LockE, a), ELock, c, Shared([c], false, false), log);
    assert [c][1..] == [] && [Handed(0, a)] + [Handed(0, c)] == [Handed(0, a), Handed(0, c)];
  }

  /** The master publishes the second connection, which is gone, and the worker goes for a third. */
  lemma BackAtPop(n: nat, a: int, c: int)
    requires n >= 1
    ensures Fine(Bench0(n))
    ensures Reaches(Start(n), Busy(Bench0(n), Popper(Pop, c), Accept, c, AtPop(Bench0(n)), Shared([], false, false),
                                   Log([a, c], [Handed(0, a), Handed(0, c)], true, false, None)))
  {
    var s0 := Start(n);
    var b := Bench0(n);
    var log := Log([a, c], [Handed(0, a), Handed(0, c)], true, false, None);
    var sh := Shared([], false, false);
    hide Reaches, Busy, Start;
    PoppedEarly(n, a, c);
    MasterPublishes(s0, b, Popper(LockF, c), c, IDLE, log);
    WorkerReturns(s0, b, Popper(LockF, c), Accept, c, sh, log);
    WorkerReachesPop(s0, b, Popper(LockE, c), Accept, c, sh, log);
  }

  /** Two connections can jam the program, even with one worker. */
  lemma JamHappens(n: nat, a: int, c: int) returns (t: State)
    requires n >= 1
    ensures Reachable(t, n) && Jammed(t) && t.log.accepted == [a, c]
  {
    var b := Bench0(n);
    var log := Log([a, c], [Handed(0, a), Handed(0, c)], true, false, None);
    var sh := Shared([], false, false);
    hide Reaches, Busy, Start, Jammed;
    BackAtPop(n, a, c);
    WorkerMoves(Start(n), b, Popper(Pop, c), Accept, c, AtPop(b), sh, log, Other);
    t := Busy(b, Popper(Relock, c), Accept, c, AtPop(b), sh, log);
    RelockIsJam(b, Popper(Relock, c), Accept, c, AtPop(b), sh, log);
  }

  lemma RelockIsJam(b: Bench, w: Worker, m: MasterPc, fd: int, locks: map<Mutex, Tid>, sh: Shared, log: Log)
    requires b.i < |b.ws| && w.pc == Relock
    ensures Jammed(Busy(b, w, m, fd, locks, sh, log)) && Busy(b, w, m, fd, locks, sh, log).log == log
  {
    assert Busy(b, w, m, fd, locks, sh, log).workers[b.i].pc == Relock;
  }

  // ---- An abort ----------------------------------------------------------------------------------------

  function Copies(k: nat, fd: int): seq<int> {
    seq(k, _ => fd)
  }

  /** `k` more connections while the worker is about to lower the full flag. */
  function Filling(k: nat, fd: int): Shared {
    Shared(Copies(k, fd), k == 0, k == CAPACITY)
  }

  function FillLog(k: nat, fd: int): Log {
    NO_LOG.(accepted := Copies(k + 1, fd), handed := [Handed(0, fd)])
  }

  lemma FillsNone(n: nat, fd: int)
    requires n >= 1
    ensures Fine(Bench0(n))
    ensures Reaches(Start(n), Busy(Bench0(n), Popper(LockF, fd), Accept, fd, map[], Filling(0, fd), FillLog(0, fd)))
  {
    hide Reaches, Busy, Start;
    OnePushed(n, fd);
    WorkerTakes(Start(n), Bench0(n), FRESH_WORKER, Accept, fd, Shared([fd], false, false), NO_LOG.(accepted := [fd]));
    assert [fd][1..] == Copies(0, fd) && NONE + [Handed(0, fd)] == [Handed(0, fd)] && Copies(1, fd) == [fd];
  }

  lemma FillsOneMore(k: nat, fd: int)
    requires 1 <= k <= CAPACITY
    ensures AfterPush(Filling(k - 1, fd), fd).(empty := false) == Filling(k, fd)
    ensures FillLog(k - 1, fd).(accepted := FillLog(k - 1, fd).accepted + [fd]) == FillLog(k, fd)
  {
    assert Copies(k, fd) + [fd] == Copies(k + 1, fd) && Copies(k - 1, fd) + [fd] == Copies(k, fd);
  }

  lemma {:induction false} Fills(n: nat, fd: int, k: nat)
    requires n >= 1 && k <= CAPACITY
    ensures Fine(Bench0(n))
    ensures Reaches(Start(n), Busy(Bench0(n), Popper(LockF, fd), Accept, fd, map[], Filling(k, fd), FillLog(k, fd)))
  {
    hide Reaches, Busy, Start;
    if k == 0 {
      FillsNone(n, fd);
    } else {
      Fills(n, fd, k - 1);
      Delivers(Start(n), Bench0(n), Popper(LockF, fd), fd, Filling(k - 1, fd), FillLog(k - 1, fd), fd);
      FillsOneMore(k, fd);
    }
  }

  /** 258 connections can end the program, even with one worker. */
  lemma AbortHappens(n: nat, fd: int) returns (t: State)
    requires n >= 1
    ensures Reachable(t, n) && t.aborted && |t.log.accepted| == CAPACITY + 2
  {
    var s0 := Start(n);
    var b := Bench0(n);
    var sh := Shared(Copies(CAPACITY, fd), false, false);
    var log := FillLog(CAPACITY, fd).(accepted := Copies(CAPACITY + 1, fd) + [fd]);
    hide Reaches, Busy, Start;
    Fills(n, fd, CAPACITY);
    WorkerReturns(s0, b, Popper(LockF, fd), Accept, fd, Filling(CAPACITY, fd), FillLog(CAPACITY, fd));
    Accepts(s0, b, Popper(LockE, fd), fd, sh, FillLog(CAPACITY, fd), fd);
    MasterReachesPush(s0, b, Popper(LockE, fd), fd, sh, log);
    t := PushAborts(s0, b, Popper(LockE, fd), fd, sh, log);
  }

  lemma PushAborts(s0: State, b: Bench, w: Worker, fd: int, sh: Shared, log: Log) returns (t: State)
    requires Fine(b) && |sh.q| == CAPACITY && Reaches(s0, Busy(b, w, Push, fd, b.lost[RwMtx := OfMaster], sh, log))
    ensures Reaches(s0, t) && t.aborted && t.log == log
  {
    var s := Busy(b, w, Push, fd, b.lost[RwMtx := OfMaster], sh, log);
    t := s.(aborted := true);
    Go(s0, s, RunMaster(0), t);
  }

  // ---- A lost mutex --------------------------------------------------------------------------------------

  /** A worker takes the one connection in the queue and receives its request. */
  lemma WorkerServes(s0: State, b: Bench, w: Worker, fd0: int, log: Log, fd: int)
    requires Fine(b) && w.pc == LockE && Reaches(s0, Busy(b, w, Accept, fd0, b.lost, IDLE, log))
    ensures Reaches(s0, Busy(b, w.(pc := Receive, fd := Some(fd)), Accept, fd, b.lost, IDLE,
                             log.(accepted := log.accepted + [fd], handed := log.handed + [Handed(b.i, fd)])))
  {
    var sh := Shared([fd], false, false);
    var log' := log.(accepted := log.accepted + [fd]);
    hide Reaches, Busy;
    Delivers(s0, b, w, fd0, IDLE, log, fd);
    assert [] + [fd] == [fd] && [fd][1..] == [];
    WorkerTakes(s0, b, w, Accept, fd, sh, log');
    WorkerLowers(s0, b, w.(pc := LockF, fd := Some(fd)), Accept, fd, IDLE,
      log'.(handed := log.handed + [Handed(b.i, fd)]));
  }

  /** The bench after the first worker has lost the hash table's mutex. */
  function Bereft(n: nat, fd: int): Bench
    requires n >= 1
  {
    Bench(seq(n, _ => FRESH_WORKER)[0 := Worker(LockE, Some(fd), true)], 0, map[HMtx := OfWorker(0)])
  }

  function LossLog(fd: int): Log {
    Log([fd], [Handed(0, fd)], false, true, Some(0))
  }

  function FirstLog(fd: int): Log {
    NO_LOG.(accepted := [fd], handed := [Handed(0, fd)])
  }

  lemma ReceivesBadId(n: nat, fd: int)
    requires n >= 1
    ensures var w := Worker(LockH, Some(fd), true);
            Reaches(Start(n), Busy(Bench0(n), w, Accept, fd, map[], IDLE, FirstLog(fd).(badId := true)))
  {
    StartIsBusy(n);
    hide Reaches, Start, Busy;
    WorkerServes(Start(n), Bench0(n), FRESH_WORKER, 0, NO_LOG, fd);
    assert [] + [fd] == [fd] && NONE + [Handed(0, fd)] == [Handed(0, fd)];
    var w := Worker(Receive, Some(fd), false);
    WorkerMoves(Start(n), Bench0(n), w, Accept, fd, map[], IDLE, FirstLog(fd), Hashed(true));
  }

  /** One FETCH with a bad ID loses the hash table's mutex. */
  lemma LossHappens(n: nat, fd: int)
    requires n >= 1
    ensures Fine(Bereft(n, fd))
    ensures Reachable(Busy(Bereft(n, fd), Worker(LockE, Some(fd), true), Accept, fd, map[HMtx := OfWorker(0)], IDLE,
      LossLog(fd)), n)
  {
    var s0 := Start(n);
    var b := Bench0(n);
    var h := map[HMtx := OfWorker(0)];
    var w := Worker(LockH, Some(fd), true);
    var log := FirstLog(fd);
    ReceivesBadId(n, fd);
    hide Reaches, Start, Busy;
    WorkerMoves(s0, b, w, Accept, fd, map[], IDLE, log.(badId := true), Other);
    WorkerMoves(s0, b, w.(pc := Access), Accept, fd, h, IDLE, log.(badId := true), Other);
    SameBusy(b, Bereft(n, fd), Worker(LockE, Some(fd), true), Accept, fd, h, IDLE, LossLog(fd));
  }

  lemma SameBusy(b: Bench, c: Bench, w: Worker, m: MasterPc, fd: int, locks: map<Mutex, Tid>, sh: Shared, log: Log)
    requires b.i < |b.ws| && c.i == b.i && c.ws == b.ws[b.i := w]
    ensures Busy(b, w, m, fd, locks, sh, log) == Busy(c, w, m, fd, locks, sh, log)
  {
  }

  // ---- Every worker stranded ------------------------------------------------------------------------------

  /** The first `k` workers wait for the lost mutex; the next one is to move. */
  ghost predicate Stuck(s: State, n: nat, k: nat) {
    && Reachable(s, n) && |s.workers| == n && k <= n && s.master == Accept && s.locks == map[HMtx := OfWorker(0)]
      && !s.aborted
    && (forall i :: 0 <= i < k ==> s.workers[i].pc == LockH)
    && (forall i :: k <= i < n ==> s.workers[i].pc == LockE)
    && s.log.loser == Some(0)
  }

  lemma StrandsOne(s: State, n: nat, k: nat, fd: int) returns (t: State)
    requires Stuck(s, n, k) && k < n && s.sh == IDLE
    ensures Stuck(t, n, k + 1) && t.sh == IDLE && |t.log.accepted| == |s.log.accepted| + 1
  {
    var s0 := Start(n);
    var b := Bench(s.workers, k, s.locks);
    var w := s.workers[k];
    assert s == Busy(b, w, Accept, s.fd, b.lost, IDLE, s.log) by { assert s.workers[k := w] == s.workers; }
    var log := s.log.(accepted := s.log.accepted + [fd], handed := s.log.handed + [Handed(k, fd)]);
    var w' := Worker(LockH, Some(fd), false);
    assert Fine(b);
    t := Busy(b, w', Accept, fd, b.lost, IDLE, log);
    assert t.workers == s.workers[k := w'] && t.log == log && t.sh == IDLE;
    StillBusy(b, w', fd, log);
    hide Reaches, Busy, Start, Fine;
    GetsAsFarAsHash(s0, b, w, s.fd, s.log, fd);
  }

  /** A worker takes a connection and receives a request that needs the hash table. */
  lemma GetsAsFarAsHash(s0: State, b: Bench, w: Worker, fd0: int, log: Log, fd: int)
    requires Fine(b) && w.pc == LockE && Reaches(s0, Busy(b, w, Accept, fd0, b.lost, IDLE, log))
    ensures Reaches(s0, Busy(b, Worker(LockH, Some(fd), false), Accept, fd, b.lost, IDLE,
                             log.(accepted := log.accepted + [fd], handed := log.handed + [Handed(b.i, fd)])))
  {
    hide Reaches, Busy, Fine;
    WorkerServes(s0, b, w, fd0, log, fd);
    var log' := log.(accepted := log.accepted + [fd], handed := log.handed + [Handed(b.i, fd)]);
    WorkerMoves(s0, b, w.(pc := Receive, fd := Some(fd)), Accept, fd, b.lost, IDLE, log', Hashed(false));
  }

  lemma StillBusy(b: Bench, w: Worker, fd: int, log: Log)
    requires b.i < |b.ws|
    ensures var t := Busy(b, w, Accept, fd, b.lost, IDLE, log); t.master == Accept && t.locks == b.lost && !t.aborted
  {
  }

  lemma {:induction false} StrandsAll(n: nat, fd: int, k: nat) returns (t: State)
    requires n >= 1 && k <= n
    ensures Stuck(t, n, k) && t.sh == IDLE && |t.log.accepted| == k + 1
  {
    if k == 0 {
      LossHappens(n, fd);
      t := Busy(Bereft(n, fd), Worker(LockE, Some(fd), true), Accept, fd, map[HMtx := OfWorker(0)], IDLE, LossLog(fd));
    } else {
      hide Stuck;
      var s := StrandsAll(n, fd, k - 1);
      t := StrandsOne(s, n, k - 1, fd);
    }
  }

  /** With `n` workers, `n + 2` connections can leave the last one in the queue for ever, without a jam. */
  lemma StarvationHappens(n: nat, fd: int) returns (t: State)
    requires n >= 1
    ensures Reachable(t, n) && !t.aborted && !Jammed(t) && !CanMove(t)
    ensures |t.log.accepted| == n + 2 && t.sh.q == [fd]
  {
    var s := StrandsAll(n, fd, n);
    var b := Bench(s.workers, 0, s.locks);
    var w := s.workers[0];
    assert s == Busy(b, w, Accept, s.fd, b.lost, IDLE, s.log) by { assert s.workers[0 := w] == s.workers; }
    t := Busy(b, w, Accept, fd, b.lost, Shared([fd], false, false), s.log.(accepted := s.log.accepted + [fd]));
    assert t.workers == s.workers;
    Delivers(Start(n), b, w, s.fd, IDLE, s.log, fd);
    assert [] + [fd] == [fd];
    ReachableInv(t, n);
    hide Reaches, Inv;
    StuckOnlyWhenStopped(t);
  }

  // ---- The fewest connections -----------------------------------------------------------------------------

  /**
   What each failure takes, exactly: whatever the number of workers, the fewest connections after
   which the program can be jammed is two, the fewest after which it can have aborted is 258, and
   the fewest after which the hash table's mutex can be lost is one.
   */
  lemma FewestConnections(n: nat, m: nat)
    requires n >= 1
    ensures (exists s :: Reachable(s, n) && Jammed(s) && |s.log.accepted| <= m) <==> m >= 2
    ensures (exists s :: Reachable(s, n) && s.aborted && |s.log.accepted| <= m) <==> m >= CAPACITY + 2
    ensures (exists s :: Reachable(s, n) && s.log.loser.Some? && |s.log.accepted| <= m) <==> m >= 1
  {
    var j := JamHappens(n, 4, 5);
    var a := AbortHappens(n, 4);
    var l := StrandsAll(n, 4, 0);
    forall s | Reachable(s, n) && (Jammed(s) || s.aborted || s.log.loser.Some?)
      ensures Jammed(s) ==> |s.log.accepted| >= 2
      ensures s.aborted ==> |s.log.accepted| >= CAPACITY + 2
      ensures s.log.loser.Some? ==> |s.log.accepted| >= 1
    {
      FailuresNeed(s, n);
    }
    hide Reachable, Jammed;
  }
}
