/**
 Runs of the mirror server that show its limits: the unguarded pop does fail with two or more
 workers, a push can meet a full queue, and a slow worker can leave a session at a standstill.
 */
module MirrorWitness {
  import opened Folds
  import opened MirrorModel
  import opened Threads
  import opened MirrorFew
  import opened MirrorLedger
  import opened MirrorTheorems

  // ---- Building runs ------------------------------------------------------------------------------

  lemma Stay(s: State)
    ensures Reaches(s, s)
  {
    assert Exec(s, []) == Some(s);
  }

  lemma Go(s0: State, s: State, a: Action, t: State)
    requires Reaches(s0, s) && Step(s, a) == Some(t)
    ensures Reaches(s0, t)
  {
    var xs :| Exec(s0, xs) == Some(s);
    hide Step;
    assert (xs + [a])[..|xs|] == xs;
    assert Exec(s0, xs + [a]) == Some(t);
  }

  lemma Chain(s: State, u: State, t: State)
    requires Reaches(s, u) && Reaches(u, t)
    ensures Reaches(s, t)
  {
    var xs :| Exec(s, xs) == Some(u);
    var ys :| Exec(u, ys) == Some(t);
    ExecTrans(s, xs, u, ys, t);
  }

  predicate Free(s: State, m: Mutex) {
    m !in s.locks
  }

  predicate NoneAsleep(s: State) {
    !AnyAsleepE(s.workers) && !AnyAsleepF(s.managers)
  }

  /** Like `s`, but for one manager, the lock table and the shared variables. */
  function WithG(s: State, j: nat, g: Manager, locks: map<Mutex, Tid>, sh: Shared): State
    requires j < |s.managers|
  {
    s.(managers := s.managers[j := g], locks := locks, sh := sh)
  }

  /** Like `s`, but for one worker, the lock table, the shared variables and the history. */
  function WithW(s: State, i: nat, w: Worker, locks: map<Mutex, Tid>, sh: Shared, log: Log): State
    requires i < |s.workers|
  {
    s.(workers := s.workers[i := w], locks := locks, sh := sh, log := log)
  }

  lemma ManagerMoves(s0: State, s: State, j: nat, g: Manager, locks: map<Mutex, Tid>, sh: Shared)
    requires !s.aborted && j < |s.managers| && Reaches(s0, WithG(s, j, g, locks, sh))
    requires !Blocked(locks, ManagerCode(g.pc)) && ManagerLog(g, sh, s.log) == s.log
      && (g.pc == SignalE ==> NoneAsleep(s))
    ensures Reaches(s0, WithG(s, j, ManagerNext(g, sh), LocksNext(locks, ManagerCode(g.pc), OfManager(j)),
      ManagerShared(g, sh)))
  {
    var u := WithG(s, j, g, locks, sh);
    var t := WithG(s, j, ManagerNext(g, sh), LocksNext(locks, ManagerCode(g.pc), OfManager(j)), ManagerShared(g, sh));
    hide ManagerNext, ManagerCode, ManagerShared, ManagerLog, LocksNext, Blocked;
    assert t.managers == u.managers[j := ManagerNext(g, sh)];
    Go(s0, u, RunManager(j, 0), t);
  }

  lemma WorkerMoves(s0: State, s: State, i: nat, w: Worker, locks: map<Mutex, Tid>, sh: Shared, log: Log)
    requires !s.aborted && i < |s.workers| && Reaches(s0, WithW(s, i, w, locks, sh, log))
    requires !Blocked(locks, WorkerCode(w.pc)) && (w.pc == Popping(SignalF) ==> NoneAsleep(s))
    requires (w.pc == Telling(SignalQ) ==> s.master != Collecting(QSleep)) && !(w.pc == Popping(Pop) && sh.q == [])
    ensures Reaches(s0, WithW(s, i, WorkerNext(w, sh, Failed), LocksNext(locks, WorkerCode(w.pc), OfWorker(i)),
                              WorkerShared(w, sh), WorkerLog(w, log, Failed)))
  {
    var u := WithW(s, i, w, locks, sh, log);
    var t := WithW(s, i, WorkerNext(w, sh, Failed), LocksNext(locks, WorkerCode(w.pc), OfWorker(i)),
                   WorkerShared(w, sh), WorkerLog(w, log, Failed));
    hide WorkerNext, WorkerCode, WorkerShared, WorkerLog, LocksNext, Blocked;
    assert t.workers == u.workers[i := WorkerNext(w, sh, Failed)];
    Go(s0, u, RunWorker(i, 0, Failed), t);
  }

  lemma StayG(s: State, j: nat)
    requires j < |s.managers|
    ensures Reaches(s, WithG(s, j, s.managers[j], s.locks, s.sh))
  {
    assert s.managers[j := s.managers[j]] == s.managers;
    Stay(s);
  }

  lemma StayW(s: State, i: nat)
    requires i < |s.workers|
    ensures Reaches(s, WithW(s, i, s.workers[i], s.locks, s.sh, s.log))
  {
    assert s.workers[i := s.workers[i]] == s.workers;
    Stay(s);
  }

  // ---- A manager pushes and publishes one entry ------------------------------------------------------

  /** A manager at its push. */
  function AtPush(s: State, j: nat): State
    requires j < |s.managers|
  {
    WithG(s, j, s.managers[j].(pc := Push), s.locks[FMtx := OfManager(j)][RwMtx := OfManager(j)], s.sh)
  }

  /** From the next file to the push. */
  lemma ManagerEnters(s: State, j: nat)
    requires !s.aborted && j < |s.managers| && s.managers[j].pc == NextFile && s.managers[j].todo != []
    requires Free(s, FMtx) && Free(s, RwMtx) && !s.sh.full
    ensures Reaches(s, AtPush(s, j))
  {
    var g := s.managers[j];
    var f := s.locks[FMtx := OfManager(j)];
    StayG(s, j);
    hide Reaches, WithG;
    ManagerMoves(s, s, j, g, s.locks, s.sh);
    ManagerMoves(s, s, j, g.(pc := FLock), s.locks, s.sh);
    ManagerMoves(s, s, j, g.(pc := FTest), f, s.sh);
    ManagerMoves(s, s, j, g.(pc := RwLock), f, s.sh);
  }

  /** The queue, the full flag and the manager after a successful push, before publishing. */
  function Pushed(s: State, j: nat): State
    requires j < |s.managers| && s.managers[j].todo != []
  {
    WithG(s, j, Manager(ELock, s.managers[j].todo[1..]), s.locks[FMtx := OfManager(j)],
          s.sh.(q := s.sh.q + [s.managers[j].todo[0]], full := |s.sh.q| + 1 == CAPACITY))
  }

  lemma ManagerPushes(s: State, j: nat)
    requires !s.aborted && j < |s.managers| && s.managers[j].pc == NextFile && s.managers[j].todo != []
    requires Free(s, FMtx) && Free(s, RwMtx) && !s.sh.full && |s.sh.q| < CAPACITY
    ensures Reaches(s, Pushed(s, j))
  {
    var todo := s.managers[j].todo;
    var f := s.locks[FMtx := OfManager(j)];
    var fr := f[RwMtx := OfManager(j)];
    var sh1 := s.sh.(q := s.sh.q + [todo[0]]);
    ManagerPuts(s, j);
    hide Reaches, WithG;
    ManagerMoves(s, s, j, Manager(SetFull, todo[1..]), fr, sh1);
    ManagerMoves(s, s, j, Manager(RwUnlock, todo[1..]), fr, sh1.(full := |s.sh.q| + 1 == CAPACITY));
    assert fr - {RwMtx} == f;
  }

  lemma ManagerPuts(s: State, j: nat)
    requires !s.aborted && j < |s.managers| && s.managers[j].pc == NextFile && s.managers[j].todo != []
    requires Free(s, FMtx) && Free(s, RwMtx) && !s.sh.full && |s.sh.q| < CAPACITY
    ensures var todo := s.managers[j].todo;
            var fr := s.locks[FMtx := OfManager(j)][RwMtx := OfManager(j)];
            Reaches(s, WithG(s, j, Manager(SetFull, todo[1..]), fr, s.sh.(q := s.sh.q + [todo[0]])))
  {
    var todo := s.managers[j].todo;
    ManagerEnters(s, j);
    assert s.managers[j].(pc := Push) == Manager(Push, todo);
    hide Reaches, WithG;
    ManagerMoves(s, s, j, Manager(Push, todo), s.locks[FMtx := OfManager(j)][RwMtx := OfManager(j)], s.sh);
  }

  /** After publishing. */
  function Published(s: State, j: nat): State
    requires j < |s.managers|
  {
    WithG(s, j, s.managers[j].(pc := NextFile), s.locks - {FMtx}, s.sh.(empty := false))
  }

  lemma ManagerClears(s: State, j: nat)
    requires !s.aborted && j < |s.managers| && s.managers[j].pc == ELock && Free(s, EMtx)
    ensures var g := s.managers[j].(pc := SignalE);
            Reaches(s, WithG(s, j, g, s.locks[EMtx := OfManager(j)], s.sh.(empty := false)))
  {
    var g := s.managers[j];
    StayG(s, j);
    hide Reaches, WithG;
    ManagerMoves(s, s, j, g, s.locks, s.sh);
    ManagerMoves(s, s, j, g.(pc := ClearEmpty), s.locks[EMtx := OfManager(j)], s.sh);
  }

  lemma ManagerPublishes(s: State, j: nat)
    requires !s.aborted && j < |s.managers| && s.managers[j].pc == ELock && Free(s, EMtx) && NoneAsleep(s)
    ensures Reaches(s, Published(s, j))
  {
    var g := s.managers[j];
    var e := s.locks[EMtx := OfManager(j)];
    var sh := s.sh.(empty := false);
    ManagerClears(s, j);
    hide Reaches, WithG, NoneAsleep;
    ManagerMoves(s, s, j, g.(pc := SignalE), e, sh);
    ManagerMoves(s, s, j, g.(pc := EUnlock), e, sh);
    assert e - {EMtx} == s.locks;
    ManagerMoves(s, s, j, g.(pc := FUnlock), s.locks, sh);
  }

  // ---- A worker pops one entry, and finishes it --------------------------------------------------------

  /** A worker that found the empty flag lowered, at its pop. */
  function AtPop(s: State, i: nat): State
    requires i < |s.workers|
  {
    WithW(s, i, s.workers[i].(pc := Popping(Pop)), s.locks[EMtx := OfWorker(i)][RwMtx := OfWorker(i)], s.sh, s.log)
  }

  lemma WorkerReachesPop(s: State, i: nat)
    requires !s.aborted && i < |s.workers| && s.workers[i].pc == Waiting(LockE)
    requires Free(s, EMtx) && Free(s, RwMtx) && !s.sh.empty && !s.sh.done
    ensures Reaches(s, AtPop(s, i))
  {
    var w := s.workers[i];
    var e := s.locks[EMtx := OfWorker(i)];
    StayW(s, i);
    hide Reaches, WithW;
    WorkerMoves(s, s, i, w, s.locks, s.sh, s.log);
    WorkerMoves(s, s, i, w.(pc := Waiting(TestE)), e, s.sh, s.log);
    WorkerMoves(s, s, i, w.(pc := Waiting(Branch)), e, s.sh, s.log);
    WorkerMoves(s, s, i, w.(pc := Popping(LockRw)), e, s.sh, s.log);
  }

  function AfterPop(sh: Shared): Shared
    requires sh.q != []
  {
    sh.(q := sh.q[1..], empty := |sh.q| == 1)
  }

  /** After the pop, waiting for the full mutex. */
  function Taken(s: State, i: nat): State
    requires i < |s.workers| && s.sh.q != []
  {
    WithW(s, i, s.workers[i].(pc := Popping(LockF), item := Some(s.sh.q[0])), s.locks, AfterPop(s.sh), s.log)
  }

  lemma WorkerTakes(s: State, i: nat)
    requires !s.aborted && i < |s.workers| && s.workers[i].pc == Waiting(LockE)
    requires Free(s, EMtx) && Free(s, RwMtx) && !s.sh.empty && !s.sh.done && s.sh.q != []
    ensures Reaches(s, WithW(s, i, s.workers[i].(pc := Popping(UnlockRw), item := Some(s.sh.q[0])),
                             s.locks[EMtx := OfWorker(i)][RwMtx := OfWorker(i)], AfterPop(s.sh), s.log))
  {
    var w := s.workers[i];
    var er := s.locks[EMtx := OfWorker(i)][RwMtx := OfWorker(i)];
    WorkerReachesPop(s, i);
    hide Reaches, WithW;
    WorkerMoves(s, s, i, w.(pc := Popping(Pop)), er, s.sh, s.log);
    WorkerMoves(s, s, i, w.(pc := Popping(SetEmpty), item := Some(s.sh.q[0])), er, s.sh.(q := s.sh.q[1..]), s.log);
  }

  lemma WorkerPops(s: State, i: nat)
    requires !s.aborted && i < |s.workers| && s.workers[i].pc == Waiting(LockE)
    requires Free(s, EMtx) && Free(s, RwMtx) && !s.sh.empty && !s.sh.done && s.sh.q != []
    ensures Reaches(s, Taken(s, i))
  {
    var w := s.workers[i].(item := Some(s.sh.q[0]));
    var e := s.locks[EMtx := OfWorker(i)];
    var er := e[RwMtx := OfWorker(i)];
    WorkerTakes(s, i);
    hide Reaches, WithW, AfterPop;
    WorkerMoves(s, s, i, w.(pc := Popping(UnlockRw)), er, AfterPop(s.sh), s.log);
    assert er - {RwMtx} == e;
    WorkerMoves(s, s, i, w.(pc := Popping(UnlockE)), e, AfterPop(s.sh), s.log);
    assert e - {EMtx} == s.locks;
  }

  /** After lowering the full flag, about to fetch. */
  function Lowered(s: State, i: nat): State
    requires i < |s.workers|
  {
    WithW(s, i, s.workers[i].(pc := Fetching(Main, Start)), s.locks, s.sh.(full := false), s.log)
  }

  lemma WorkerLowers(s: State, i: nat)
    requires !s.aborted && i < |s.workers| && s.workers[i].pc == Popping(LockF) && Free(s, FMtx) && NoneAsleep(s)
    ensures Reaches(s, Lowered(s, i))
  {
    var w := s.workers[i];
    var f := s.locks[FMtx := OfWorker(i)];
    var sh := s.sh.(full := false);
    StayW(s, i);
    hide Reaches, WithW, NoneAsleep;
    WorkerMoves(s, s, i, w, s.locks, s.sh, s.log);
    WorkerMoves(s, s, i, w.(pc := Popping(ClearFull)), f, s.sh, s.log);
    WorkerMoves(s, s, i, w.(pc := Popping(SignalF)), f, sh, s.log);
    WorkerMoves(s, s, i, w.(pc := Popping(UnlockF)), f, sh, s.log);
    assert f - {FMtx} == s.locks;
  }

  /** After a failed fetch, back at the loop's start. */
  function GaveUp(s: State, i: nat): State
    requires i < |s.workers|
  {
    WithW(s, i, s.workers[i].(pc := Waiting(LockE), item := None, got := None), s.locks, s.sh,
          s.log.(finished := s.log.finished + Held(s.workers[i])))
  }

  lemma WorkerFails(s: State, i: nat)
    requires !s.aborted && i < |s.workers| && s.workers[i].pc == Fetching(Main, Start)
    ensures Reaches(s, GaveUp(s, i))
  {
    var w := s.workers[i].(got := None);
    StayW(s, i);
    hide Reaches, WithW;
    WorkerMoves(s, s, i, s.workers[i], s.locks, s.sh, s.log);
    WorkerMoves(s, s, i, w.(pc := Fetching(Main, Outcome)), s.locks, s.sh, s.log);
    WorkerMoves(s, s, i, w.(pc := Fetching(Main, Close)), s.locks, s.sh, s.log);
  }

  // ---- Many pushes ---------------------------------------------------------------------------------

  /** The state after `k` entries were pushed and published, without a pop in between. */
  function PushedMany(s: State, k: nat): State
    requires s.managers != [] && k <= |s.managers[0].todo|
  {
    if k == 0 then s
    else
      var g := s.managers[0];
      WithG(s, 0, Manager(NextFile, g.todo[k..]), s.locks,
        s.sh.(q := s.sh.q + g.todo[..k], empty := false, full := |s.sh.q| + k == CAPACITY))
  }

  predicate CanPush(s: State) {
    && !s.aborted && s.managers != [] && s.managers[0].pc == NextFile
    && Free(s, FMtx) && Free(s, EMtx) && Free(s, RwMtx) && NoneAsleep(s)
  }

  lemma PushOne(s: State)
    requires CanPush(s) && s.managers[0].todo != [] && !s.sh.full && |s.sh.q| < CAPACITY
    ensures Reaches(s, PushedMany(s, 1)) && CanPush(PushedMany(s, 1))
  {
    ManagerPushes(s, 0);
    var s1 := Pushed(s, 0);
    ManagerPublishes(s1, 0);
    var t := Published(s1, 0);
    Chain(s, s1, t);
    assert t.locks == s.locks;
    assert s.managers[0].todo[..1] == [s.managers[0].todo[0]];
    assert t == PushedMany(s, 1);
  }

  lemma {:induction false} PushMany(s: State, k: nat)
    requires CanPush(s) && k <= |s.managers[0].todo| && !s.sh.full && |s.sh.q| + k <= CAPACITY
    ensures Reaches(s, PushedMany(s, k)) && CanPush(PushedMany(s, k))
  {
    if k == 0 {
      Stay(s);
    } else {
      PushMany(s, k - 1);
      var u := PushedMany(s, k - 1);
      PushOne(u);
      Chain(s, u, PushedMany(u, 1));
      PushedTwice(s, k);
    }
  }

  lemma PushedTwice(s: State, k: nat)
    requires s.managers != [] && 1 <= k <= |s.managers[0].todo|
    ensures var u := PushedMany(s, k - 1);
            u.managers != [] && 1 <= |u.managers[0].todo| && PushedMany(u, 1) == PushedMany(s, k)
  {
    var g := s.managers[0];
    assert g.todo[k - 1..][1..] == g.todo[k..];
    assert g.todo[k - 1..][..1] == [g.todo[k - 1]];
    assert s.sh.q + g.todo[..k - 1] + [g.todo[k - 1]] == s.sh.q + g.todo[..k];
    assert g.todo[0..] == g.todo;
  }

  // ---- Two workers: the unguarded pop fails ------------------------------------------------------------

  /** The constructor's state with `n` workers. */
  function StartState(n: nat): State {
    State(seq(n, _ => FRESH_WORKER), [], Accept, map[],
          Shared([], true, false, false, false, 0, 0, 0, []),
          Log(multiset{}, multiset{}, multiset{}, [], []), false)
  }

  /** A session with one manager that has `job` to push. */
  function Started(n: nat, job: seq<Entry>): State {
    StartState(n).(master := MasterPc.Join(0), managers := [Manager(NextFile, job)],
               log := Log(multiset(job), multiset{}, multiset{}, [], []))
  }

  lemma SessionStarts(n: nat, job: seq<Entry>)
    requires n >= 1
    ensures Init(StartState(n), n) && Reaches(StartState(n), Started(n, job))
  {
    var s := StartState(n);
    Stay(s);
    assert Spawn([job]) == [Manager(NextFile, job)];
    assert Pool([Manager(NextFile, job)], Todo) == multiset(job) by {
      assert [Manager(NextFile, job)][..0] == [];
    }
    Go(s, s, NewSession([job]), Started(n, job));
  }

  /** Two entries pushed, the second not published yet. */
  function TwoPushed(n: nat, job: seq<Entry>): State
    requires |job| >= 2
  {
    StartState(n).(master := MasterPc.Join(0), managers := [Manager(ELock, job[2..])],
      locks := map[FMtx := OfManager(0)],
                   sh := StartState(n).sh.(q := job[..2], empty := false), log := Started(n, job).log)
  }

  lemma PushedIsTwoPushed(n: nat, job: seq<Entry>)
    requires |job| >= 2
    ensures Pushed(PushedMany(Started(n, job), 1), 0) == TwoPushed(n, job)
  {
    assert job[1..][1..] == job[2..];
    assert [] + job[..1] + [job[1..][0]] == job[..2];
  }

  lemma ReachesTwoPushed(n: nat, job: seq<Entry>)
    requires n >= 1 && |job| >= 2
    ensures Reaches(StartState(n), TwoPushed(n, job))
  {
    var s0 := StartState(n);
    var s := Started(n, job);
    var s1 := PushedMany(s, 1);
    hide Reaches;
    SessionStarts(n, job);
    PushOne(s);
    Chain(s0, s, s1);
    ManagerPushes(s1, 0);
    PushedIsTwoPushed(n, job);
    hide *;
    Chain(s0, s1, TwoPushed(n, job));
  }

  /** Each of two workers has popped one of them. */
  lemma TwoPops(n: nat, job: seq<Entry>) returns (t: State)
    requires n >= 2 && |job| >= 2
    ensures Reaches(StartState(n), t) && !t.aborted && |t.workers| == n && t.log.offered == multiset(job)
    ensures t.managers == [Manager(ELock, job[2..])] && t.locks == map[FMtx := OfManager(0)]
    ensures t.sh.q == [] && !t.sh.done && t.sh.empty && !t.sh.full
    ensures t.workers[0].pc == t.workers[1].pc == Popping(LockF)
    ensures forall k :: 2 <= k < n ==> t.workers[k].pc == Waiting(LockE)
  {
    var s0 := StartState(n);
    var s3 := TwoPushed(n, job);
    ReachesTwoPushed(n, job);
    WorkerPops(s3, 0);
    var s4 := Taken(s3, 0);
    Chain(s0, s3, s4);
    hide Reaches, StartState;
    WorkerPops(s4, 1);
    t := Taken(s4, 1);
    Chain(s0, s4, t);
  }

  lemma PublishedLate(n: nat, job: seq<Entry>) returns (t: State)
    requires n >= 2 && |job| >= 2
    ensures Reaches(StartState(n), t) && !t.aborted && |t.workers| == n && t.log.offered == multiset(job)
    ensures t.locks == map[] && t.sh.q == [] && !t.sh.done && !t.sh.empty
    ensures t.workers[0].pc == Waiting(LockE)
  {
    var s0 := StartState(n);
    var s := TwoPops(n, job);
    ManagerPublishes(s, 0);
    var s1 := Published(s, 0);
    Chain(s0, s, s1);
    assert s1.locks == map[];
    WorkerLowers(s1, 0);
    var s2 := Lowered(s1, 0);
    Chain(s0, s1, s2);
    WorkerFails(s2, 0);
    t := GaveUp(s2, 0);
    Chain(s0, s2, t);
  }

  /** With two workers and two entries, some run pops an empty queue and ends the program. */
  lemma TwoWorkersCanAbort(n: nat, job: seq<Entry>) returns (t: State)
    requires n >= 2 && |job| >= 2
    ensures Reachable(t, n) && t.aborted && t.log.offered == multiset(job)
  {
    var s0 := StartState(n);
    var s := PublishedLate(n, job);
    WorkerReachesPop(s, 0);
    var s1 := AtPop(s, 0);
    Chain(s0, s, s1);
    t := s1.(aborted := true);
    Go(s0, s1, RunWorker(0, 0, Failed), t);
    SessionStarts(n, job);
    MakesReachable(s0, n, t);
  }

  /**
   The unguarded pop fails exactly with two workers and two entries: a session that offers `m` entries
   to `n` workers can end the program if and only if `n` and `m` are both at least two.
   */
  lemma AbortExactly(n: nat, m: nat)
    requires n >= 1
    ensures (exists s :: Reachable(s, n) && s.aborted && |s.log.offered| == m) <==> n >= 2 && m >= 2
  {
    if n >= 2 && m >= 2 {
      var job := seq(m, _ => Entry("a"));
      var s := TwoWorkersCanAbort(n, job);
      assert |multiset(job)| == m;
    } else {
      forall s | Reachable(s, n) && s.aborted ensures |s.log.offered| != m {
        AbortNeedsTwo(s, n);
        if n == 1 { OneWorkerNeverAborts(s); }
      }
    }
  }

  // ---- A push onto a full queue ----------------------------------------------------------------------

  /** One entry popped by a worker that has not lowered the full flag, and then a full queue. */
  lemma FilledUp(n: nat, job: seq<Entry>) returns (t: State)
    requires n >= 1 && |job| >= FIRST_DROP
    ensures Reaches(StartState(n), t) && CanPush(t) && t.workers != [] && t.workers[0].pc == Popping(LockF)
    ensures t.managers == [Manager(NextFile, job[CAPACITY + 1..])] && |t.sh.q| == CAPACITY
    ensures t.log.offered == multiset(job)
  {
    var s0 := StartState(n);
    var s := Started(n, job);
    SessionStarts(n, job);
    PushMany(s, 1);
    var s1 := PushedMany(s, 1);
    Chain(s0, s, s1);
    WorkerPops(s1, 0);
    var s2 := Taken(s1, 0);
    Chain(s0, s1, s2);
    hide Reaches, StartState;
    PushMany(s2, CAPACITY);
    t := PushedMany(s2, CAPACITY);
    Chain(s0, s2, t);
    assert job[1..][CAPACITY..] == job[CAPACITY + 1..];
  }

  /** The worker lowers the flag over the full queue, and the manager's next entry is dropped. */
  lemma DropHappens(n: nat, job: seq<Entry>) returns (t: State)
    requires n >= 1 && |job| >= FIRST_DROP
    ensures Reachable(t, n) && !t.aborted && t.log.offered == multiset(job) && t.log.dropped != multiset{}
  {
    var s0 := StartState(n);
    SessionStarts(n, job);
    var s := FilledUp(n, job);
    WorkerLowers(s, 0);
    var s1 := Lowered(s, 0);
    Chain(s0, s, s1);
    ManagerEnters(s1, 0);
    var s2 := AtPush(s1, 0);
    Chain(s0, s1, s2);
    t := PushDrops(s0, s2);
    MakesReachable(s0, n, t);
  }

  /** A push onto a full queue loses its entry. */
  lemma PushDrops(s0: State, s: State) returns (t: State)
    requires Reaches(s0, s) && !s.aborted && s.managers != [] && s.managers[0].pc == Push && s.managers[0].todo != []
    requires |s.sh.q| == CAPACITY
    ensures Reaches(s0, t) && !t.aborted && t.log.offered == s.log.offered && t.log.dropped != multiset{}
  {
    t := Step(s, RunManager(0, 0)).value;
    Go(s0, s, RunManager(0, 0), t);
    assert s.managers[0].todo[0] in t.log.dropped;
  }

  lemma MakesReachable(s0: State, n: nat, t: State)
    requires Init(s0, n) && Reaches(s0, t)
    ensures Reachable(t, n)
  {
  }

  /**
   A session that offers `m` entries can lose one at a full queue exactly when `m` is at least
   `FIRST_DROP`: a full queue, one entry popped from it, and one more.
   */
  lemma DropExactly(n: nat, m: nat)
    requires n >= 1
    ensures (exists s :: Reachable(s, n) && !s.aborted && |s.log.offered| == m && s.log.dropped != multiset{}) <==>
      m >= FIRST_DROP
  {
    if m >= FIRST_DROP {
      var job := seq(m, _ => Entry("a"));
      var s := DropHappens(n, job);
      assert |multiset(job)| == m;
    } else {
      forall s | Reachable(s, n) && !s.aborted && |s.log.offered| == m ensures s.log.dropped == multiset{} {
        Conservation(s, n);
      }
    }
  }
}
