/**
 The two ways in which a session stops short do happen, with any number of workers: the standstill of a
 late worker takes two sessions without a content server (mirror_server.cpp:203-208 against
 worker.cpp:172-178), and a hang takes one transfer that never ends.
 */
module MirrorSlowWorker {
  import opened Folds
  import opened MirrorModel
  import opened Threads
  import opened MirrorDeadlock
  import opened MirrorFew
  import opened MirrorLedger
  import opened MirrorRuns
  import opened MirrorTermination
  import opened MirrorTheorems
  import opened MirrorWitness

  /** No manager, and the workers `ws`. */
  function Crowd(ws: seq<Worker>, m: MasterPc, locks: map<Mutex, Tid>, sh: Shared, log: Log): State {
    State(ws, [], m, locks, sh, log, false)
  }

  predicate Awake(ws: seq<Worker>) {
    forall i :: 0 <= i < |ws| ==> ws[i].pc != Waiting(SleepE) && ws[i].pc != Acking(SleepA)
  }

  function Uncounted(ws: seq<Worker>): (vs: seq<Worker>)
    ensures |vs| == |ws| && forall i :: 0 <= i < |ws| ==> vs[i] == ws[i].(counted := false)
  {
    seq(|ws|, i requires 0 <= i < |ws| => ws[i].(counted := false))
  }

  /** What a master's step leaves of workers that are awake. */
  function Left(m: MasterPc, ws: seq<Worker>): (vs: seq<Worker>)
    ensures |vs| == |ws|
  {
    if m == Resetting(ResetQDone, ResetWrite) then Uncounted(ws) else ws
  }

  lemma MasterMoves(s0: State, ws: seq<Worker>, m: MasterPc, locks: map<Mutex, Tid>, sh: Shared, log: Log)
    requires Awake(ws) && Reaches(s0, Crowd(ws, m, locks, sh, log))
    requires !m.Join? && MasterGo(m, sh.qDone < |ws|) != m && !Blocked(locks, MasterCode(m))
    ensures Reaches(s0, Crowd(Left(m, ws), MasterGo(m, sh.qDone < |ws|), LocksNext(locks, MasterCode(m), OfMaster),
                              MasterShared(m, sh), MasterLog(m, sh, log)))
    ensures Awake(Left(m, ws))
  {
    var s := Crowd(ws, m, locks, sh, log);
    var t := Crowd(Left(m, ws), MasterGo(m, sh.qDone < |ws|), LocksNext(locks, MasterCode(m), OfMaster),
                   MasterShared(m, sh), MasterLog(m, sh, log));
    hide MasterGo, MasterCode, MasterShared, MasterLog, LocksNext, Blocked;
    assert MasterWorkers(m, ws) == Left(m, ws);
    Go(s0, s, RunMaster, t);
  }

  // ---- The master's sections ------------------------------------------------------------------------

  /** The master clears the acknowledgement. */
  lemma MasterClears(s0: State, ws: seq<Worker>, sh: Shared, log: Log)
    requires Awake(ws) && Reaches(s0, Crowd(ws, Closing(AckLock), map[], sh, log))
    ensures Reaches(s0, Crowd(ws, Closing(DoneLock), map[], sh.(ack := false), log))
  {
    var l := map[AckMtx := OfMaster];
    hide Reaches, Crowd, Awake, Uncounted;
    MasterMoves(s0, ws, Closing(AckLock), map[], sh, log);
    MasterMoves(s0, ws, Closing(ClearAck), l, sh, log);
    MasterMoves(s0, ws, Closing(AckUnlock), l, sh.(ack := false), log);
    assert l - {AckMtx} == map[];
  }

  /** The master finds its workers counted. */
  lemma MasterCollects(s0: State, ws: seq<Worker>, sh: Shared, log: Log)
    requires Awake(ws) && Reaches(s0, Crowd(ws, Collecting(QLock), map[], sh, log)) && sh.qDone >= |ws|
    ensures Reaches(s0, Crowd(ws, Collecting(Send), map[], sh, log))
  {
    var l := map[QDoneMtx := OfMaster];
    hide Reaches, Crowd, Awake, Uncounted;
    MasterMoves(s0, ws, Collecting(QLock), map[], sh, log);
    MasterMoves(s0, ws, Collecting(QTest), l, sh, log);
    MasterMoves(s0, ws, Collecting(QUnlock), l, sh, log);
    assert l - {QDoneMtx} == map[];
  }

  /** The master resets one variable. */
  lemma MasterResets(s0: State, ws: seq<Worker>, r: Resettable, sh: Shared, log: Log)
    requires Awake(ws) && Reaches(s0, Crowd(ws, Resetting(r, ResetTake), map[], sh, log))
    ensures Reaches(s0, Crowd(if r == ResetQDone then Uncounted(ws) else ws, AfterReset(r), map[], ResetTo(r, sh), log))
  {
    var l := map[ResetMutex(r) := OfMaster];
    hide Reaches, Crowd, Awake, Uncounted, ResetTo;
    MasterMoves(s0, ws, Resetting(r, ResetTake), map[], sh, log);
    MasterMoves(s0, ws, Resetting(r, ResetWrite), l, sh, log);
    MasterMoves(s0, if r == ResetQDone then Uncounted(ws) else ws, Resetting(r, ResetDrop), l, ResetTo(r, sh), log);
    assert l - {ResetMutex(r)} == map[];
  }

  /** The master raises the done flag, wakes who sleeps on the empty condition, and goes to its wait. */
  lemma MasterCloses(s0: State, ws: seq<Worker>, sh: Shared, log: Log)
    requires Awake(ws) && Reaches(s0, Crowd(ws, Closing(DoneLock), map[], sh, log))
    ensures Reaches(s0, Crowd(ws, Collecting(QLock), map[], sh.(done := true), log))
  {
    var l := map[EMtx := OfMaster];
    hide Reaches, Crowd, Awake, Uncounted;
    MasterMoves(s0, ws, Closing(DoneLock), map[], sh, log);
    MasterMoves(s0, ws, Closing(SetDone), l, sh, log);
    MasterMoves(s0, ws, Closing(BroadcastE), l, sh.(done := true), log);
    MasterMoves(s0, ws, Closing(DoneUnlock), l, sh.(done := true), log);
    assert l - {EMtx} == map[];
  }

  /** The master acknowledges, and goes back to its accept. */
  lemma MasterAcknowledges(s0: State, ws: seq<Worker>, sh: Shared, log: Log)
    requires Awake(ws) && Reaches(s0, Crowd(ws, Finishing(AckLock2), map[], sh, log))
    ensures Reaches(s0, Crowd(ws, Accept, map[], sh.(ack := true), log))
  {
    var l := map[AckMtx := OfMaster];
    hide Reaches, Crowd, Awake, Uncounted;
    MasterMoves(s0, ws, Finishing(AckLock2), map[], sh, log);
    MasterMoves(s0, ws, Finishing(SetAck), l, sh, log);
    MasterMoves(s0, ws, Finishing(BroadcastA), l, sh.(ack := true), log);
    MasterMoves(s0, ws, Finishing(AckUnlock2), l, sh.(ack := true), log);
    assert l - {AckMtx} == map[];
  }

  const QUIET := Log(multiset{}, multiset{}, multiset{}, [], [])

  const IDLE := Shared([], true, false, false, false, 0, 0, 0, [])

  /** A client that names no content server: the master goes straight to the clearing. */
  lemma EmptySession(s0: State, ws: seq<Worker>, sh: Shared, log: Log)
    requires Awake(ws) && Reaches(s0, Crowd(ws, Accept, map[], sh, log))
    ensures Reaches(s0, Crowd(ws, Closing(AckLock), map[], sh, QUIET.(reports := log.reports)))
  {
    var log' := QUIET.(reports := log.reports);
    var s1 := Crowd(ws, MasterPc.Join(0), map[], sh, log');
    assert Spawn([]) == [];
    Go(s0, Crowd(ws, Accept, map[], sh, log), NewSession([]), s1);
    assert MasterWorkers(s1.master, ws) == ws;
    Go(s0, s1, RunMaster, Crowd(ws, Closing(AckLock), map[], sh, log'));
  }

  /** The first session is closed before the workers have run. */
  lemma Closed(s0: State, n: nat)
    requires s0 == Crowd(SomeParked(n, 0), Accept, map[], IDLE, QUIET)
    ensures Reaches(s0, Parking(n, 0))
  {
    var ws := SomeParked(n, 0);
    Stay(s0);
    hide Reaches;
    EmptySession(s0, ws, IDLE, QUIET);
    MasterClears(s0, ws, IDLE, QUIET);
    MasterCloses(s0, ws, IDLE, QUIET);
  }

  // ---- A worker's way to the acknowledgement --------------------------------------------------------

  /** A worker that finds the managers done and nothing to drain. */
  predicate Parkable(s: State, i: nat) {
    && !s.aborted && i < |s.workers| && s.workers[i] == FRESH_WORKER
    && s.master == Collecting(QLock) && s.locks == map[] && s.sh.q == [] && s.sh.done
  }

  lemma FindsDone(s: State, i: nat)
    requires Parkable(s, i)
    ensures Reaches(s, WithW(s, i, FRESH_WORKER.(pc := Draining(LockRw2)), map[], s.sh, s.log))
  {
    var e := map[EMtx := OfWorker(i)];
    var w := FRESH_WORKER;
    StayW(s, i);
    hide Reaches, WithW;
    WorkerMoves(s, s, i, w, map[], s.sh, s.log);
    WorkerMoves(s, s, i, w.(pc := Waiting(TestE)), e, s.sh, s.log);
    WorkerMoves(s, s, i, w.(pc := Waiting(Branch)), e, s.sh, s.log);
    WorkerMoves(s, s, i, w.(pc := Draining(LeaveE)), e, s.sh, s.log);
    assert e - {EMtx} == map[];
  }

  lemma FindsNothing(s: State, i: nat)
    requires Parkable(s, i)
    ensures Reaches(s, WithW(s, i, FRESH_WORKER.(pc := Telling(LockQ)), map[], s.sh, s.log))
  {
    var rw := map[RwMtx := OfWorker(i)];
    var w := FRESH_WORKER;
    hide Reaches, WithW;
    FindsDone(s, i);
    WorkerMoves(s, s, i, w.(pc := Draining(LockRw2)), map[], s.sh, s.log);
    WorkerMoves(s, s, i, w.(pc := Draining(TryPop)), rw, s.sh, s.log);
    WorkerMoves(s, s, i, w.(pc := Draining(UnlockRw2)), rw, s.sh, s.log);
    assert rw - {RwMtx} == map[];
    WorkerMoves(s, s, i, w.(pc := Draining(TestEnd)), map[], s.sh, s.log);
  }

  /** A worker as it comes to the acknowledgement, having counted itself. */
  function Counted(tmp: int): Worker {
    Worker(Acking(LockA), None, None, tmp, true)
  }

  lemma Counts(s: State, i: nat)
    requires Parkable(s, i)
    ensures Reaches(s, WithW(s, i, Counted(s.sh.qDone).(pc := Telling(SignalQ)), map[QDoneMtx := OfWorker(i)],
                             s.sh.(qDone := s.sh.qDone + 1), s.log))
  {
    var l := map[QDoneMtx := OfWorker(i)];
    var w := FRESH_WORKER;
    hide Reaches, WithW;
    FindsNothing(s, i);
    WorkerMoves(s, s, i, w.(pc := Telling(LockQ)), map[], s.sh, s.log);
    WorkerMoves(s, s, i, w.(pc := Telling(ReadQ)), l, s.sh, s.log);
    WorkerMoves(s, s, i, w.(pc := Telling(WriteQ), tmp := s.sh.qDone), l, s.sh, s.log);
  }

  lemma Parks(s: State, i: nat)
    requires Parkable(s, i)
    ensures Reaches(s, WithW(s, i, Counted(s.sh.qDone), map[], s.sh.(qDone := s.sh.qDone + 1), s.log))
  {
    var l := map[QDoneMtx := OfWorker(i)];
    var sh := s.sh.(qDone := s.sh.qDone + 1);
    var w := Counted(s.sh.qDone);
    hide Reaches, WithW;
    Counts(s, i);
    WorkerMoves(s, s, i, w.(pc := Telling(SignalQ)), l, sh, s.log);
    WorkerMoves(s, s, i, w.(pc := Telling(UnlockQ)), l, sh, s.log);
    assert l - {QDoneMtx} == map[];
  }

  /** The first `k` workers have come to the acknowledgement. */
  function SomeParked(n: nat, k: nat): (ws: seq<Worker>)
    ensures |ws| == n && forall i :: 0 <= i < n ==> ws[i] == if i < k then Counted(i) else FRESH_WORKER
  {
    seq(n, i => if i < k then Counted(i) else FRESH_WORKER)
  }

  function Parking(n: nat, k: nat): State {
    Crowd(SomeParked(n, k), Collecting(QLock), map[], IDLE.(done := true, qDone := k), QUIET)
  }

  lemma {:induction false} AllPark(s0: State, n: nat, k: nat)
    requires s0 == Crowd(SomeParked(n, 0), Accept, map[], IDLE, QUIET) && k <= n
    ensures Reaches(s0, Parking(n, k))
  {
    if k == 0 {
      Closed(s0, n);
    } else {
      hide Reaches, Parkable, Parking, Counted;
      AllPark(s0, n, k - 1);
      OneParks(n, k - 1);
      Chain(s0, Parking(n, k - 1), Parking(n, k));
    }
  }

  lemma OneParks(n: nat, k: nat)
    requires k < n
    ensures Reaches(Parking(n, k), Parking(n, k + 1))
  {
    Parks(Parking(n, k), k);
    assert SomeParked(n, k)[k := Counted(k)] == SomeParked(n, k + 1);
    hide Reaches, Counted;
  }

  // ---- The rest of the first session ----------------------------------------------------------------

  const REPORTED := QUIET.(reports := [Stats(0, 0, 0, 0)])

  lemma Reported(s0: State, n: nat)
    requires Reaches(s0, Parking(n, n))
    ensures Reaches(s0, Crowd(SomeParked(n, n), Resetting(ResetFull, ResetTake), map[],
      IDLE.(done := true, qDone := n), REPORTED))
  {
    var ws := SomeParked(n, n);
    var sh := IDLE.(done := true, qDone := n);
    assert Awake(ws);
    hide Reaches, Crowd, SomeParked;
    ParkingIs(n);
    MasterCollects(s0, ws, sh, QUIET);
    MasterMoves(s0, ws, Collecting(Send), map[], sh, QUIET);
    assert QUIET.reports + [Stats(0, 0, 0, 0)] == [Stats(0, 0, 0, 0)];
  }

  lemma ParkingIs(n: nat)
    ensures Parking(n, n) == Crowd(SomeParked(n, n), Collecting(QLock), map[], IDLE.(done := true, qDone := n), QUIET)
  {
  }

  lemma ResetAll(s0: State, ws: seq<Worker>, n: nat)
    requires Awake(ws)
    requires Reaches(s0, Crowd(ws, Resetting(ResetFull, ResetTake), map[], IDLE.(done := true, qDone := n), REPORTED))
    ensures Reaches(s0, Crowd(Uncounted(ws), Finishing(AckLock2), map[], IDLE, REPORTED)) && Awake(Uncounted(ws))
  {
    var sh := IDLE.(done := true, qDone := n);
    assert Awake(Uncounted(ws));
    hide Reaches, Crowd, Uncounted, Awake;
    MasterResets(s0, ws, ResetFull, sh, REPORTED);
    MasterResets(s0, ws, ResetEmpty, sh, REPORTED);
    MasterResets(s0, ws, ResetDone, sh, REPORTED);
    MasterResets(s0, ws, ResetQDone, IDLE.(qDone := n), REPORTED);
    MasterResets(s0, Uncounted(ws), ResetBytes, IDLE, REPORTED);
    MasterResets(s0, Uncounted(ws), ResetFiles, IDLE, REPORTED);
    MasterResets(s0, Uncounted(ws), ResetSpread, IDLE, REPORTED);
  }

  /** The second session is about to clear the acknowledgement, and no worker has seen it. */
  lemma Overtaken(s0: State, n: nat) returns (s: State)
    requires s0 == Crowd(SomeParked(n, 0), Accept, map[], IDLE, QUIET)
    ensures Reaches(s0, s) && s.master == Closing(ClearAck) && !s.aborted && s.locks == map[AckMtx := OfMaster]
    ensures |s.workers| == n && (forall i :: 0 <= i < n ==> s.workers[i].pc.Acking?) && s.log.offered == multiset{}
  {
    var ws := Uncounted(SomeParked(n, n));
    var sh := IDLE.(ack := true);
    assert forall i :: 0 <= i < n ==> ws[i].pc.Acking?;
    hide Reaches;
    AllPark(s0, n, n);
    Reported(s0, n);
    ResetAll(s0, SomeParked(n, n), n);
    MasterAcknowledges(s0, ws, IDLE, REPORTED);
    EmptySession(s0, ws, sh, REPORTED);
    MasterMoves(s0, ws, Closing(AckLock), map[], sh, REPORTED);
    s := Crowd(ws, Closing(ClearAck), map[AckMtx := OfMaster], sh, REPORTED);
  }

  // ---- The second session ---------------------------------------------------------------------------

  lemma StepKeepsOffered(s: State, a: Action, s': State)
    requires InSession(a) && Step(s, a) == Some(s')
    ensures s'.log.offered == s.log.offered
  {
    if a.RunWorker? { LogMoves(s.workers[a.w], s.log, a.outcome); }
    hide WorkerNext, WorkerShared, WorkerLog, ManagerNext, ManagerShared, MasterGo, MasterShared, LocksNext;
  }

  lemma {:induction false} RunKeepsOffered(s: State, actions: seq<Action>, t: State)
    requires AllInSession(actions) && Exec(s, actions) == Some(t)
    ensures t.log.offered == s.log.offered
  {
    hide Step;
    if actions != [] {
      var most := actions[..|actions| - 1];
      RunKeepsOffered(s, most, Exec(s, most).value);
      StepKeepsOffered(Exec(s, most).value, actions[|actions| - 1], t);
    }
  }

  /** Without an entry there is no transfer that could hang. */
  lemma NothingHangs(s: State)
    requires Inv(s) && s.log.offered == multiset{}
    ensures !AnyHung(s.workers)
  {
    forall i | 0 <= i < |s.workers| ensures !IsHung(s.workers[i].pc) {
      PoolUpdate(s.workers, Held, i, s.workers[i]);
      assert Held(s.workers[i]) <= s.log.offered;
      assert CarryOk(s.workers[i]);
    }
  }

  /**
   Even without a spurious wakeup, and with any number of workers, the program can come to a
   standstill.
   */
  lemma StandstillHappens(n: nat)
    requires n >= 1
    ensures exists s :: Reachable(s, n) && Standstill(s)
  {
    var s0 := StartState(n);
    assert s0.workers == SomeParked(n, 0);
    var s := Overtaken(s0, n);
    assert Init(s0, n);
    MakesReachable(s0, n, s);
    var s1 := Step(s, RunMaster).value;
    Go(s0, s, RunMaster, s1);
    MakesReachable(s0, n, s1);
    Stranded(s, s1, n);
  }

  lemma Stranded(s: State, s1: State, n: nat)
    requires n >= 1 && Reachable(s, n) && Reachable(s1, n) && s.master == Closing(ClearAck)
      && Step(s, RunMaster) == Some(s1)
    requires |s.workers| == n && (forall i :: 0 <= i < n ==> s.workers[i].pc.Acking?) && s.log.offered == multiset{}
    requires !s.aborted && !s1.aborted
    ensures exists t :: Reachable(t, n) && Standstill(t)
  {
    hide Reachable, Standstill, Step, CanMove, Inv, AnyHung, Hanging;
    StepKeepsOffered(s, RunMaster, s1);
    ReachableInv(s1, n);
    ProgressOf(s1);
    var actions, t := RunsToItsEnd(s1);
    ReachableTrans(s1, n, actions, t);
    RunKeepsOffered(s1, actions, t);
    if t.aborted { AbortNeedsTwo(t, n); }
    ReachableInv(t, n);
    NothingHangs(t);
    ClearingDecidesTheEnd(s, n, s1, actions, t);
    assert s.workers[0].pc.Acking?;
  }

  // ---- A transfer that never ends -------------------------------------------------------------------

  /** One entry pushed and popped, and its transfer never ends. */
  lemma OneHung(n: nat, e: Entry) returns (t: State)
    requires n >= 1
    ensures Reachable(t, n) && !t.aborted && AnyHung(t.workers) && |t.log.offered| == 1
  {
    var s0 := StartState(n);
    var s := Started(n, [e]);
    SessionStarts(n, [e]);
    PushMany(s, 1);
    var s1 := PushedMany(s, 1);
    Chain(s0, s, s1);
    WorkerPops(s1, 0);
    var s2 := Taken(s1, 0);
    Chain(s0, s1, s2);
    WorkerLowers(s2, 0);
    var s3 := Lowered(s2, 0);
    Chain(s0, s2, s3);
    t := Hangs(s0, s3);
    MakesReachable(s0, n, t);
  }

  lemma Hangs(s0: State, s: State) returns (t: State)
    requires Reaches(s0, s) && !s.aborted && s.workers != [] && s.workers[0].pc == Fetching(Main, Start)
    ensures Reaches(s0, t) && !t.aborted && AnyHung(t.workers) && t.log.offered == s.log.offered
  {
    t := Step(s, RunWorker(0, 0, Never)).value;
    Go(s0, s, RunWorker(0, 0, Never), t);
    assert IsHung(t.workers[0].pc);
  }

  /** With any number of workers, a single transfer that never ends can stop the program. */
  lemma HangHappens(n: nat)
    requires n >= 1
    ensures exists s :: Reachable(s, n) && Hanging(s) && AnyHung(s.workers)
  {
    var s := OneHung(n, Entry("a"));
    hide Reachable, Standstill, Step, CanMove, Inv, AnyHung, Hanging;
    ReachableInv(s, n);
    ProgressOf(s);
    var actions, t := RunsToItsEnd(s);
    ReachableTrans(s, n, actions, t);
    RunKeepsOffered(s, actions, t);
    if t.aborted { AbortNeedsTwo(t, n); }
    HungIsForEver(s, n, actions, t);
    DeadlockFreedom(t, n);
    HungIsNoStandstill(t);
  }

  lemma HungIsNoStandstill(s: State)
    ensures Standstill(s) ==> !AnyHung(s.workers)
  {
  }
}
