/**
 What every run of the content server's hand-off keeps: mutual exclusion, the order of the
 connections, the truth of the flags, and what must have happened before the hand-off fails.
 */
module ContentInvariants {
  import opened Folds
  import opened Threads
  import opened ContentModel

  // ---- Mutual exclusion ----------------------------------------------------------------

  /** The mutexes a worker at `pc` has taken and not yet released. */
  function WorkerOwns(pc: WorkerPc): set<Mutex> {
    match pc
    case TestE | WaitE | LockQ | UnlockE => {EMtx}
    case Pop | SetEmpty | UnlockQ | Relock => {EMtx, RwMtx}
    case ClearFull | SignalF | UnlockF => {FMtx}
    case Access | UnlockH => {HMtx}
    case LockE | SleepE | WokenE | LockF | Receive | LockH | Transfer | Hung => {}
  }

  /** The master takes one mutex at a time. */
  function MasterOwns(pc: MasterPc): set<Mutex> {
    match pc
    case FTest | FWait | FUnlock => {FMtx}
    case Push | SetFull | QUnlock => {RwMtx}
    case ClearEmpty | SignalE | EUnlock => {EMtx}
    case _ => {}
  }

  /** The hash table's mutex stays with the worker that went back without releasing it. */
  function Lost(log: Log, i: nat): set<Mutex> {
    if log.loser == Some(i) then {HMtx} else {}
  }

  function Owns(s: State, t: Tid): set<Mutex> {
    match t
    case OfWorker(i) => if i < |s.workers| then WorkerOwns(s.workers[i].pc) + Lost(s.log, i) else {}
    case OfManager(_) => {}
    case OfMaster => MasterOwns(s.master)
  }

  /**
   `m` belongs to `t` if and only if `t` is in one of `m`'s critical sections, or left the hash
   table's without releasing it.
   */
  ghost predicate LocksExact(s: State) {
    && (forall m | m in s.locks :: m in Owns(s, s.locks[m]))
    && (forall t, m {:trigger m in Owns(s, t)} | m in Owns(s, t) :: m in s.locks && s.locks[m] == t)
  }

  predicate InHash(pc: WorkerPc) {
    pc == Access || pc == UnlockH
  }

  /** A worker that is about to meet the exception, unless the mutex is lost already. */
  predicate Doomed(w: Worker) {
    w.bad && (w.pc == LockH || w.pc == Access)
  }

  /**
   Once lost, the hash table's mutex is never taken again; it is lost through a bad ID, and a bad
   ID loses it.
   */
  ghost predicate HashInv(s: State) {
    && (s.log.loser.Some? ==> s.log.loser.value < |s.workers| && s.log.badId)
    && (s.log.loser.Some? ==> forall i :: 0 <= i < |s.workers| ==> !InHash(s.workers[i].pc))
    && (forall i :: 0 <= i < |s.workers| && Doomed(s.workers[i]) ==> s.log.badId)
    && (s.log.badId ==> s.log.loser.Some? || exists i :: 0 <= i < |s.workers| && Doomed(s.workers[i]))
  }

  predicate Disciplined<Pc, Op, Test>(instr: Instr<Pc, Op, Test>, own: set<Mutex>, own': set<Mutex>) {
    match instr
    case Lock(m, _) => m !in own && own' == own + {m}
    case Unlock(m, _) => m in own && own' == own - {m}
    case Wait(m, _) => m in own && own' == own - {m}
    case _ => own' == own
  }

  /** A worker changes what it owns as it changes the lock table, but for the exception. */
  lemma WorkerDisciplined(w: Worker, sh: Shared, event: Event)
    requires w.pc != Relock && !(w.pc == Access && w.bad)
    ensures Disciplined(WorkerCode(w.pc), WorkerOwns(w.pc), WorkerOwns(WorkerNext(w, sh, event).pc))
  {
  }

  lemma MasterDisciplined(pc: MasterPc, sh: Shared)
    ensures Disciplined(MasterCode(pc), MasterOwns(pc), MasterOwns(MasterNext(pc, sh)))
  {
  }

  /** `t` alone changes what it owns, by the mutex of its instruction. */
  ghost predicate Follows(s: State, s': State, t: Tid) {
    && (forall u :: u != t ==> Owns(s', u) == Owns(s, u))
    && (|| (s'.locks == s.locks && Owns(s', t) == Owns(s, t))
        || (exists m :: m !in s.locks && s'.locks == s.locks[m := t] && Owns(s', t) == Owns(s, t) + {m})
        || (exists m :: m in Owns(s, t) && s'.locks == s.locks - {m} && Owns(s', t) == Owns(s, t) - {m}))
  }

  lemma TakingKeepsExact(s: State, s': State, t: Tid, m: Mutex)
    requires LocksExact(s) && forall u :: u != t ==> Owns(s', u) == Owns(s, u)
    requires m !in s.locks && s'.locks == s.locks[m := t] && Owns(s', t) == Owns(s, t) + {m}
    ensures LocksExact(s')
  {
    hide Owns;
  }

  lemma DroppingKeepsExact(s: State, s': State, t: Tid, m: Mutex)
    requires LocksExact(s) && forall u :: u != t ==> Owns(s', u) == Owns(s, u)
    requires m in Owns(s, t) && s'.locks == s.locks - {m} && Owns(s', t) == Owns(s, t) - {m}
    ensures LocksExact(s')
  {
    hide Owns;
  }

  lemma FollowingKeepsExact(s: State, s': State, t: Tid)
    requires LocksExact(s) && Follows(s, s', t)
    ensures LocksExact(s')
  {
    hide Owns;
    if s'.locks == s.locks && Owns(s', t) == Owns(s, t) {
    } else if m :| m !in s.locks && s'.locks == s.locks[m := t] && Owns(s', t) == Owns(s, t) + {m} {
      TakingKeepsExact(s, s', t, m);
    } else {
      var m :| m in Owns(s, t) && s'.locks == s.locks - {m} && Owns(s', t) == Owns(s, t) - {m};
      DroppingKeepsExact(s, s', t, m);
    }
  }

  /** A worker that went back with its mutexes taken never gets past the first of them. */
  lemma JammedIsBlocked(s: State, i: nat)
    requires LocksExact(s) && i < |s.workers| && s.workers[i].pc == Relock
    ensures Blocked(s.locks, WorkerCode(Relock)) && RwMtx in s.locks
  {
    assert EMtx in Owns(s, OfWorker(i));
    assert RwMtx in Owns(s, OfWorker(i));
  }

  lemma WorkerFollows(s: State, i: nat, event: Event, s': State)
    requires LocksExact(s) && HashInv(s) && i < |s.workers| && WorkerStep(s, i, event) == Some(s')
    ensures Follows(s, s', OfWorker(i))
  {
    var w := s.workers[i];
    if w.pc == Relock { JammedIsBlocked(s, i); }
    if InHash(w.pc) { assert s.log.loser.None?; }
    if w.pc == Access && w.bad {
      ExceptionKeepsOwner(s, i, event, s');
    } else {
      assert w.pc != Relock;
      hide LocksExact, HashInv, WorkerNext, WorkerShared, WorkerLog, WorkerOwns;
      DisciplinedFollows(s, i, event, s');
    }
  }

  lemma DisciplinedFollows(s: State, i: nat, event: Event, s': State)
    requires i < |s.workers| && WorkerStep(s, i, event) == Some(s')
    requires s.workers[i].pc != Relock && !(s.workers[i].pc == Access && s.workers[i].bad)
    requires InHash(s.workers[i].pc) ==> s.log.loser.None?
    ensures Follows(s, s', OfWorker(i))
  {
    var w := s.workers[i];
    WorkerDisciplined(w, s.sh, event);
    LoserMoves(w, i, s.master, s.sh, s.log, event);
    hide WorkerNext, WorkerShared, WorkerLog, WorkerOwns;
    OthersOwn(s, i, event, s');
  }

  lemma LoserMoves(w: Worker, i: nat, master: MasterPc, sh: Shared, log: Log, event: Event)
    ensures WorkerLog(w, i, master, sh, log, event).loser == if w.pc == Access && w.bad then Some(i) else log.loser
  {
  }

  lemma OthersOwn(s: State, i: nat, event: Event, s': State)
    requires i < |s.workers| && WorkerStep(s, i, event) == Some(s') && s'.log.loser == s.log.loser
    ensures forall u :: u != OfWorker(i) ==> Owns(s', u) == Owns(s, u)
  {
    hide WorkerNext, WorkerShared, WorkerLog, WorkerOwns;
  }

  /** The exception leaves the lock table alone, and the worker with what it owned. */
  lemma ExceptionKeepsOwner(s: State, i: nat, event: Event, s': State)
    requires i < |s.workers| && s.workers[i].pc == Access && s.workers[i].bad && s.log.loser.None?
    requires WorkerStep(s, i, event) == Some(s')
    ensures Follows(s, s', OfWorker(i))
  {
    assert s'.workers[i].pc == LockE && s'.log.loser == Some(i);
  }

  lemma SignalledWorkers(ws: seq<Worker>, pick: nat, vs: seq<Worker>)
    requires SignalWorkers(ws, pick) == Some(vs)
    ensures |vs| == |ws|
    ensures forall i :: 0 <= i < |ws| ==> vs[i] == ws[i] || (ws[i].pc == SleepE && vs[i] == ws[i].(pc := WokenE))
    ensures AnyAsleep(ws) ==> pick < |vs| && vs[pick].pc == WokenE
  {
  }

  lemma MasterFollows(s: State, pick: nat, s': State)
    requires MasterStep(s, pick) == Some(s')
    ensures Follows(s, s', OfMaster)
  {
    MasterDisciplined(s.master, s.sh);
    if s.master == SignalE { SignalledWorkers(s.workers, pick, s'.workers); }
    hide SignalWorkers, MasterNext, MasterShared, MasterOwns;
  }

  lemma StepKeepsLocks(s: State, a: Action, s': State)
    requires LocksExact(s) && HashInv(s) && Step(s, a) == Some(s')
    ensures LocksExact(s')
  {
    hide LocksExact, HashInv, WorkerStep, MasterStep, Follows, Owns;
    match a
    case RunWorker(i, event) =>
      WorkerFollows(s, i, event, s');
      FollowingKeepsExact(s, s', OfWorker(i));
    case RunMaster(pick) =>
      MasterFollows(s, pick, s');
      FollowingKeepsExact(s, s', OfMaster);
    case _ =>
      OthersOwnTheSame(s, a, s');
      FollowingKeepsExact(s, s', OfMaster);
  }

  /** A new client and a spurious wakeup change no thread's mutexes. */
  lemma OthersOwnTheSame(s: State, a: Action, s': State)
    requires Step(s, a) == Some(s') && !a.RunWorker? && !a.RunMaster?
    ensures Follows(s, s', OfMaster)
  {
    hide WorkerStep, MasterStep;
  }

  /** No two threads are ever in critical sections of the same mutex. */
  lemma MutualExclusion(s: State, t: Tid, u: Tid, m: Mutex)
    requires LocksExact(s) && m in Owns(s, t) && m in Owns(s, u)
    ensures t == u
  {
    hide Owns;
  }

  // ---- The order of the connections -------------------------------------------------------

  function Fds(handed: seq<Handed>): (r: seq<int>)
    ensures |r| == |handed|
  {
    seq(|handed|, k requires 0 <= k < |handed| => handed[k].fd)
  }

  function Hand(s: State): seq<int> {
    if InHand(s.master) then [s.fd] else []
  }

  /** The connection that worker `i` got last. */
  function LastOf(handed: seq<Handed>, i: nat): Option<int> {
    if handed == [] then None
    else if handed[|handed| - 1].worker == i then Some(handed[|handed| - 1].fd)
    else LastOf(handed[..|handed| - 1], i)
  }

  /** What was accepted is what was handed out, then the queue, then the master's hand. */
  ghost predicate OrderKept(s: State) {
    && s.log.accepted == Fds(s.log.handed) + s.sh.q + Hand(s)
    && |s.sh.q| <= CAPACITY
    && forall i :: 0 <= i < |s.workers| ==> s.workers[i].fd == LastOf(s.log.handed, i)
  }

  lemma WorkerEffect(w: Worker, i: nat, master: MasterPc, sh: Shared, log: Log, event: Event)
    ensures var sh' := WorkerShared(w.pc, sh);
            var log' := WorkerLog(w, i, master, sh, log, event);
            var w' := WorkerNext(w, sh, event);
            && sh'.empty == (if w.pc == SetEmpty then sh.q == [] else sh.empty)
            && sh'.full == (sh.full && w.pc != ClearFull)
            && (w.pc == Pop && sh.q != []
                ==> sh'.q == sh.q[1..] && log'.handed == log.handed + [Handed(i, sh.q[0])]
                    && log'.early == (log.early || (|sh.q| == 1 && Unpublished(master)))
                    && w'.fd == Some(sh.q[0]) && w'.pc == SetEmpty)
            && (w.pc != Pop || sh.q == []
                ==> sh'.q == sh.q && log'.handed == log.handed && log'.early == log.early && w'.fd == w.fd)
            && log'.accepted == log.accepted
  {
  }

  lemma HashEffect(w: Worker, i: nat, master: MasterPc, sh: Shared, log: Log, event: Event)
    ensures var log' := WorkerLog(w, i, master, sh, log, event);
            var w' := WorkerNext(w, sh, event);
            && log'.badId == (log.badId || (w.pc == Receive && event == Hashed(true)))
            && log'.loser == (if w.pc == Access && w.bad then Some(i) else log.loser)
            && (InHash(w'.pc) ==> w.pc == LockH || (w.pc == Access && !w.bad))
            && (Doomed(w') ==> Doomed(w) || (w.pc == Receive && event == Hashed(true)))
            && (Doomed(w) ==> Doomed(w') || w.pc == Access)
            && (w.pc == Receive && event == Hashed(true) ==> Doomed(w'))
  {
  }

  /** Who is in the hash table's section owns its mutex, so nobody has lost it. */
  lemma WorkerKeepsHash(s: State, i: nat, event: Event, s': State)
    requires LocksExact(s) && HashInv(s) && i < |s.workers| && WorkerStep(s, i, event) == Some(s')
    ensures HashInv(s')
  {
    var w := s.workers[i];
    HashEffect(w, i, s.master, s.sh, s.log, event);
    if s.log.loser.Some? { assert HMtx in Owns(s, OfWorker(s.log.loser.value)); }
    if w.pc == Access && w.bad {
      forall k | 0 <= k < |s.workers| && k != i ensures !InHash(s.workers[k].pc) {
        if InHash(s.workers[k].pc) { MutualExclusion(s, OfWorker(i), OfWorker(k), HMtx); }
      }
    }
    assert w.pc == LockH && s.log.loser.Some? ==> Blocked(s.locks, WorkerCode(w.pc));
    hide LocksExact, Owns, WorkerNext, WorkerShared, WorkerLog, WorkerCode, Blocked, LocksNext, InHash, Doomed;
    assert s'.workers[i] == WorkerNext(w, s.sh, event);
    assert !InHash(LockE);
    if s'.log.badId && s'.log.loser.None? {
      if s.log.badId {
        var k :| 0 <= k < |s.workers| && Doomed(s.workers[k]);
        assert Doomed(s'.workers[k]);
      } else {
        assert Doomed(s'.workers[i]);
      }
    }
  }

  lemma MasterKeepsHash(s: State, pick: nat, s': State)
    requires HashInv(s) && MasterStep(s, pick) == Some(s')
    ensures HashInv(s')
  {
    if s.master == SignalE { SignalledWorkers(s.workers, pick, s'.workers); }
    hide MasterShared, MasterNext, MasterCode, SignalWorkers, Blocked, LocksNext;
    if k :| 0 <= k < |s.workers| && Doomed(s.workers[k]) { assert Doomed(s'.workers[k]); }
  }

  lemma StepKeepsHash(s: State, a: Action, s': State)
    requires LocksExact(s) && HashInv(s) && Step(s, a) == Some(s')
    ensures HashInv(s')
  {
    hide LocksExact, WorkerStep, MasterStep;
    match a
    case RunWorker(i, event) => WorkerKeepsHash(s, i, event, s');
    case RunMaster(pick) => MasterKeepsHash(s, pick, s');
    case SpuriousWorker(i) =>
      if k :| 0 <= k < |s.workers| && Doomed(s.workers[k]) { assert Doomed(s'.workers[k]); }
    case _ =>
  }

  lemma PopKeepsOrder(accepted: seq<int>, handed: seq<Handed>, q: seq<int>, hand: seq<int>, i: nat)
    requires accepted == Fds(handed) + q + hand && q != []
    ensures accepted == Fds(handed + [Handed(i, q[0])]) + q[1..] + hand
    ensures forall k: nat :: LastOf(handed + [Handed(i, q[0])], k) == if k == i then Some(q[0]) else LastOf(handed, k)
  {
    assert Fds(handed + [Handed(i, q[0])]) == Fds(handed) + [q[0]];
    assert [q[0]] + q[1..] == q;
    assert (handed + [Handed(i, q[0])])[..|handed|] == handed;
    hide Fds;
  }

  lemma WorkerKeepsOrder(s: State, i: nat, event: Event, s': State)
    requires OrderKept(s) && i < |s.workers| && WorkerStep(s, i, event) == Some(s')
    ensures OrderKept(s')
  {
    WorkerEffect(s.workers[i], i, s.master, s.sh, s.log, event);
    if s.workers[i].pc == Pop && s.sh.q != [] {
      PopKeepsOrder(s.log.accepted, s.log.handed, s.sh.q, Hand(s), i);
    }
    hide Fds, LastOf, WorkerShared, WorkerLog, WorkerNext, WorkerCode, Blocked, LocksNext;
  }

  lemma MasterEffect(pc: MasterPc, fd: int, sh: Shared)
    ensures var sh' := MasterShared(pc, fd, sh);
            var pc' := MasterNext(pc, sh);
            && sh'.q == (if pc == Push then sh.q + [fd] else sh.q)
            && sh'.empty == (sh.empty && pc != ClearEmpty)
            && sh'.full == (if pc == SetFull then |sh.q| == CAPACITY else sh.full)
            && (InHand(pc') ==> InHand(pc)) && (InHand(pc) ==> InHand(pc') || pc == Push)
            && (Unpublished(pc') ==> Unpublished(pc) || pc == Push)
              && (Unpublished(pc) ==> Unpublished(pc') || pc == ClearEmpty)
            && (pc == Push ==> pc' == SetFull) && (pc == ClearEmpty ==> pc' == SignalE)
            && (pc' == FWait ==> sh.full) && (pc == FWait ==> pc' == FSleep)
              && (pc' == FSleep ==> pc == FWait || pc == FSleep)
            && (pc' == FUnlock ==> pc == FTest && !sh.full)
  {
  }

  lemma MasterKeepsOrder(s: State, pick: nat, s': State)
    requires OrderKept(s) && MasterStep(s, pick) == Some(s')
    ensures OrderKept(s')
  {
    MasterEffect(s.master, s.fd, s.sh);
    if s.master == SignalE { SignalledWorkers(s.workers, pick, s'.workers); }
    hide Fds, LastOf, MasterShared, MasterNext, MasterCode, SignalWorkers, Blocked, LocksNext;
  }

  lemma StepKeepsOrder(s: State, a: Action, s': State)
    requires OrderKept(s) && Step(s, a) == Some(s')
    ensures OrderKept(s')
  {
    hide Fds, LastOf, WorkerStep, MasterStep;
    match a
    case RunWorker(i, event) => WorkerKeepsOrder(s, i, event, s');
    case RunMaster(pick) => MasterKeepsOrder(s, pick, s');
    case _ =>
  }

  // ---- The flags ----------------------------------------------------------------------------

  /** Between a pop and lowering the full flag. */
  predicate Lowering(pc: WorkerPc) {
    pc in {SetEmpty, UnlockQ, UnlockE, LockF, ClearFull}
  }

  /** Past its first pop, and not back at its loop. */
  predicate PastPop(pc: WorkerPc) {
    Lowering(pc) || pc in {SignalF, UnlockF, Receive, LockH, Access, UnlockH, Transfer, Hung}
  }

  /** Past the test of the empty flag, which is not rewritten yet. */
  predicate PastTest(pc: WorkerPc) {
    pc in {LockQ, Pop, SetEmpty}
  }

  predicate AnyLowering(ws: seq<Worker>) {
    exists i :: 0 <= i < |ws| && Lowering(ws[i].pc)
  }

  predicate AnyAt(ws: seq<Worker>, pc: WorkerPc) {
    exists i :: 0 <= i < |ws| && ws[i].pc == pc
  }

  /**
   Raised, each flag has its reason: at most the one connection that is not published yet, a full
   queue or a late worker.
   */
  ghost predicate FlagsTrue(s: State) {
    && (s.sh.empty ==> |s.sh.q| <= if Unpublished(s.master) then 1 else 0)
    && (s.sh.full ==> |s.sh.q| == CAPACITY || AnyLowering(s.workers))
  }

  /** What a thread saw of a flag still holds, as long as it holds the flag's mutex. */
  ghost predicate Seen(s: State) {
    && (forall i :: 0 <= i < |s.workers| ==>
          (PastTest(s.workers[i].pc) ==> !s.sh.empty) && (s.workers[i].pc == WaitE ==> s.sh.empty))
    && (s.master == FWait ==> s.sh.full)
  }

  lemma WorkerMoves(w: Worker, sh: Shared, event: Event)
    requires w.pc != Relock
    ensures var pc' := WorkerNext(w, sh, event).pc;
            && (Lowering(w.pc) ==> Lowering(pc') || w.pc == ClearFull)
            && (PastPop(pc') ==> PastPop(w.pc) || (w.pc == Pop && sh.q != []))
            && (PastTest(pc') ==> PastTest(w.pc) || (w.pc == TestE && !sh.empty))
            && (pc' == WaitE ==> w.pc == TestE && sh.empty)
            && (pc' == SleepE ==> w.pc == WaitE || w.pc == SleepE)
            && (w.pc == Pop && sh.q != [] ==> pc' == SetEmpty)
            && (w.pc == SetEmpty ==> pc' == UnlockQ)
            && (w.pc == ClearFull ==> pc' == SignalF)
            && (pc' == Relock ==> w.pc == Pop && sh.q == [])
  {
  }

  lemma WorkerKeepsFlags(s: State, i: nat, event: Event, s': State)
    requires LocksExact(s) && FlagsTrue(s) && i < |s.workers| && WorkerStep(s, i, event) == Some(s')
    ensures FlagsTrue(s')
  {
    var w := s.workers[i];
    if w.pc == Relock { JammedIsBlocked(s, i); }
    WorkerEffect(w, i, s.master, s.sh, s.log, event);
    WorkerMoves(w, s.sh, event);
    hide LocksExact, WorkerNext, WorkerShared, WorkerLog, WorkerCode, Blocked, LocksNext, Lowering;
    assert s'.workers[i] == WorkerNext(w, s.sh, event);
    if s'.sh.full && |s'.sh.q| != CAPACITY {
      if w.pc == Pop && s.sh.q != [] {
        assert Lowering(SetEmpty);
      } else {
        var k :| 0 <= k < |s.workers| && Lowering(s.workers[k].pc);
        assert Lowering(s'.workers[k].pc);
      }
    }
  }

  lemma MasterKeepsFlags(s: State, pick: nat, s': State)
    requires FlagsTrue(s) && MasterStep(s, pick) == Some(s')
    ensures FlagsTrue(s')
  {
    MasterEffect(s.master, s.fd, s.sh);
    if s.master == SignalE { SignalledWorkers(s.workers, pick, s'.workers); }
    hide MasterShared, MasterNext, MasterCode, SignalWorkers, Blocked, LocksNext, Unpublished;
    assert Unpublished(SetFull);
    if s.sh.full && |s.sh.q| != CAPACITY && s.master != SetFull {
      var k :| 0 <= k < |s.workers| && Lowering(s.workers[k].pc);
      assert Lowering(s'.workers[k].pc);
    }
  }

  lemma StepKeepsFlags(s: State, a: Action, s': State)
    requires LocksExact(s) && FlagsTrue(s) && Step(s, a) == Some(s')
    ensures FlagsTrue(s')
  {
    hide LocksExact, WorkerStep, MasterStep;
    match a
    case RunWorker(i, event) => WorkerKeepsFlags(s, i, event, s');
    case RunMaster(pick) => MasterKeepsFlags(s, pick, s');
    case SpuriousWorker(i) =>
      if AnyLowering(s.workers) {
        var k :| 0 <= k < |s.workers| && Lowering(s.workers[k].pc);
        assert s'.workers[k] == s.workers[k];
      }
    case _ =>
  }

  /** While one worker is between its test and its write of the empty flag, nobody else is. */
  lemma AloneUnderE(s: State, i: nat, k: nat)
    requires LocksExact(s) && i < |s.workers| && k < |s.workers|
    requires EMtx in WorkerOwns(s.workers[i].pc) && EMtx in WorkerOwns(s.workers[k].pc)
    ensures i == k
  {
    MutualExclusion(s, OfWorker(i), OfWorker(k), EMtx);
  }

  lemma WorkerKeepsSeen(s: State, i: nat, event: Event, s': State)
    requires LocksExact(s) && Seen(s) && i < |s.workers| && WorkerStep(s, i, event) == Some(s')
    ensures Seen(s')
  {
    var w := s.workers[i];
    if w.pc == Relock { JammedIsBlocked(s, i); }
    WorkerEffect(w, i, s.master, s.sh, s.log, event);
    WorkerMoves(w, s.sh, event);
    if w.pc == ClearFull && s.master == FWait { MutualExclusion(s, OfWorker(i), OfMaster, FMtx); }
    forall k | 0 <= k < |s.workers| && k != i && w.pc == SetEmpty
      ensures !PastTest(s.workers[k].pc) && s.workers[k].pc != WaitE
    {
      if PastTest(s.workers[k].pc) || s.workers[k].pc == WaitE { AloneUnderE(s, i, k); }
    }
    hide LocksExact, WorkerNext, WorkerShared, WorkerLog, WorkerCode, Blocked, LocksNext;
  }

  lemma MasterKeepsSeen(s: State, pick: nat, s': State)
    requires LocksExact(s) && Seen(s) && MasterStep(s, pick) == Some(s')
    ensures Seen(s')
  {
    MasterEffect(s.master, s.fd, s.sh);
    if s.master == SignalE { SignalledWorkers(s.workers, pick, s'.workers); }
    forall k | 0 <= k < |s.workers| && s.master == ClearEmpty ensures s.workers[k].pc != WaitE {
      if s.workers[k].pc == WaitE { MutualExclusion(s, OfWorker(k), OfMaster, EMtx); }
    }
    hide LocksExact, MasterShared, MasterNext, MasterCode, SignalWorkers, Blocked, LocksNext;
  }

  lemma StepKeepsSeen(s: State, a: Action, s': State)
    requires LocksExact(s) && Seen(s) && Step(s, a) == Some(s')
    ensures Seen(s')
  {
    hide LocksExact, WorkerStep, MasterStep;
    match a
    case RunWorker(i, event) => WorkerKeepsSeen(s, i, event, s');
    case RunMaster(pick) => MasterKeepsSeen(s, pick, s');
    case _ =>
  }

  // ---- Sleepers -------------------------------------------------------------------------------

  /** Awake and on its way to the next test of the empty flag, or to the pop behind it. */
  predicate OnWay(pc: WorkerPc) {
    pc in {LockE, WokenE, TestE, LockQ, Pop}
  }

  function OnWayBit(w: Worker): int {
    if OnWay(w.pc) then 1 else 0
  }

  /** The master has pushed a connection and not signalled yet. */
  function Pending(pc: MasterPc): nat {
    if Unpublished(pc) || pc == SignalE then 1 else 0
  }

  /**
   While a worker sleeps, for each connection in the queue somebody is on the way, or the master
   is about to signal; the master sleeps only while the full flag is raised or a worker is about
   to signal.
   */
  ghost predicate Roused(s: State) {
    && (AnyAsleep(s.workers) ==> |s.sh.q| <= Total(s.workers, OnWayBit) + Pending(s.master))
    && (s.master == FSleep ==> s.sh.full || AnyAt(s.workers, SignalF))
  }

  lemma {:induction false} OnWayNotNegative(ws: seq<Worker>)
    ensures Total(ws, OnWayBit) >= 0
  {
    if ws != [] { OnWayNotNegative(ws[..|ws| - 1]); }
  }

  /** A worker leaves the way only with a connection, or when there is none that is not pending. */
  lemma OnWayMoves(w: Worker, sh: Shared, event: Event)
    ensures var w' := WorkerNext(w, sh, event);
            && (OnWayBit(w') >= OnWayBit(w) || w.pc == Pop || (w.pc == TestE && sh.empty))
            && OnWayBit(w') >= OnWayBit(w) - 1
            && (w'.pc == SleepE ==> w.pc == WaitE || w.pc == SleepE)
  {
  }

  lemma WorkerKeepsSleepers(s: State, i: nat, event: Event, s': State)
    requires FlagsTrue(s) && Seen(s) && Roused(s) && i < |s.workers| && WorkerStep(s, i, event) == Some(s')
    ensures AnyAsleep(s'.workers) ==> |s'.sh.q| <= Total(s'.workers, OnWayBit) + Pending(s'.master)
  {
    var w := s.workers[i];
    WorkerEffect(w, i, s.master, s.sh, s.log, event);
    OnWayMoves(w, s.sh, event);
    TotalUpdate(s.workers, OnWayBit, i, WorkerNext(w, s.sh, event));
    OnWayNotNegative(s'.workers);
    assert WorkerCode(SleepE).Sleeping?;
    hide WorkerNext, WorkerShared, WorkerLog, WorkerCode, LocksNext, OnWayBit, Total;
    if AnyAsleep(s'.workers) {
      var k :| 0 <= k < |s.workers| && s'.workers[k].pc == SleepE;
      assert k != i ==> s.workers[k].pc == SleepE;
    }
  }

  lemma WorkerKeepsRoused(s: State, i: nat, event: Event, s': State)
    requires LocksExact(s) && FlagsTrue(s) && Seen(s) && Roused(s) && i < |s.workers|
    requires WorkerStep(s, i, event) == Some(s')
    ensures Roused(s')
  {
    var w := s.workers[i];
    WorkerKeepsSleepers(s, i, event, s');
    if w.pc == Relock { JammedIsBlocked(s, i); }
    WorkerEffect(w, i, s.master, s.sh, s.log, event);
    WorkerMoves(w, s.sh, event);
    hide LocksExact, FlagsTrue, Seen, WorkerNext, WorkerShared, WorkerLog, LocksNext, Total, AnyAsleep;
    assert s'.workers[i] == WorkerNext(w, s.sh, event);
    if s'.master == FSleep && !s'.sh.full {
      if w.pc == ClearFull {
        assert s'.workers[i].pc == SignalF;
      } else {
        var k :| 0 <= k < |s.workers| && s.workers[k].pc == SignalF;
        assert s'.workers[k].pc == SignalF;
      }
    }
  }

  /** A signal puts a sleeper on the way, if there is one. */
  lemma SignalCounts(ws: seq<Worker>, pick: nat, vs: seq<Worker>)
    requires SignalWorkers(ws, pick) == Some(vs)
    ensures if AnyAsleep(ws) then Total(vs, OnWayBit) == Total(ws, OnWayBit) + 1 else vs == ws
  {
    if AnyAsleep(ws) {
      TotalUpdate(ws, OnWayBit, pick, ws[pick].(pc := WokenE));
    }
  }

  lemma MasterPending(pc: MasterPc, fd: int, sh: Shared)
    ensures |MasterShared(pc, fd, sh).q| - Pending(MasterNext(pc, sh))
      == |sh.q| - Pending(pc) + if pc == SignalE then 1 else 0
  {
  }

  lemma MasterKeepsRoused(s: State, pick: nat, s': State)
    requires Seen(s) && Roused(s) && MasterStep(s, pick) == Some(s')
    ensures Roused(s')
  {
    MasterEffect(s.master, s.fd, s.sh);
    MasterPending(s.master, s.fd, s.sh);
    if s.master == SignalE { SignalCounts(s.workers, pick, s'.workers); }
    hide MasterShared, MasterNext, SignalWorkers, LocksNext, Total, Pending;
  }

  lemma StepKeepsRoused(s: State, a: Action, s': State)
    requires LocksExact(s) && FlagsTrue(s) && Seen(s) && Roused(s) && Step(s, a) == Some(s')
    ensures Roused(s')
  {
    hide LocksExact, WorkerStep, MasterStep, Seen, FlagsTrue;
    match a
    case RunWorker(i, event) => WorkerKeepsRoused(s, i, event, s');
    case RunMaster(pick) => MasterKeepsRoused(s, pick, s');
    case SpuriousWorker(i) =>
      TotalUpdate(s.workers, OnWayBit, i, s'.workers[i]);
      assert AnyAsleep(s.workers);
      if AnyAt(s.workers, SignalF) {
        var k :| 0 <= k < |s.workers| && s.workers[k].pc == SignalF;
        assert s'.workers[k].pc == SignalF;
      }
    case _ =>
  }

  // ---- What must have happened before the hand-off fails ---------------------------------------------

  /** As long as no connection was popped before it was published, a lowered empty flag is true as well. */
  ghost predicate EarlyInv(s: State) {
    && (!s.log.early && !s.sh.empty ==> s.sh.q != [] || AnyAt(s.workers, SetEmpty))
    && (!s.log.early && Unpublished(s.master) ==> s.sh.q != [])
    && (AnyAt(s.workers, Relock) ==> s.log.early)
  }

  lemma WorkerKeepsEarly(s: State, i: nat, event: Event, s': State)
    requires LocksExact(s) && Seen(s) && EarlyInv(s) && i < |s.workers| && WorkerStep(s, i, event) == Some(s')
    ensures EarlyInv(s')
  {
    var w := s.workers[i];
    if w.pc == Relock { JammedIsBlocked(s, i); }
    WorkerEffect(w, i, s.master, s.sh, s.log, event);
    WorkerMoves(w, s.sh, event);
    if w.pc == Pop && AnyAt(s.workers, SetEmpty) {
      var k :| 0 <= k < |s.workers| && s.workers[k].pc == SetEmpty;
      AloneUnderE(s, i, k);
    }
    hide LocksExact, WorkerNext, WorkerShared, WorkerLog, WorkerCode, Blocked, LocksNext, Unpublished;
    AtMoves(s.workers, i, WorkerNext(w, s.sh, event), Relock);
    AtMoves(s.workers, i, WorkerNext(w, s.sh, event), SetEmpty);
    hide AnyAt;
  }

  /** One worker's step brings somebody to `pc` or takes somebody from it only if it is that worker. */
  lemma AtMoves(ws: seq<Worker>, i: nat, w: Worker, pc: WorkerPc)
    requires i < |ws|
    ensures AnyAt(ws[i := w], pc) ==> w.pc == pc || AnyAt(ws, pc)
    ensures AnyAt(ws, pc) && ws[i].pc != pc ==> AnyAt(ws[i := w], pc)
    ensures w.pc == pc ==> AnyAt(ws[i := w], pc)
  {
    var vs := ws[i := w];
    if w.pc == pc { assert vs[i].pc == pc; }
    if k :| 0 <= k < |vs| && vs[k].pc == pc { assert k != i ==> ws[k].pc == pc; }
    if k :| 0 <= k < |ws| && ws[k].pc == pc { assert k != i ==> vs[k].pc == pc; }
  }

  lemma MasterKeepsEarly(s: State, pick: nat, s': State)
    requires EarlyInv(s) && MasterStep(s, pick) == Some(s')
    ensures EarlyInv(s')
  {
    MasterEffect(s.master, s.fd, s.sh);
    if s.master == SignalE { SignalledWorkers(s.workers, pick, s'.workers); }
    hide MasterShared, MasterNext, MasterCode, SignalWorkers, Blocked, LocksNext, Unpublished;
    assert Unpublished(ClearEmpty);
    if AnyAt(s'.workers, Relock) {
      var k :| 0 <= k < |s.workers| && s'.workers[k].pc == Relock;
      assert s.workers[k].pc == Relock;
    }
    if AnyAt(s.workers, SetEmpty) {
      var k :| 0 <= k < |s.workers| && s.workers[k].pc == SetEmpty;
      assert s'.workers[k].pc == SetEmpty;
    }
  }

  lemma StepKeepsEarly(s: State, a: Action, s': State)
    requires LocksExact(s) && Seen(s) && EarlyInv(s) && Step(s, a) == Some(s')
    ensures EarlyInv(s')
  {
    hide LocksExact, WorkerStep, MasterStep, Seen;
    match a
    case RunWorker(i, event) => WorkerKeepsEarly(s, i, event, s');
    case RunMaster(pick) => MasterKeepsEarly(s, pick, s');
    case SpuriousWorker(i) =>
      forall pc | pc != SleepE && pc != WokenE ensures AnyAt(s'.workers, pc) == AnyAt(s.workers, pc) {
        if k :| 0 <= k < |s.workers| && s.workers[k].pc == pc { assert s'.workers[k].pc == pc; }
        if k :| 0 <= k < |s'.workers| && s'.workers[k].pc == pc { assert s.workers[k].pc == pc; }
      }
    case _ =>
  }

  /** The first connection is popped only after it was published, so an early pop needs a second one. */
  ghost predicate FirstInv(s: State) {
    && (s.log.accepted == [] ==> s.sh.empty && s.master == Accept)
    && (|s.log.accepted| <= 1 && (InHand(s.master) || Unpublished(s.master)) ==> s.sh.empty)
    && (s.log.early ==> |s.log.accepted| >= 2)
  }

  lemma StepKeepsFirst(s: State, a: Action, s': State)
    requires Seen(s) && FirstInv(s) && Step(s, a) == Some(s')
    ensures FirstInv(s')
  {
    if a.RunWorker? { WorkerEffect(s.workers[a.w], a.w, s.master, s.sh, s.log, a.event); }
    if a.RunMaster? { MasterEffect(s.master, s.fd, s.sh); }
    hide WorkerNext, WorkerShared, WorkerLog, MasterShared, MasterNext, MasterCode, SignalWorkers, Blocked, LocksNext,
      Unpublished, InHand;
    assert Unpublished(SetFull) && InHand(Push) && InHand(FSleep) && InHand(FWoken) && InHand(FLock) && !InHand(Accept)
      && !Unpublished(FLock) && !Unpublished(FSleep) && !Unpublished(FWoken);
  }

  /** Before the first pop the full flag is raised over every full queue: the guard is sound. */
  ghost predicate GuardInv(s: State) {
    s.log.handed == [] ==>
      && (|s.sh.q| == CAPACITY ==> s.sh.full || s.master == SetFull)
      && (s.master in {FUnlock, QLock, Push} ==> |s.sh.q| < CAPACITY)
      && !s.log.badId
      && forall i :: 0 <= i < |s.workers| ==> !PastPop(s.workers[i].pc)
  }

  lemma WorkerKeepsGuard(s: State, i: nat, event: Event, s': State)
    requires LocksExact(s) && GuardInv(s) && i < |s.workers| && WorkerStep(s, i, event) == Some(s')
    ensures GuardInv(s')
  {
    var w := s.workers[i];
    if w.pc == Relock { JammedIsBlocked(s, i); }
    WorkerEffect(w, i, s.master, s.sh, s.log, event);
    HashEffect(w, i, s.master, s.sh, s.log, event);
    WorkerMoves(w, s.sh, event);
    assert PastPop(ClearFull) && PastPop(Receive) && PastPop(SetEmpty);
    hide LocksExact, WorkerNext, WorkerShared, WorkerLog, WorkerCode, Blocked, LocksNext, Lowering, PastPop;
    if s'.log.handed == [] {
      assert !PastPop(w.pc);
      forall k | 0 <= k < |s.workers| ensures !PastPop(s'.workers[k].pc) {
        assert !PastPop(s.workers[k].pc);
      }
    }
  }

  lemma GuardMoves(pc: MasterPc, sh: Shared)
    ensures var pc' := MasterNext(pc, sh);
            && (pc' in {FUnlock, QLock, Push} ==> pc in {FUnlock, QLock} || (pc == FTest && !sh.full))
            && (pc == SetFull ==> pc' == QUnlock) && (pc == Push ==> pc' == SetFull)
  {
  }

  lemma MasterKeepsGuard(s: State, pick: nat, s': State)
    requires GuardInv(s) && |s.sh.q| <= CAPACITY && MasterStep(s, pick) == Some(s')
    ensures GuardInv(s')
  {
    MasterEffect(s.master, s.fd, s.sh);
    GuardMoves(s.master, s.sh);
    if s.master == SignalE { SignalledWorkers(s.workers, pick, s'.workers); }
    hide MasterShared, MasterNext, MasterCode, SignalWorkers, Blocked, LocksNext;
    if s'.log.handed == [] {
      forall k | 0 <= k < |s.workers| ensures !PastPop(s'.workers[k].pc) {
        assert !PastPop(s.workers[k].pc);
      }
    }
  }

  lemma StepKeepsGuard(s: State, a: Action, s': State)
    requires LocksExact(s) && OrderKept(s) && GuardInv(s) && Step(s, a) == Some(s')
    ensures GuardInv(s')
  {
    hide LocksExact, WorkerStep, MasterStep;
    match a
    case RunWorker(i, event) => WorkerKeepsGuard(s, i, event, s');
    case RunMaster(pick) => MasterKeepsGuard(s, pick, s');
    case SpuriousWorker(i) =>
      assert forall k :: 0 <= k < |s.workers| && k != i ==> s'.workers[k] == s.workers[k];
    case _ =>
  }

  // ---- All together -------------------------------------------------------------------------------------

  ghost predicate Inv(s: State) {
    && LocksExact(s) && HashInv(s) && OrderKept(s) && FlagsTrue(s) && Seen(s) && Roused(s)
    && EarlyInv(s) && FirstInv(s) && GuardInv(s)
    && (s.aborted ==> s.master == Push && |s.sh.q| == CAPACITY)
  }

  lemma InvStart(n: nat)
    ensures Inv(Start(n))
  {
    assert Fds([]) == [];
  }

  lemma AbortOnlyAtPush(s: State, a: Action, s': State)
    requires Step(s, a) == Some(s') && s'.aborted
    ensures s'.master == Push && |s'.sh.q| == CAPACITY
  {
    hide WorkerNext, WorkerShared, WorkerLog, MasterNext, MasterShared, SignalWorkers, LocksNext;
  }

  lemma StepKeepsInv(s: State, a: Action, s': State)
    requires Inv(s) && Step(s, a) == Some(s')
    ensures Inv(s') && |s'.workers| == |s.workers|
  {
    hide Step, LocksExact, HashInv, OrderKept, FlagsTrue, Seen, Roused, EarlyInv, FirstInv, GuardInv;
    StepKeepsLocks(s, a, s');
    StepKeepsHash(s, a, s');
    StepKeepsOrder(s, a, s');
    StepKeepsFlags(s, a, s');
    StepKeepsSeen(s, a, s');
    StepKeepsRoused(s, a, s');
    StepKeepsEarly(s, a, s');
    StepKeepsFirst(s, a, s');
    StepKeepsGuard(s, a, s');
    if s'.aborted { AbortOnlyAtPush(s, a, s'); }
    SameWorkers(s, a, s');
  }

  lemma SameWorkers(s: State, a: Action, s': State)
    requires Step(s, a) == Some(s')
    ensures |s'.workers| == |s.workers|
  {
    hide WorkerNext, WorkerShared, WorkerLog, MasterNext, MasterShared, LocksNext;
  }

  /** The invariants hold on every run, with any number of workers and of connections. */
  lemma {:induction false} InvOnRuns(n: nat, actions: seq<Action>, s: State)
    requires Exec(Start(n), actions) == Some(s)
    ensures Inv(s) && |s.workers| == n
  {
    hide Inv, Step;
    if actions == [] {
      InvStart(n);
    } else {
      var most := actions[..|actions| - 1];
      var u := Exec(Start(n), most).value;
      InvOnRuns(n, most, u);
      StepKeepsInv(u, actions[|actions| - 1], s);
    }
  }
}
