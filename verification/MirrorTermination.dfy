/**
 Every session of the mirror server ends: between two accepts, and without spurious wakeups,
 there are only so many steps.  Together with deadlock freedom this says how a session ends.
 */
module MirrorTermination {
  import opened Folds
  import opened MirrorModel
  import opened Threads
  import opened MirrorBarrier
  import opened MirrorFlags
  import opened MirrorProgress

  // ---- The measure --------------------------------------------------------------------------------

  /** What an entry in the queue, an entry still to push, and an uncounted worker are worth. */
  const QUEUED: nat := 30
  const PENDING: nat := 46
  const UNCOUNTED: nat := 26

  function UpdateRank(k: Stat, phase: Phase): nat {
    (match k case Bytes => 20 case Files => 16 case Spread => 12)
    + (match phase case Take => 3 case Read => 2 case Write => 1 case Drop => 0)
  }

  function WorkerRank(w: Worker): nat {
    match w.pc
    case Waiting(at) => (
      match at case LockE => 10 case WokenE => 10 case TestE => 9 case WaitE => 8 case Branch => 8 case SleepE => 7)
    case Popping(at) => (
      match at
      case LockRw => 7 case Pop => 6
      case SetEmpty => 35 case UnlockRw => 34 case UnlockE => 33 case LockF => 32 case ClearFull => 31
      case SignalF => 30 case UnlockF => 26)
    case Fetching(_, at) => (
      match at case Start => 25 case Hung => 0 case Outcome => 24 case Update(k, phase) => UpdateRank(k,
        phase) case Close => 11)
    case Draining(at) => (
      match at
      case LeaveE => 7 case LockRw2 => 6 case TryPop => 5
      case UnlockRw2 => if w.item.Some? then 27 else 4
      case TestEnd => if w.item.Some? then 26 else 3)
    case Telling(at) => (
      match at case LockQ => 2 case ReadQ => 1 case WriteQ => 0 case SignalQ => 25 case UnlockQ => 21)
    case Acking(at) => (
      match at
      case LockA => 20 case WokenA => 20 case TestA => 19 case WaitA => 18 case SleepA => 17 case UnlockA => 11)
  }

  function WorkerWorth(w: Worker): int {
    WorkerRank(w) + if w.counted then 0 else UNCOUNTED
  }

  function ManagerRank(pc: ManagerPc): nat {
    match pc
    case NextFile => 8 case FLock => 7 case FWoken => 7 case FTest => 6 case FWait => 5 case RwLock => 5
    case FSleep => 4 case Push => 4
    case SetFull => 18 case RwUnlock => 17 case ELock => 16 case ClearEmpty => 15 case SignalE => 14
    case EUnlock => 10 case FUnlock => 9
    case Exited | Unanswered => 0
  }

  function ManagerWorth(g: Manager): int {
    ManagerRank(g.pc) + PENDING * |g.todo|
  }

  /** `n` workers, `m` managers. */
  function MasterRank(pc: MasterPc, n: nat, m: nat): nat {
    match pc
    case Accept => 0
    case Finishing(at) => (
      match at case AckUnlock2 => 1 case BroadcastA => 2 + 3 * n case SetAck => 3 + 3 * n case AckLock2 => 4 + 3 * n)
    case Resetting(r, at) =>
      (match r
       case ResetSpread => 5 + 3 * n case ResetFiles => 8 + 3 * n case ResetBytes => 11 + 3 * n
       case ResetQDone => 14 + 3 * n + (if at == ResetDrop then 0 else UNCOUNTED * n)
       case ResetDone => 17 + (3 + UNCOUNTED) * n
       case ResetEmpty => 20 + (3 + UNCOUNTED) * n
       case ResetFull => 23 + (3 + UNCOUNTED) * n)
      + (match at case ResetDrop => 0 case ResetWrite => 1 case ResetTake => 2)
    case Collecting(at) =>
      (match at
       case Send => 26 case QUnlock => 27 case QSleep => 28 case QWait => 29 case QTest => 30
       case QLock => 31 case QWoken => 31) + (3 + UNCOUNTED) * n
    case Closing(at) => (
      match at
      case DoneUnlock => 32 + (3 + UNCOUNTED) * n
      case BroadcastE => 33 + (6 + UNCOUNTED) * n
      case SetDone => 34 + (6 + UNCOUNTED) * n
      case DoneLock => 35 + (6 + UNCOUNTED) * n
      case AckUnlock => 36 + (6 + UNCOUNTED) * n
      case ClearAck => 37 + (6 + UNCOUNTED) * n
      case AckLock => 38 + (6 + UNCOUNTED) * n)
    case Join(k) => 39 + (6 + UNCOUNTED) * n + (if k < m then m - k else 0)
  }

  /** How many steps may be left in this session. */
  function Measure(s: State): int {
    if s.aborted then 0
    else 1 + Total(s.workers, WorkerWorth) + Total(s.managers, ManagerWorth) + QUEUED * |s.sh.q|
         + MasterRank(s.master, |s.workers|, |s.managers|)
  }

  lemma {:induction false} TotalNotNegative<A>(xs: seq<A>, f: A -> int)
    requires forall x :: f(x) >= 0
    ensures Total(xs, f) >= 0
  {
    if xs != [] { TotalNotNegative(xs[..|xs| - 1], f); }
  }

  lemma {:induction false} TotalGrows<A>(xs: seq<A>, ys: seq<A>, f: A -> int, d: int)
    requires |xs| == |ys| && forall i :: 0 <= i < |xs| ==> f(ys[i]) <= f(xs[i]) + d
    ensures Total(ys, f) <= Total(xs, f) + d * |xs|
  {
    if xs != [] {
      TotalGrows(xs[..|xs| - 1], ys[..|ys| - 1], f, d);
    }
  }

  lemma MeasureNotNegative(s: State)
    ensures Measure(s) >= 0 && (!s.aborted ==> Measure(s) > 0)
  {
    TotalNotNegative(s.workers, WorkerWorth);
    TotalNotNegative(s.managers, ManagerWorth);
  }

  // ---- A worker's step ----------------------------------------------------------------------------

  /** What a worker's own step costs: at least one, and three more where it may wake somebody. */
  ghost predicate Pays(w: Worker, sh: Shared, outcome: NetResult) {
    WorkerWorth(WorkerNext(w, sh, outcome)) + QUEUED * |WorkerShared(w, sh).q|
    + (if w.pc == Popping(SignalF) || w.pc == Telling(SignalQ) then 3 else 0)
    < WorkerWorth(w) + QUEUED * |sh.q|
  }

  lemma PaysInLoop(w: Worker, sh: Shared, outcome: NetResult)
    requires (w.pc.Waiting? && w.pc != Waiting(SleepE)) || (w.pc.Popping? && !(w.pc == Popping(Pop) && sh.q == []))
    ensures Pays(w, sh, outcome)
  {
  }

  lemma PaysFetching(w: Worker, sh: Shared, outcome: NetResult)
    requires w.pc.Fetching? && w.pc.fetch != Hung
    ensures Pays(w, sh, outcome)
  {
  }

  lemma PaysDone(w: Worker, sh: Shared, outcome: NetResult)
    requires (w.pc.Draining? && (w.item.Some? ==> Carrying(w.pc)))
          || (w.pc.Telling? && (w.counted ==> w.pc == Telling(SignalQ) || w.pc == Telling(UnlockQ)))
    ensures Pays(w, sh, outcome)
  {
  }

  lemma PaysAcking(w: Worker, sh: Shared, outcome: NetResult)
    requires w.pc.Acking? && w.pc != Acking(SleepA)
    ensures Pays(w, sh, outcome)
  {
  }

  lemma WorkerPays(w: Worker, master: MasterPc, sh: Shared, outcome: NetResult)
    requires WorkerOk(w, master, sh) && !WorkerCode(w.pc).Sleeping? && !(w.pc == Popping(Pop) && sh.q == [])
    ensures Pays(w, sh, outcome)
  {
    if w.pc.Waiting? || w.pc.Popping? {
      PaysInLoop(w, sh, outcome);
    } else if w.pc.Fetching? {
      PaysFetching(w, sh, outcome);
    } else if w.pc.Acking? {
      PaysAcking(w, sh, outcome);
    } else {
      PaysDone(w, sh, outcome);
    }
  }

  lemma SignalWorth(gs: seq<Manager>, pick: nat, hs: seq<Manager>)
    requires SignalManagers(gs, pick) == Some(hs)
    ensures Total(hs, ManagerWorth) <= Total(gs, ManagerWorth) + 3
  {
    if pick < |gs| && gs[pick].pc == FSleep {
      TotalUpdate(gs, ManagerWorth, pick, gs[pick].(pc := FWoken));
    }
  }

  lemma WorkerStepDescends(s: State, i: nat, pick: nat, outcome: NetResult, s': State)
    requires ProgressInv(s) && !s.aborted && i < |s.workers| && WorkerStep(s, i, pick, outcome) == Some(s')
    ensures Measure(s') < Measure(s)
  {
    MeasureNotNegative(s);
    if !s'.aborted {
      var w := s.workers[i];
      assert WorkerOk(w, s.master, s.sh);
      WorkerPays(w, s.master, s.sh, outcome);
      TotalUpdate(s.workers, WorkerWorth, i, WorkerNext(w, s.sh, outcome));
      if w.pc == Popping(SignalF) { SignalWorth(s.managers, pick, s'.managers); }
      hide ProgressInv, WorkerNext, WorkerShared, WorkerLog, WorkerCode, Blocked, LocksNext, WorkerWorth, ManagerWorth,
        WorkerOk, SignalManagers;
      assert |s'.workers| == |s.workers|;
    }
  }

  // ---- A manager's step -----------------------------------------------------------------------------

  lemma ManagerPays(g: Manager, sh: Shared)
    requires HasWork(g) && g.pc != FSleep && g.pc != Exited && g.pc != Unanswered
    ensures ManagerWorth(ManagerNext(g, sh)) + QUEUED * |ManagerShared(g, sh).q| + (if g.pc == SignalE then 3 else 0)
            < ManagerWorth(g) + QUEUED * |sh.q|
  {
  }

  lemma SignalWorkersWorth(ws: seq<Worker>, pick: nat, vs: seq<Worker>)
    requires SignalWorkers(ws, pick) == Some(vs)
    ensures |vs| == |ws| && Total(vs, WorkerWorth) <= Total(ws, WorkerWorth) + 3
  {
    if pick < |ws| && ws[pick].pc == Waiting(SleepE) {
      TotalUpdate(ws, WorkerWorth, pick, ws[pick].(pc := Waiting(WokenE)));
    }
  }

  lemma ManagerStepDescends(s: State, j: nat, pick: nat, s': State)
    requires ProgressInv(s) && !s.aborted && j < |s.managers| && ManagerStep(s, j, pick) == Some(s')
    ensures Measure(s') < Measure(s)
  {
    var g := s.managers[j];
    assert HasWork(g) && g.pc != FSleep && g.pc != Exited && g.pc != Unanswered;
    ManagerPays(g, s.sh);
    TotalUpdate(s.managers, ManagerWorth, j, ManagerNext(g, s.sh));
    if g.pc == SignalE { SignalWorkersWorth(s.workers, pick, s'.workers); }
    hide ProgressInv, ManagerNext, ManagerShared, ManagerLog, ManagerCode, Blocked, LocksNext, WorkerWorth,
      ManagerWorth, SignalWorkers;
    assert |s'.workers| == |s.workers| && |s'.managers| == |s.managers|;
  }

  // ---- The master's step ----------------------------------------------------------------------------

  /** What each worker may gain from the master's step. */
  function Gift(pc: MasterPc): nat {
    if pc == Closing(BroadcastE) || pc == Finishing(BroadcastA) then 3
    else if pc == Resetting(ResetQDone, ResetWrite) then UNCOUNTED
    else 0
  }

  lemma MasterGives(pc: MasterPc, w: Worker)
    ensures WorkerWorth(MasterTouch(pc, w)) <= WorkerWorth(w) + Gift(pc)
  {
  }

  lemma ClosingPays(at: ClosePc, n: nat, m: nat)
    ensures MasterRank(MasterGo(Closing(at), true), n, m) + Gift(Closing(at)) * n < MasterRank(Closing(at), n, m)
  {
  }

  lemma CollectingPays(at: CollectPc, more: bool, n: nat, m: nat)
    requires at != QSleep
    ensures MasterRank(MasterGo(Collecting(at), more), n, m) < MasterRank(Collecting(at), n, m)
  {
  }

  lemma ResettingPays(r: Resettable, at: ResetPc, n: nat, m: nat)
    ensures MasterRank(MasterGo(Resetting(r, at), true), n,
      m) + Gift(Resetting(r, at)) * n < MasterRank(Resetting(r, at), n, m)
  {
  }

  lemma FinishingPays(at: FinishPc, n: nat, m: nat)
    ensures MasterRank(MasterGo(Finishing(at), true), n, m) + Gift(Finishing(at)) * n < MasterRank(Finishing(at), n, m)
  {
  }

  lemma MasterPays(pc: MasterPc, more: bool, n: nat, m: nat)
    requires !MasterCode(pc).Sleeping? && !MasterCode(pc).Stop?
    ensures MasterRank(MasterGo(pc, more), n, m) + Gift(pc) * n < MasterRank(pc, n, m)
  {
    match pc
    case Closing(at) => ClosingPays(at, n, m); assert MasterGo(pc, more) == MasterGo(pc, true);
    case Collecting(at) => CollectingPays(at, more, n, m);
    case Resetting(r, at) => ResettingPays(r, at, n, m); assert MasterGo(pc, more) == MasterGo(pc, true);
    case Finishing(at) => FinishingPays(at, n, m); assert MasterGo(pc, more) == MasterGo(pc, true);
  }

  /** What the master's step gives the workers. */
  lemma MasterGivesAll(s: State)
    ensures Total(MasterWorkers(s.master, s.workers), WorkerWorth) <= Total(s.workers,
      WorkerWorth) + Gift(s.master) * |s.workers|
  {
    var vs := MasterWorkers(s.master, s.workers);
    forall i | 0 <= i < |s.workers| ensures WorkerWorth(vs[i]) <= WorkerWorth(s.workers[i]) + Gift(s.master) {
      MasterGives(s.master, s.workers[i]);
    }
    hide WorkerWorth, Gift, MasterTouch;
    TotalGrows(s.workers, vs, WorkerWorth, Gift(s.master));
  }

  lemma JoinDescends(s: State, s': State)
    requires !s.aborted && s.master.Join? && MasterStep(s) == Some(s')
    ensures Measure(s') < Measure(s)
  {
    MasterGivesAll(s);
    MasterEffect(s.master, s.sh);
    hide MasterShared, MasterLog, Blocked, LocksNext, WorkerWorth, ManagerWorth, MasterWorkers;
  }

  lemma MasterStepDescends(s: State, s': State)
    requires ProgressInv(s) && !s.aborted && MasterStep(s) == Some(s')
    ensures Measure(s') < Measure(s)
  {
    if s.master.Join? {
      JoinDescends(s, s');
    } else {
      MasterGivesAll(s);
      MasterEffect(s.master, s.sh);
      MasterPays(s.master, s.sh.qDone < |s.workers|, |s.workers|, |s.managers|);
      hide ProgressInv, MasterGo, MasterShared, MasterLog, MasterCode, MasterRank, Blocked, LocksNext, WorkerWorth,
        ManagerWorth, Gift, MasterWorkers;
    }
  }

  // ---- Runs -------------------------------------------------------------------------------------------

  /** An action inside a session: no new client. */
  predicate InSession(a: Action) {
    !a.NewSession?
  }

  predicate AllInSession(actions: seq<Action>) {
    forall k :: 0 <= k < |actions| ==> InSession(actions[k])
  }

  lemma HangDescends(s: State, j: nat, s': State)
    requires !s.aborted && HangManagerStep(s, j) == Some(s')
    ensures Measure(s') < Measure(s)
  {
    var g := s.managers[j];
    assert ManagerWorth(g.(pc := Unanswered)) < ManagerWorth(g);
    TotalUpdate(s.managers, ManagerWorth, j, g.(pc := Unanswered));
  }

  lemma StepDescends(s: State, a: Action, s': State)
    requires ProgressInv(s) && InSession(a) && !IsSpurious(a) && Step(s, a) == Some(s')
    ensures Measure(s') < Measure(s)
  {
    hide ProgressInv, Measure;
    match a
    case RunWorker(i, pick, outcome) => WorkerStepDescends(s, i, pick, outcome, s');
    case RunManager(j, pick) => ManagerStepDescends(s, j, pick, s');
    case RunMaster => MasterStepDescends(s, s');
    case HangManager(j) => HangDescends(s, j, s');
  }

  /** A spurious wakeup costs three steps. */
  lemma WakeupRaises(s: State, a: Action, s': State)
    requires IsSpurious(a) && Step(s, a) == Some(s')
    ensures Measure(s') == Measure(s) + 3
  {
    match a
    case SpuriousWorker(i) => WorkerWakeupRaises(s, i, s');
    case SpuriousManager(j) => ManagerWakeupRaises(s, j, s');
    case _ =>
  }

  lemma WorkerWakeupRaises(s: State, i: nat, s': State)
    requires Step(s, SpuriousWorker(i)) == Some(s')
    ensures Measure(s') == Measure(s) + 3
  {
    TotalUpdate(s.workers, WorkerWorth, i, s'.workers[i]);
    hide Total, MasterRank, ManagerWorth;
  }

  lemma ManagerWakeupRaises(s: State, j: nat, s': State)
    requires Step(s, SpuriousManager(j)) == Some(s')
    ensures Measure(s') == Measure(s) + 3
  {
    TotalUpdate(s.managers, ManagerWorth, j, s'.managers[j]);
    hide Total, MasterRank, WorkerWorth;
  }

  /** How many of the actions are spurious wakeups. */
  function Wakeups(actions: seq<Action>): nat {
    if actions == [] then 0
    else Wakeups(actions[..|actions| - 1]) + if IsSpurious(actions[|actions| - 1]) then 1 else 0
  }

  /**
   A run inside a session has at most as many steps as the measure it starts with, and four more
   for each spurious wakeup.
   */
  lemma {:induction false} RunsAreBounded(s: State, actions: seq<Action>, t: State)
    requires ProgressInv(s) && AllInSession(actions) && Exec(s, actions) == Some(t)
    ensures |actions| + Measure(t) <= Measure(s) + 4 * Wakeups(actions) && (t.aborted || ProgressInv(t))
  {
    hide ProgressInv, Measure, Step;
    if actions != [] {
      var most := actions[..|actions| - 1];
      var a := actions[|actions| - 1];
      var u := Exec(s, most).value;
      RunsAreBounded(s, most, u);
      LiveBeforeStep(u, a, t);
      if IsSpurious(a) { WakeupRaises(u, a, t); } else { StepDescends(u, a, t); }
      if !t.aborted { StepKeepsProgress(u, a, t); }
    }
  }

  lemma LiveBeforeStep(s: State, a: Action, t: State)
    requires Step(s, a) == Some(t)
    ensures !s.aborted
  {
  }
}
