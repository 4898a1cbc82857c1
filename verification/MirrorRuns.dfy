/**
 What holds on every run of the mirror server, for any number of workers, managers and sessions.
 */
module MirrorRuns {
  import opened Folds
  import opened MirrorModel
  import opened Threads
  import opened MirrorBarrier
  import opened MirrorFlags
  import opened MirrorProgress
  import opened MirrorTermination
  import opened MirrorLedger
  import opened MirrorStats
  import opened MirrorSolo

  // ---- Reports ------------------------------------------------------------------------------------

  /** The report that belongs to the files fetched, in whatever order they were. */
  function ReportOf(fetched: seq<int>): Report {
    MakeReport(|fetched|, Sum(fetched), fetched)
  }

  /**
   What a report says: how many files, how many bytes, the average rounded towards zero, and the
   squared distances from that average.
   */
  ghost predicate Describes(r: Report, sizes: seq<int>) {
    && r.files == |sizes| && r.bytes == Sum(sizes)
    && (sizes == [] ==> r.avg == 0)
    && (sizes != [] && r.bytes >= 0 ==> r.files * r.avg <= r.bytes < r.files * r.avg + r.files)
    && (sizes != [] && r.bytes < 0 ==> r.files * r.avg - r.files < r.bytes <= r.files * r.avg)
    && r.deviation == Total(sizes, (x: int) => (x - r.avg) * (x - r.avg))
  }

  lemma ReportSays(sizes: seq<int>)
    ensures Describes(ReportOf(sizes), sizes)
  {
    if sizes != [] { TruncateIs(Sum(sizes), |sizes|); }
    var avg := ReportOf(sizes).avg;
    assert ReportOf(sizes).deviation == Deviation(sizes, avg);
    TotalSame(sizes, sizes, (x: int) => (x - avg) * (x - avg));
  }

  lemma TruncateIs(a: int, b: int)
    requires b > 0
    ensures a >= 0 ==> b * Truncate(a, b) <= a < b * Truncate(a, b) + b
    ensures a < 0 ==> b * Truncate(a, b) - b < a <= b * Truncate(a, b)
  {
    if a < 0 { assert b * ((-a) / b) <= -a < b * ((-a) / b) + b; }
  }

  /** The report depends only on the multiset of sizes, not on the schedule that produced it. */
  lemma ReportIgnoresOrder(xs: seq<int>, ys: seq<int>)
    requires multiset(xs) == multiset(ys)
    ensures ReportOf(xs) == ReportOf(ys)
    ensures MakeReport(|xs|, Sum(xs), ys) == ReportOf(xs)
  {
    assert |xs| == |multiset(xs)| == |multiset(ys)| == |ys|;
    TotalPermutation(xs, ys, (x: int) => x);
    if |xs| != 0 {
      var avg := Truncate(Sum(xs), |xs|);
      TotalPermutation(xs, ys, (x: int) => (x - avg) * (x - avg));
    }
  }

  /** The report of this session has been sent. */
  predicate Sent(pc: MasterPc) {
    pc.Resetting? || pc.Finishing?
  }

  ghost predicate ReportInv(s: State) {
    (Sent(s.master) || (s.master == Accept && s.log.reports != [])) ==>
      s.log.reports != [] && s.log.reports[|s.log.reports| - 1] == ReportOf(s.log.fetched)
  }

  ghost predicate Inv(s: State) {
    ProgressInv(s) && LedgerInv(s) && StatsInv(s) && ReportInv(s)
  }

  /** When the master sends, the three statistics are exactly those of the files fetched. */
  lemma StatsAtSend(s: State)
    requires BarrierInv(s) && LedgerInv(s) && StatsInv(s) && s.master == Collecting(Send)
    ensures s.sh.files == |s.log.fetched| && s.sh.bytes == Sum(s.log.fetched)
    ensures multiset(s.sh.spread) == multiset(s.log.fetched)
  {
    forall i | 0 <= i < |s.workers| ensures !s.workers[i].pc.Fetching? { NoneFetching(s, i); }
    TotalZero(s.workers, OwedBytes);
    TotalZero(s.workers, OwedFiles);
    PoolEmpty(s.workers, OwedSpread);
  }

  lemma SendReports(s: State, s': State)
    requires Inv(s) && s.master == Collecting(Send) && MasterStep(s) == Some(s')
    ensures ReportInv(s')
  {
    StatsAtSend(s);
    ReportIgnoresOrder(s.log.fetched, s.sh.spread);
    hide ProgressInv, LedgerInv, StatsInv, ReportOf, MakeReport;
  }

  lemma SentMoves(pc: MasterPc, more: bool)
    requires !pc.Join?
    ensures Sent(MasterGo(pc, more)) || MasterGo(pc, more) == Accept ==>
      Sent(pc) || pc == Accept || pc == Collecting(Send)
  {
  }

  lemma MasterKeepsReport(s: State, s': State)
    requires Inv(s) && MasterStep(s) == Some(s')
    ensures ReportInv(s')
  {
    if s.master == Collecting(Send) {
      SendReports(s, s');
    } else {
      if !s.master.Join? { SentMoves(s.master, s.sh.qDone < |s.workers|); }
      hide ProgressInv, LedgerInv, StatsInv, ReportOf, MasterGo, MasterShared, MasterCode, Blocked, LocksNext;
    }
  }

  /** A step that sends nothing and fetches nothing keeps the last report in place. */
  lemma SameReport(s: State, s': State)
    requires ReportInv(s) && s'.log.reports == s.log.reports && s'.log.fetched == s.log.fetched
    requires Sent(s'.master) ==> Sent(s.master)
    requires s'.master == Accept ==> s.master == Accept
    ensures ReportInv(s')
  {
    hide ReportOf, Sent;
  }

  lemma NotYetSent(s: State)
    requires !Sent(s.master) && s.master != Accept
    ensures ReportInv(s)
  {
  }

  lemma QuietNoFetch(s: State, i: nat)
    requires Inv(s) && Quiet(s.master) && i < |s.workers|
    ensures !s.workers[i].pc.Fetching?
  {
    NoneFetching(s, i);
  }

  lemma WorkerKeepsReport(s: State, i: nat, pick: nat, outcome: NetResult, s': State)
    requires Inv(s) && i < |s.workers| && WorkerStep(s, i, pick, outcome) == Some(s') && !s'.aborted
    ensures ReportInv(s')
  {
    InvReport(s);
    FetchedMoves(s.workers[i], s.log, outcome);
    LogMoves(s.workers[i], s.log, outcome);
    if Quiet(s.master) { QuietNoFetch(s, i); }
    hide Inv, ReportInv, WorkerNext, WorkerShared, WorkerLog, WorkerCode, Blocked, LocksNext, SignalManagers;
    if Quiet(s.master) {
      SameReport(s, s');
    } else {
      NotYetSent(s');
    }
  }

  lemma InvReport(s: State)
    requires Inv(s)
    ensures ReportInv(s)
  {
  }

  lemma ManagerKeepsReport(s: State, j: nat, pick: nat, s': State)
    requires ReportInv(s) && j < |s.managers| && ManagerStep(s, j, pick) == Some(s')
    ensures ReportInv(s')
  {
    hide ManagerNext, ManagerShared, ManagerCode, Blocked, LocksNext, SignalWorkers, ReportInv;
    SameReport(s, s');
  }

  lemma OtherKeepsReport(s: State, a: Action, s': State)
    requires ReportInv(s) && (FromOutside(a) || a.NewSession?) && Step(s, a) == Some(s')
    ensures ReportInv(s')
  {
    if a.NewSession? {
      hide ReportOf;
    } else {
      hide ReportInv;
      SameReport(s, s');
    }
  }

  lemma StepKeepsReport(s: State, a: Action, s': State)
    requires Inv(s) && Step(s, a) == Some(s') && !s'.aborted
    ensures ReportInv(s')
  {
    InvReport(s);
    hide Inv, ReportInv, WorkerStep, ManagerStep, MasterStep;
    match a
    case RunWorker(i, pick, outcome) => WorkerKeepsReport(s, i, pick, outcome, s');
    case RunMaster => MasterKeepsReport(s, s');
    case RunManager(j, pick) => ManagerKeepsReport(s, j, pick, s');
    case _ => OtherKeepsReport(s, a, s');
  }

  // ---- Every reachable state ------------------------------------------------------------------------

  lemma InvInit(s: State, n: nat)
    requires Init(s, n)
    ensures Inv(s)
  {
    ProgressInit(s, n);
    LedgerInit(s, n);
    StatsInit(s, n);
  }

  /** Every step that does not abort keeps the invariant, and the number of workers. */
  lemma StepKeepsInv(s: State, a: Action, s': State)
    requires Inv(s) && Step(s, a) == Some(s') && !s'.aborted
    ensures Inv(s')
  {
    StepKeepsProgress(s, a, s');
    StepKeepsReport(s, a, s');
    hide ReportInv, Step;
    FromProgress(s);
    StepKeepsLedger(s, a, s');
    StepKeepsStats(s, a, s');
  }

  lemma FromProgress(s: State)
    requires ProgressInv(s)
    ensures FlagInv(s) && BarrierInv(s)
  {
  }

  lemma SameWorkers(s: State, a: Action, s': State)
    requires Step(s, a) == Some(s')
    ensures |s'.workers| == |s.workers|
  {
  }

  lemma {:induction false} InvOnRuns(s0: State, n: nat, actions: seq<Action>, s: State)
    requires Init(s0, n) && Exec(s0, actions) == Some(s)
    ensures !s.aborted ==> Inv(s) && |s.workers| == n
    ensures n == 1 ==> !s.aborted && SoloInv(s)
  {
    hide Inv, Step, SoloInv;
    if actions == [] {
      InvInit(s0, n);
      if n == 1 { SoloInit(s0); }
    } else {
      var most := actions[..|actions| - 1];
      var a := actions[|actions| - 1];
      var u := Exec(s0, most).value;
      InvOnRuns(s0, n, most, u);
      LiveBeforeStep(u, a, s);
      if !s.aborted {
        StepKeepsInv(u, a, s);
        SameWorkers(u, a, s);
      }
      if n == 1 {
        ProgressOf(u);
        StepKeepsSolo(u, a, s);
        StepKeepsInv(u, a, s);
        SameWorkers(u, a, s);
      }
    }
  }

  lemma ProgressOf(s: State)
    requires Inv(s)
    ensures ProgressInv(s)
  {
  }
}
