/** The workers drain, however many there are and whichever leases are recovered from under them: without new
    messages, operator retries or operator replies, every step of the bridge that changes anything lowers one natural
    number, and until everything is settled some step can be taken. */
module Drain {
  import opened Types
  import opened WorkspaceModel
  import opened QueueModel
  import opened DeliveryModel
  import opened WorkerModel
  import opened System
  import opened QueueInvariant
  import opened LinkInvariant
  import opened AnswerInvariant
  import opened AuditInvariant
  import opened Safety
  import opened Outcomes
  import Lease
  import opened Trace
  import Policy
  import ProtocolInvariant

  // -------------------------------------------------------------------- sums

  function Sum(ns: seq<nat>): nat {
    if ns == [] then 0 else Sum(ns[..|ns| - 1]) + ns[|ns| - 1]
  }

  lemma {:induction false} SumDrop(ns: seq<nat>, ms: seq<nat>, i: nat, k: nat)
    requires |ns| == |ms| && i < |ns| && ms[i] + k <= ns[i]
    requires forall j :: 0 <= j < |ns| && j != i ==> ms[j] <= ns[j]
    ensures Sum(ms) + k <= Sum(ns)
  {
    var n := |ns| - 1;
    if i == n {
      SumBelow(ns[..n], ms[..n]);
    } else {
      SumDrop(ns[..n], ms[..n], i, k);
    }
  }

  lemma {:induction false} SumBelow(ns: seq<nat>, ms: seq<nat>)
    requires |ns| == |ms| && forall j :: 0 <= j < |ns| ==> ms[j] <= ns[j]
    ensures Sum(ms) <= Sum(ns)
  {
    if ns != [] {
      SumBelow(ns[..|ns| - 1], ms[..|ns| - 1]);
    }
  }

  lemma {:induction false} SumSet(ns: seq<nat>, i: nat, v: nat)
    requires i < |ns|
    ensures Sum(ns[i := v]) + ns[i] == Sum(ns) + v
  {
    var n := |ns| - 1;
    if i == n {
      assert ns[i := v][..n] == ns[..n];
    } else {
      assert ns[i := v][..n] == ns[..n][i := v];
      SumSet(ns[..n], i, v);
    }
  }

  lemma SumMore(ns: seq<nat>, v: nat)
    ensures Sum(ns + [v]) == Sum(ns) + v
  {
    assert (ns + [v])[..|ns|] == ns;
  }

  // ----------------------------------------------------------------- measure

  /** More than a claim costs in all: its own steps, those of the delivery it may queue, and putting the job back. */
  const PASS: nat := 64

  /** What putting a job back in the queue costs. */
  const BACK: nat := 32

  /** What the attempts a job has left may still cost. */
  function Left(attempts: nat, max: nat): nat {
    if attempts < max then (max - attempts) * PASS else 0
  }

  function JobRank(row: Job, max: nat): nat {
    Left(row.attempts, max) +
    match row.state
    case Queued => BACK
    case Processing => 1 + (if row.attempts < max then BACK else 0)
    case _ => 0
  }

  function RowRank(row: Delivery): nat {
    match row.status
    case Waiting => 9
    case Sending => 1
    case _ => 0
  }

  function PcRank(p: Pc): nat {
    match p
    case Idle => 0
    case OnJob(_, _, stage) =>
      (match stage
       case Fetching => 25
       case Claimed => 24
       case Unanswered => 23
       case Asking(_) => 22
       case Answered(_, _) => 21
       case UpToDate(_, _) => 20
       case Deciding(_, _, _) => 19
       case Ready(_, _) => 6
       case Executing(_, _) => 5
       case Recording(_, _) => 4
       case Finishing(_) => 3
       case Overtaken => 3
       case Superseding(_) => 2
       case Failing => 2)
    case OnDelivery(_, _, leg) =>
      (match leg
       case Reloading => 5
       case Holding => 4
       case Denied(_) => 3
       case Cleared => 3
       case Confirmed => 2
       case Errored(_) => 2)
  }

  function JobRanks(jobs: seq<Job>, max: nat): seq<nat> {
    seq(|jobs|, i requires 0 <= i < |jobs| => JobRank(jobs[i], max))
  }

  function RowRanks(rows: seq<Delivery>): seq<nat> {
    seq(|rows|, i requires 0 <= i < |rows| => RowRank(rows[i]))
  }

  /** Whether this worker, once it fails, will still put its job back: it decides by the attempts it has read. */
  predicate CanPutBack(p: Pc, jobs: seq<Job>, max: nat) {
    p.OnJob? &&
    if p.stage.Fetching? then p.job < |jobs| && jobs[p.job].attempts < max else InTry(p) && p.attempts < max
  }

  /** A worker's own steps, and the put-back it may still make of a job that others have settled meanwhile. */
  function Weight(p: Pc, jobs: seq<Job>, max: nat): nat {
    PcRank(p) + (if CanPutBack(p, jobs, max) then BACK else 0)
  }

  function Weights(workers: seq<Pc>, jobs: seq<Job>, max: nat): seq<nat> {
    seq(|workers|, i requires 0 <= i < |workers| => Weight(workers[i], jobs, max))
  }

  function Outstanding(jobs: seq<Job>, rows: seq<Delivery>, workers: seq<Pc>, max: nat): nat {
    Sum(JobRanks(jobs, max)) + Sum(RowRanks(rows)) + Sum(Weights(workers, jobs, max))
  }

  function Measure(s: Sys): nat {
    Outstanding(s.db.jobs, s.db.deliveries, s.workers, s.cfg.maxAttempts)
  }

  /** No attempt has been taken back. */
  ghost predicate NoFewerAttempts(before: seq<Job>, after: seq<Job>) {
    |before| == |after| && forall i :: 0 <= i < |before| ==> before[i].attempts <= after[i].attempts
  }

  lemma WeightsBelow(workers: seq<Pc>, before: seq<Job>, after: seq<Job>, max: nat)
    requires NoFewerAttempts(before, after)
    ensures Sum(Weights(workers, after, max)) <= Sum(Weights(workers, before, max))
  {
    SumBelow(Weights(workers, before, max), Weights(workers, after, max));
  }

  lemma WeightsSet(workers: seq<Pc>, w: nat, p: Pc, before: seq<Job>, after: seq<Job>, max: nat)
    requires w < |workers| && NoFewerAttempts(before, after)
    ensures Sum(Weights(workers[w := p], after, max)) + Weight(workers[w], before, max)
         <= Sum(Weights(workers, before, max)) + Weight(p, after, max)
  {
    var ns := Weights(workers, before, max);
    SumSet(ns, w, Weight(p, after, max));
    SumBelow(ns[w := Weight(p, after, max)], Weights(workers[w := p], after, max));
  }

  /** A worker's step lowers the measure when what it writes weighs less than what was there. */
  lemma TurnLowers(s: Sys, w: nat, p: Pc, jobs: seq<Job>, rows: seq<Delivery>)
    requires w < |s.workers| && NoFewerAttempts(s.db.jobs, jobs)
    requires var max := s.cfg.maxAttempts;
      Sum(JobRanks(jobs, max)) + Sum(RowRanks(rows)) + Weight(p, jobs, max)
      < Sum(JobRanks(s.db.jobs, max)) + Sum(RowRanks(s.db.deliveries)) + Weight(s.workers[w], s.db.jobs, max)
    ensures Outstanding(jobs, rows, s.workers[w := p], s.cfg.maxAttempts) < Measure(s)
  {
    WeightsSet(s.workers, w, p, s.db.jobs, jobs, s.cfg.maxAttempts);
  }

  lemma JobsDrop(before: seq<Job>, after: seq<Job>, max: nat, i: nat, k: nat)
    requires |before| == |after| && i < |before| && JobRank(after[i], max) + k <= JobRank(before[i], max)
    requires forall j :: 0 <= j < |before| && j != i ==> JobRank(after[j], max) <= JobRank(before[j], max)
    ensures Sum(JobRanks(after, max)) + k <= Sum(JobRanks(before, max))
  {
    SumDrop(JobRanks(before, max), JobRanks(after, max), i, k);
  }

  lemma RowsDrop(before: seq<Delivery>, after: seq<Delivery>, i: nat, k: nat)
    requires |before| == |after| && i < |before| && RowRank(after[i]) + k <= RowRank(before[i])
    requires forall j :: 0 <= j < |before| && j != i ==> RowRank(after[j]) <= RowRank(before[j])
    ensures Sum(RowRanks(after)) + k <= Sum(RowRanks(before))
  {
    SumDrop(RowRanks(before), RowRanks(after), i, k);
  }

  lemma RowAdded(rows: seq<Delivery>, row: Delivery)
    ensures Sum(RowRanks(rows + [row])) == Sum(RowRanks(rows)) + RowRank(row)
  {
    assert RowRanks(rows + [row]) == RowRanks(rows) + [RowRank(row)];
    SumMore(RowRanks(rows), RowRank(row));
  }

  // -------------------------------------------------------------- decreasing

  /** A claim spends one attempt, which pays for its steps and for putting the job back later. */
  lemma ClaimPays(before: Job, after: Job, max: nat)
    requires before.state.Queued? && after.state.Processing? && after.attempts == before.attempts + 1
    ensures JobRank(after, max) + 25 + (if after.attempts < max then BACK else 0) < JobRank(before, max)
  {}

  lemma ClaimedRanks(s: Sys, w: nat, j: nat, now: nat, until: nat)
    requires JobInv(s.db) && ClaimsFrom(s.db, j, now)
    ensures Aligned(s.db)
    ensures var jobs, max := Claim(s.db, j, now, until, w).jobs, s.cfg.maxAttempts;
      && NoFewerAttempts(s.db.jobs, jobs)
      && jobs[j].attempts == s.db.jobs[j].attempts + 1
      && Sum(JobRanks(jobs, max)) + 25 + (if jobs[j].attempts < max then BACK else 0)
         < Sum(JobRanks(s.db.jobs, max))
  {
    hide Claim, JobRows, JobRank;
    JobInvAligned(s.db);
    ClaimRows(s.db, j, now, until, w);
    Lease.ClaimLength(s.db, j, now, until, w);
    var jobs, max := Claim(s.db, j, now, until, w).jobs, s.cfg.maxAttempts;
    forall i | 0 <= i < |jobs|
      ensures s.db.jobs[i].attempts <= jobs[i].attempts
      ensures i != j ==> JobRank(jobs[i], max) <= JobRank(s.db.jobs[i], max)
    {
      assert ClaimedRow(s.db.jobs[i], jobs[i], i, j, s.db.jobs[j].key, now, until, w);
      BatchedRank(s.db.jobs[i], jobs[i], max);
    }
    assert ClaimedRow(s.db.jobs[j], jobs[j], j, j, s.db.jobs[j].key, now, until, w);
    ClaimPays(s.db.jobs[j], jobs[j], max);
    JobsDrop(s.db.jobs, jobs, max, j, 26 + (if jobs[j].attempts < max then BACK else 0));
  }

  lemma BatchedRank(before: Job, after: Job, max: nat)
    requires after.attempts >= before.attempts
    ensures after == before || (after.attempts == before.attempts && after.state.Superseded?) ==>
      JobRank(after, max) <= JobRank(before, max)
  {}

  lemma ClaimLowers(s: Sys, w: nat, j: nat, now: nat, until: nat)
    requires JobInv(s.db) && w < |s.workers| && s.workers[w].Idle?
    requires ClaimsFrom(s.db, j, now)
    ensures Aligned(s.db)
    ensures var jobs := Claim(s.db, j, now, until, w).jobs;
      var workers := s.workers[w := OnJob(j, s.db.jobs[j].attempts + 1, Fetching)];
      Outstanding(jobs, s.db.deliveries, workers, s.cfg.maxAttempts) < Measure(s)
  {
    hide Claim, JobRows, JobRanks, RowRanks, IsNewest, Busy, Sum, Outstanding, Measure;
    ClaimedRanks(s, w, j, now, until);
    var jobs := Claim(s.db, j, now, until, w).jobs;
    TurnLowers(s, w, OnJob(j, s.db.jobs[j].attempts + 1, Fetching), jobs, s.db.deliveries);
  }

  /** A worker writes its job's row and lets go.  The row may have been anything by then; that it is put back in the
      queue is paid by the worker. */
  lemma ReleaseLowers(s: Sys, w: nat, row: Job)
    requires w < |s.workers| && s.workers[w].OnJob? && s.workers[w].job < |s.db.jobs|
    requires row.attempts == s.db.jobs[s.workers[w].job].attempts && !row.state.Processing?
    requires row.state.Queued? ==> InTry(s.workers[w]) && s.workers[w].attempts < s.cfg.maxAttempts
    ensures Outstanding(s.db.jobs[s.workers[w].job := row], s.db.deliveries, s.workers[w := Idle], s.cfg.maxAttempts)
            < Measure(s)
  {
    hide RowRanks, Sum, Outstanding, Measure;
    var j, max := s.workers[w].job, s.cfg.maxAttempts;
    var jobs := s.db.jobs[j := row];
    assert JobRanks(jobs, max) == JobRanks(s.db.jobs, max)[j := JobRank(row, max)];
    SumSet(JobRanks(s.db.jobs, max), j, JobRank(row, max));
    TurnLowers(s, w, Idle, jobs, s.db.deliveries);
  }

  lemma MoveLowers(s: Sys, w: nat, p: Pc)
    requires w < |s.workers|
    requires Weight(p, s.db.jobs, s.cfg.maxAttempts) < Weight(s.workers[w], s.db.jobs, s.cfg.maxAttempts)
    ensures Outstanding(s.db.jobs, s.db.deliveries, s.workers[w := p], s.cfg.maxAttempts) < Measure(s)
  {
    hide Weight, JobRanks, RowRanks, Sum, Outstanding, Measure;
    TurnLowers(s, w, p, s.db.jobs, s.db.deliveries);
  }

  lemma SettleLowers(s: Sys, w: nat, d: nat, row: Delivery)
    requires w < |s.workers| && PcRank(s.workers[w]) > 0 && d < |s.db.deliveries| && RowRank(row) == 0
    ensures Outstanding(s.db.jobs, s.db.deliveries[d := row], s.workers[w := Idle], s.cfg.maxAttempts) < Measure(s)
  {
    hide JobRanks, Sum, Outstanding, Measure;
    RowsDrop(s.db.deliveries, s.db.deliveries[d := row], d, 0);
    TurnLowers(s, w, Idle, s.db.jobs, s.db.deliveries[d := row]);
  }

  lemma TakeLowers(s: Sys, w: nat, d: nat, until: nat)
    requires w < |s.workers| && s.workers[w].Idle? && d < |s.db.deliveries| && s.db.deliveries[d].status.Waiting?
    ensures var p := OnDelivery(d, s.db.deliveries[d].attempts + 1, Reloading);
      Outstanding(s.db.jobs, ClaimDelivery(s.db, d, until, w).deliveries, s.workers[w := p], s.cfg.maxAttempts)
      < Measure(s)
  {
    hide JobRanks, Sum, Outstanding, Measure;
    var rows := ClaimDelivery(s.db, d, until, w).deliveries;
    RowsDrop(s.db.deliveries, rows, d, 8);
    TurnLowers(s, w, OnDelivery(d, s.db.deliveries[d].attempts + 1, Reloading), s.db.jobs, rows);
  }

  lemma DecideLowers(s: Sys, w: nat, f: Policy.Facts, now: nat)
    requires LinkInv(s.db) && Aligned(s.db) && CanAct(s, w, CommitAnswer(f, now))
    ensures Measure(Acted(s, w, CommitAnswer(f, now))) < Measure(s)
  {
    hide LinkInv, CommitDecision, PolicyOutcome, Queues, JobRanks, RowRanks, Sum, Outstanding;
    var p, db := s.workers[w], s.db;
    var outcome := PolicyOutcome(db, p, f);
    var s' := Acted(s, w, CommitAnswer(f, now));
    if CommitDecision(db, s.cfg, p.job, p.stage.decision, outcome, p.stage.mode, now).Some? {
      CommitDeliveries(db, s.cfg, p.job, p.stage.decision, outcome, p.stage.mode, now);
      var rows := s'.db.deliveries;
      if |rows| > |db.deliveries| {
        assert rows == db.deliveries + [rows[|db.deliveries|]];
        RowAdded(db.deliveries, rows[|db.deliveries|]);
      }
    }
    TurnLowers(s, w, s'.workers[w], s'.db.jobs, s'.db.deliveries);
  }

  lemma ActLowers(s: Sys, w: nat, a: Act)
    requires JobInv(s.db) && LinkInv(s.db) && CanAct(s, w, a)
    ensures Measure(Acted(s, w, a)) < Measure(s)
  {
    hide Measure, JobRows, LinkInv, CanAct, Acted;
    JobInvAligned(s.db);
    if a.ClaimJob? || a.TakeDelivery? {
      StartLowers(s, w, a);
    } else if a.CommitAnswer? {
      DecideLowers(s, w, a.facts, a.now);
    } else if a.FinishJob? || a.CommitSupersede? || a.GiveUp? {
      LetGoLowers(s, w, a);
    } else if Settles(a) {
      SettlingLowers(s, w, a);
    } else {
      OtherLowers(s, w, a);
    }
  }

  lemma StartLowers(s: Sys, w: nat, a: Act)
    requires JobInv(s.db) && Aligned(s.db) && CanAct(s, w, a) && (a.ClaimJob? || a.TakeDelivery?)
    ensures Measure(Acted(s, w, a)) < Measure(s)
  {
    hide Outstanding, JobRows, Claim, ClaimDelivery;
    match a
    case ClaimJob(oldest, newest, now, until) =>
      ClaimLowers(s, w, newest, now, until);
      ClaimRest(s.db, newest, now, until, w);
    case TakeDelivery(next, now, until) =>
      TakeLowers(s, w, next, until);
      ClaimDeliveryRest(s.db, next, until, w);
  }

  lemma LetGoLowers(s: Sys, w: nat, a: Act)
    requires Aligned(s.db) && CanAct(s, w, a) && (a.FinishJob? || a.CommitSupersede? || a.GiveUp?)
    ensures Measure(Acted(s, w, a)) < Measure(s)
  {
    hide Outstanding, Backoff;
    var p, db := s.workers[w], s.db;
    match a
    case FinishJob => ReleaseLowers(s, w, Complete(db, p.job).jobs[p.job]);
    case CommitSupersede => ReleaseLowers(s, w, Supersede(db, p.job, p.stage.successor).jobs[p.job]);
    case GiveUp(now) => ReleaseLowers(s, w, Fail(db, p.job, p.attempts, s.cfg.maxAttempts, now).jobs[p.job]);
  }

  predicate Settles(a: Act) {
    a.Withhold? || a.RecordSent? || a.RecordError?
  }

  lemma SettlingLowers(s: Sys, w: nat, a: Act)
    requires Aligned(s.db) && CanAct(s, w, a) && Settles(a)
    ensures Measure(Acted(s, w, a)) < Measure(s)
  {
    hide Outstanding, Suppress, FinishSent, FinishError;
    var p, db := s.workers[w], s.db;
    match a
    case Withhold =>
      if Suppress(db, p.delivery).Some? {
        SettleLowers(s, w, p.delivery, Settled(db.deliveries[p.delivery], Withheld));
      } else {
        MoveLowers(s, w, Idle);
      }
    case RecordSent =>
      if FinishSent(db, p.delivery, p.attempt).Some? {
        SettleLowers(s, w, p.delivery, Settled(db.deliveries[p.delivery], Sent));
      } else {
        MoveLowers(s, w, Idle);
      }
    case RecordError =>
      if FinishError(db, p.delivery, p.attempt, p.leg.ambiguous).Some? {
        SettleLowers(s, w, p.delivery, Settled(db.deliveries[p.delivery], if p.leg.ambiguous then Unknown else Failed));
      } else {
        MoveLowers(s, w, Idle);
      }
  }

  lemma ClaimRest(db: Db, j: nat, now: nat, until: nat, w: nat)
    requires Aligned(db) && j < |db.jobs|
    ensures Claim(db, j, now, until, w).deliveries == db.deliveries
  {}

  lemma ClaimDeliveryRest(db: Db, d: nat, until: nat, w: nat)
    requires d < |db.deliveries|
    ensures ClaimDelivery(db, d, until, w).jobs == db.jobs
  {}

  predicate JustMoves(a: Act) {
    || a.FetchJob? || a.FetchDelivery? || a.LookUp? || a.ReadContext? || a.Answer? || a.CheckNewer? || a.ReadMode?
    || a.StartExecution? || a.Inspect?
    || a.Record? || a.FindSuccessor? || a.Crash? || a.CheckPermission? || a.Send?
  }

  /** Fewer steps to go, and no put-back that was not there before. */
  predicate Lighter(s: Sys, after: Pc, before: Pc) {
    && PcRank(after) < PcRank(before)
    && (CanPutBack(after, s.db.jobs, s.cfg.maxAttempts) ==> CanPutBack(before, s.db.jobs, s.cfg.maxAttempts))
  }

  lemma OtherRanks(s: Sys, w: nat, a: Act)
    requires Aligned(s.db) && CanAct(s, w, a) && JustMoves(a)
    ensures Lighter(s, PcAfter(s, w, a), s.workers[w])
    ensures DbAfter(s, w, a).jobs == s.db.jobs && DbAfter(s, w, a).deliveries == s.db.deliveries
  {
    hide PermissionReason, Find, Lighter, DbAfter;
    if a.FetchDelivery? || a.CheckPermission? || a.Send? {
      LegRanks(s, w, a);
    } else {
      StageRanks(s, w, a);
    }
  }

  lemma StageRanks(s: Sys, w: nat, a: Act)
    requires Aligned(s.db) && CanAct(s, w, a) && JustMoves(a) && !a.FetchDelivery? && !a.CheckPermission? && !a.Send?
    ensures Lighter(s, PcAfter(s, w, a), s.workers[w])
    ensures DbAfter(s, w, a).jobs == s.db.jobs && DbAfter(s, w, a).deliveries == s.db.deliveries
  {
    hide CanAct, DbAfter, PcAfter, Lighter;
    if a.StartExecution? || a.Inspect? || a.Record? {
      ActionRanks(s, w, a);
    } else if a.FindSuccessor? || a.Crash? {
      LateRanks(s, w, a);
    } else {
      EarlyRanks(s, w, a);
    }
  }

  lemma EarlyRanks(s: Sys, w: nat, a: Act)
    requires Aligned(s.db) && CanAct(s, w, a)
    requires a.FetchJob? || a.LookUp? || a.ReadContext? || a.Answer? || a.CheckNewer? || a.ReadMode?
    ensures Lighter(s, PcAfter(s, w, a), s.workers[w]) && DbAfter(s, w, a) == s.db
  {
    hide IsFirstAction;
  }

  lemma ActionRanks(s: Sys, w: nat, a: Act)
    requires Aligned(s.db) && CanAct(s, w, a) && (a.StartExecution? || a.Inspect? || a.Record?)
    ensures Lighter(s, PcAfter(s, w, a), s.workers[w])
    ensures DbAfter(s, w, a).jobs == s.db.jobs && DbAfter(s, w, a).deliveries == s.db.deliveries
  {
    hide Find;
  }

  lemma LateRanks(s: Sys, w: nat, a: Act)
    requires Aligned(s.db) && CanAct(s, w, a) && (a.FindSuccessor? || a.Crash?)
    ensures Lighter(s, PcAfter(s, w, a), s.workers[w]) && DbAfter(s, w, a) == s.db
  {}

  lemma LegRanks(s: Sys, w: nat, a: Act)
    requires Aligned(s.db) && CanAct(s, w, a) && (a.FetchDelivery? || a.CheckPermission? || a.Send?)
    ensures Lighter(s, PcAfter(s, w, a), s.workers[w]) && DbAfter(s, w, a) == s.db
  {
    hide PermissionReason;
  }

  lemma OtherLowers(s: Sys, w: nat, a: Act)
    requires Aligned(s.db) && CanAct(s, w, a) && JustMoves(a)
    ensures Measure(Acted(s, w, a)) < Measure(s)
  {
    hide Outstanding, DbAfter, PcAfter;
    OtherRanks(s, w, a);
    MoveLowers(s, w, PcAfter(s, w, a));
  }

  lemma RecoveredRank(a: Job, max: nat, now: nat)
    requires a.state.Processing? && a.lease.Some? && a.lease.value <= now
    ensures var b := a.(state := if a.attempts >= max then DeadLetter else Queued, availableAt := now, lease := None,
                        worker := None);
      JobRank(b, max) + 1 <= JobRank(a, max)
  {}

  lemma RecoverJobsLowers(s: Sys, now: nat)
    requires JobInv(s.db)
    ensures Aligned(s.db)
    ensures var s' := s.(db := RecoverStale(s.db, s.cfg.maxAttempts, now)); s' == s || Measure(s') < Measure(s)
  {
    hide JobRows, JobRank, RecoverWrite, Sum, Weights, RowRanks;
    JobInvAligned(s.db);
    var max := s.cfg.maxAttempts;
    RecoverRows(s.db, max, now);
    Lease.RecoverLength(s.db, max, now);
    var jobs := RecoverStale(s.db, max, now).jobs;
    forall i | 0 <= i < |jobs|
      ensures s.db.jobs[i].attempts <= jobs[i].attempts
      ensures JobRank(jobs[i], max) + (if Stale(s.db.jobs[i], now) then 1 else 0) <= JobRank(s.db.jobs[i], max)
    {
      if Stale(s.db.jobs[i], now) { RecoveredRank(s.db.jobs[i], max, now); }
    }
    var ids := StaleJobs(s.db.jobs, now, |s.db.jobs|);
    if ids == [] {
      assert RecoverWrites(s.db.jobs, ids, max, now) == [];
      assert s.(db := s.db) == s;
    } else {
      JobsDrop(s.db.jobs, jobs, max, ids[0], 1);
      WeightsBelow(s.workers, s.db.jobs, jobs, max);
    }
  }

  lemma RecoverSendsLowers(s: Sys, now: nat)
    ensures var s' := s.(db := RecoverDeliveries(s.db, now)); s' == s || Measure(s') < Measure(s)
  {
    var rows, after := s.db.deliveries, RecoverDeliveries(s.db, now).deliveries;
    forall i | 0 <= i < |rows|
      ensures RowRank(after[i]) + (if Expired(rows[i], now) then 1 else 0) <= RowRank(rows[i])
    {
      RecoverRow(s.db, now, i);
    }
    var ids := ExpiredDeliveries(rows, now, |rows|);
    if ids == [] {
      assert s.(db := s.db) == s;
    } else {
      RowsDrop(rows, after, ids[0], 1);
    }
  }

  /** The steps that the bridge takes by itself. */
  predicate Internal(step: Step) {
    step.Work? || step.RecoverJobs? || step.RecoverSends?
  }

  /** The steps that bring in new work: messages, retries of dead letters and operator replies. */
  predicate BringsWork(step: Step) {
    step.Ingest? || step.Post? || (step.Operate? && (step.op.RetryJob? || step.op.Reply?))
  }

  /** Every step of the bridge itself, whatever the other workers have done meanwhile, changes nothing or lowers the
      measure. */
  lemma InternalLowers(s: Sys, step: Step)
    requires Inv(s) && Enabled(s, step) && Internal(step)
    ensures Next(s, step) == s || Measure(Next(s, step)) < Measure(s)
  {
    hide ConvInv, JobRows, LinkInv, DraftInv, AnswerInv, AuditInv, PcInv, Protocol, CallsAsWritten, Acted,
      RecoverDeliveries, RecoverStale, Measure;
    match step
    case RecoverJobs(now) => RecoverJobsLowers(s, now);
    case RecoverSends(now) => RecoverSendsLowers(s, now);
    case Work(w, a) => ActLowers(s, w, a);
    case _ =>
  }

  lemma OperationNoHigher(s: Sys, op: Operation)
    requires Aligned(s.db) && CanOperate(op) && !op.RetryJob? && !op.Reply?
    ensures Measure(s.(db := Operated(s.db, op))) <= Measure(s)
  {
    hide Outstanding, TransitionReview, EditReview, SetBotPaused, SetConversationStatus, Dismiss;
    if op.DismissJob? && Dismiss(s.db, op.job).Some? {
      DismissRank(s.db, op.job, s.cfg.maxAttempts);
      SameRanks(s, Operated(s.db, op));
    }
  }

  lemma DismissRank(db: Db, j: nat, max: nat)
    requires Aligned(db) && Dismiss(db, j).Some?
    ensures var after := Dismiss(db, j).value;
      JobRanks(after.jobs, max) == JobRanks(db.jobs, max) && NoFewerAttempts(db.jobs, after.jobs)
  {}

  lemma SameRanks(s: Sys, db: Db)
    requires db.deliveries == s.db.deliveries && NoFewerAttempts(s.db.jobs, db.jobs)
    requires JobRanks(db.jobs, s.cfg.maxAttempts) == JobRanks(s.db.jobs, s.cfg.maxAttempts)
    ensures Measure(s.(db := db)) <= Measure(s)
  {
    WeightsBelow(s.workers, s.db.jobs, db.jobs, s.cfg.maxAttempts);
  }

  lemma StepNoHigher(s: Sys, step: Step)
    requires Inv(s) && Enabled(s, step) && !BringsWork(step)
    ensures Measure(Next(s, step)) <= Measure(s)
    ensures Internal(step) && Next(s, step) != s ==> Measure(Next(s, step)) < Measure(s)
  {
    hide Inv, Acted, RecoverDeliveries, RecoverStale, Operated, Measure;
    if Internal(step) {
      InternalLowers(s, step);
    } else {
      OperationNoHigher(s, step.op);
    }
  }

  /** How many of the steps from `i` up to `k` the bridge took by itself and changed something with. */
  ghost function Productive(ss: seq<Sys>, steps: seq<Step>, i: nat, k: nat): nat
    requires i <= k < |ss| && |ss| == |steps| + 1
  {
    if i == k then 0
    else Productive(ss, steps, i, k - 1) + (if Internal(steps[k - 1]) && ss[k] != ss[k - 1] then 1 else 0)
  }

  /** Drain: between arrivals of new work, the workers take at most `Measure` productive steps. */
  lemma {:induction false} WorkersDrain(ss: seq<Sys>, steps: seq<Step>, i: nat, k: nat)
    requires IsRun(ss, steps) && i <= k < |ss|
    requires forall m :: i <= m < k ==> !BringsWork(steps[m])
    ensures Productive(ss, steps, i, k) + Measure(ss[k]) <= Measure(ss[i])
  {
    hide Inv, Measure, Next;
    if i < k {
      WorkersDrain(ss, steps, i, k - 1);
      RunsAreSafe(ss, steps, k - 1);
      assert Enabled(ss[k - 1], steps[k - 1]) && ss[k - 1 + 1] == Next(ss[k - 1], steps[k - 1]);
      StepNoHigher(ss[k - 1], steps[k - 1]);
    }
  }

  // ---------------------------------------------------------------- progress

  /** Something is still on its way. */
  ghost predicate Pending(db: Db) {
    || (exists j :: 0 <= j < |db.jobs| && (db.jobs[j].state.Queued? || db.jobs[j].state.Processing?))
    || (exists d :: 0 <= d < |db.deliveries| && (db.deliveries[d].status.Waiting? || db.deliveries[d].status.Sending?))
  }

  /** The next thing a worker in the middle of something does, short of crashing or failing. */
  ghost function NextAct(s: Sys, p: Pc): Act
    requires !p.Idle?
  {
    match p
    case OnJob(j, _, stage) =>
      (match stage
       case Fetching => FetchJob
       case Claimed => LookUp(FindFirst(s.db.actions, j))
       case Unanswered => ReadContext
       case Asking(_) =>
         Act.Answer(Decision(Policy.HumanRequired, "", "ca", Policy.OtherReason, [], false, "deterministic"))
       case Answered(_, _) => CheckNewer
       case UpToDate(_, _) => ReadMode
       case Deciding(_, _, _) => CommitAnswer(Policy.Facts(false, false, false, false, false), 0)
       case Ready(_, _) => StartExecution
       case Executing(_, _) => Inspect
       case Recording(_, _) => Record
       case Finishing(_) => FinishJob
       case Overtaken => FindSuccessor
       case Superseding(_) => CommitSupersede
       case Failing => GiveUp(0))
    case OnDelivery(_, _, leg) =>
      (match leg
       case Reloading => FetchDelivery
       case Holding => CheckPermission
       case Denied(_) => Withhold
       case Cleared => Send(MessageId)
       case Confirmed => RecordSent
       case Errored(_) => RecordError)
  }

  lemma BusyCanAct(s: Sys, w: nat)
    requires Inv(s) && w < |s.workers| && !s.workers[w].Idle?
    ensures Aligned(s.db) && CanAct(s, w, NextAct(s, s.workers[w]))
  {
    hide JobRows, DraftInv, AnswerInv, DoneInv, AuditInv, ProtocolInvariant.ProtocolInv, CallsAsWritten;
    JobInvAligned(s.db);
    var p := s.workers[w];
    assert PcOk(s.db.events, s.db.actions, p);
    HolderRow(s, w);
  }

  lemma IdleCanClaim(s: Sys, j: nat)
    requires Aligned(s.db) && |s.workers| > 0 && s.workers[0].Idle? && j < |s.db.jobs| && s.db.jobs[j].state.Queued?
    requires forall r :: 0 <= r < |s.db.jobs| ==> !s.db.jobs[r].state.Processing?
    ensures exists oldest: nat, newest: nat :: CanAct(s, 0, ClaimJob(oldest, newest, s.db.jobs[j].availableAt, 0))
  {
    var jobs, now := s.db.jobs, s.db.jobs[j].availableAt;
    var oldest := FindOldest(jobs, now, |jobs|);
    assert Claimable(jobs, j, now);
    var newest := FindNewest(jobs, jobs[oldest.value].key, now, |jobs|);
    assert DueIn(jobs, jobs[oldest.value].key, now, oldest.value);
    assert CanAct(s, 0, ClaimJob(oldest.value, newest.value, now, 0));
  }

  /** Whether the bridge can take this step by itself and change something. */
  ghost predicate CanAdvance(s: Sys, step: Step) {
    Internal(step) && Enabled(s, step) && Next(s, step) != s
  }

  lemma WorkAdvances(s: Sys, w: nat, a: Act)
    requires Inv(s) && Aligned(s.db) && CanAct(s, w, a)
    ensures CanAdvance(s, Work(w, a))
  {
    hide ConvInv, JobRows, DraftInv, AnswerInv, DoneInv, AuditInv, PcInv, Protocol, CallsAsWritten, Acted,
      CanAct, Measure, LinkInv;
    ActLowers(s, w, a);
  }

  lemma StaleAdvances(s: Sys, j: nat)
    requires Inv(s) && j < |s.db.jobs| && s.db.jobs[j].state.Processing?
    requires forall w :: 0 <= w < |s.workers| ==> s.workers[w].Idle?
    ensures exists now: nat :: CanAdvance(s, RecoverJobs(now))
  {
    hide ConvInv, DraftInv, AnswerInv, DoneInv, AuditInv, PcInv, Protocol, CallsAsWritten, LinkInv,
      RecoverStale;
    assert JobOk(s.db.jobs[j], s.db.status[j]);
    var now := s.db.jobs[j].lease.value;
    RecoverRows(s.db, s.cfg.maxAttempts, now);
    Lease.RecoverLength(s.db, s.cfg.maxAttempts, now);
    assert RecoverStale(s.db, s.cfg.maxAttempts, now).jobs[j] != s.db.jobs[j];
    assert CanAdvance(s, RecoverJobs(now));
  }

  lemma ExpiredAdvances(s: Sys, d: nat)
    requires Inv(s) && d < |s.db.deliveries| && s.db.deliveries[d].status.Sending?
    ensures exists now: nat :: CanAdvance(s, RecoverSends(now))
  {
    hide ConvInv, JobRows, DraftInv, AnswerInv, DoneInv, AuditInv, PcInv, CallsAsWritten, LinkInv, RecoverDeliveries;
    JobInvAligned(s.db);
    var q := ProtocolInvariant.ProtocolOf(s);
    assert ProtocolInvariant.StatusTrue(q.rows[d], ProtocolInvariant.Recorded(q.attempts, d),
                                        ProtocolInvariant.Called(q.sends, d), d in q.accepted);
    var now := s.db.deliveries[d].lease.value;
    RecoverRow(s.db, now, d);
    assert RecoverDeliveries(s.db, now).deliveries[d] != s.db.deliveries[d];
    assert CanAdvance(s, RecoverSends(now));
  }

  /** Nothing is on its way and no worker is in the middle of anything. */
  ghost predicate Quiet(s: Sys) {
    !Pending(s.db) && forall w :: 0 <= w < |s.workers| ==> s.workers[w].Idle?
  }

  /** No deadlock: until all is quiet, the bridge can advance by itself at some time of day. */
  lemma CanAlwaysAdvance(s: Sys)
    requires Inv(s) && |s.workers| > 0 && !Quiet(s)
    ensures exists step :: CanAdvance(s, step)
  {
    hide Inv, CanAct, CanAdvance;
    if w :| 0 <= w < |s.workers| && !s.workers[w].Idle? {
      BusyCanAct(s, w);
      WorkAdvances(s, w, NextAct(s, s.workers[w]));
    } else if j :| 0 <= j < |s.db.jobs| && s.db.jobs[j].state.Processing? {
      StaleAdvances(s, j);
    } else if j :| 0 <= j < |s.db.jobs| && s.db.jobs[j].state.Queued? {
      assert Aligned(s.db) by { InvAligned(s); }
      IdleCanClaim(s, j);
      var oldest: nat, newest: nat :| CanAct(s, 0, ClaimJob(oldest, newest, s.db.jobs[j].availableAt, 0));
      WorkAdvances(s, 0, ClaimJob(oldest, newest, s.db.jobs[j].availableAt, 0));
    } else if d :| 0 <= d < |s.db.deliveries| && s.db.deliveries[d].status.Sending? {
      ExpiredAdvances(s, d);
    } else {
      var d :| 0 <= d < |s.db.deliveries| && s.db.deliveries[d].status.Waiting?;
      assert Aligned(s.db) by { InvAligned(s); }
      IdleCanTake(s, d);
      var next: nat :| CanAct(s, 0, TakeDelivery(next, s.db.deliveries[d].availableAt, 0));
      WorkAdvances(s, 0, TakeDelivery(next, s.db.deliveries[d].availableAt, 0));
    }
  }

  lemma {:induction false} NoneInProgress(jobs: seq<Job>, now: nat, n: nat)
    requires n <= |jobs| && forall j :: 0 <= j < |jobs| ==> !jobs[j].state.Processing?
    ensures StaleJobs(jobs, now, n) == []
  {
    if n > 0 {
      NoneInProgress(jobs, now, n - 1);
    }
  }

  lemma {:induction false} NoneInFlight(rows: seq<Delivery>, now: nat, n: nat)
    requires n <= |rows| && forall d :: 0 <= d < |rows| ==> !rows[d].status.Sending?
    ensures ExpiredDeliveries(rows, now, n) == []
  {
    if n > 0 {
      NoneInFlight(rows, now, n - 1);
    }
  }

  /** And once all is quiet, nothing that the bridge does by itself changes anything. */
  lemma QuietStays(s: Sys, step: Step)
    requires Inv(s) && Quiet(s)
    ensures !CanAdvance(s, step)
  {
    hide ConvInv, LinkInv, DraftInv, AnswerInv, DoneInv, AuditInv, PcInv, Protocol, CallsAsWritten, JobRows;
    if Internal(step) && Enabled(s, step) {
      match step
      case RecoverJobs(now) =>
        var ids := StaleJobs(s.db.jobs, now, |s.db.jobs|);
        NoneInProgress(s.db.jobs, now, |s.db.jobs|);
        assert RecoverWrites(s.db.jobs, ids, s.cfg.maxAttempts, now) == [];
        assert s.(db := s.db) == s;
      case RecoverSends(now) =>
        NoneInFlight(s.db.deliveries, now, |s.db.deliveries|);
        assert s.(db := s.db) == s;
      case Work(w, a) => assert s.workers[w].Idle?;
    }
  }

  /** The bridge has a step of its own left exactly until all is quiet. */
  lemma QuietExactly(s: Sys)
    requires Inv(s) && |s.workers| > 0
    ensures (exists step :: CanAdvance(s, step)) <==> !Quiet(s)
  {
    hide Inv, CanAdvance, Quiet;
    if !Quiet(s) {
      CanAlwaysAdvance(s);
    } else if step :| CanAdvance(s, step) {
      QuietStays(s, step);
    }
  }

  /** Every step of this stretch is one that the bridge takes by itself and changes something with. */
  ghost predicate AllAdvance(s: Sys, steps: seq<Step>) {
    forall i :: 0 <= i < |steps| ==>
      After(s, steps[..i]).Some? && CanAdvance(After(s, steps[..i]).value, steps[i])
  }

  lemma AdvancesFirst(s: Sys, step: Step, rest: seq<Step>)
    requires CanAdvance(s, step) && AllAdvance(Next(s, step), rest)
    ensures AllAdvance(s, [step] + rest)
  {
    hide After, Next;
    var steps := [step] + rest;
    assert steps[..0] == [] && After(s, []) == Some(s) by { Begin(s); }
    forall i | 0 <= i < |steps|
      ensures After(s, steps[..i]).Some? && CanAdvance(After(s, steps[..i]).value, steps[i])
    {
      if i > 0 {
        assert steps[..i] == [step] + rest[..i - 1];
        Prepend(s, step, rest[..i - 1]);
      }
    }
  }

  /** In whatever order the bridge takes steps of its own, from any safe state there are at most `Measure` of them, and
      when none is left all is quiet. */
  lemma {:induction false} EveryOrderDrains(s: Sys, steps: seq<Step>)
    requires Inv(s) && |s.workers| > 0 && AllAdvance(s, steps)
    ensures After(s, steps).Some? && Inv(After(s, steps).value) && |After(s, steps).value.workers| == |s.workers|
    ensures |steps| + Measure(After(s, steps).value) <= Measure(s)
    ensures (exists step :: CanAdvance(After(s, steps).value, step)) <==> !Quiet(After(s, steps).value)
  {
    hide Inv, Next, Quiet, Measure, After, CanAdvance, AllAdvance;
    if steps == [] {
      Begin(s);
    } else {
      var n := |steps| - 1;
      LastAdvance(s, steps);
      EveryOrderDrains(s, steps[..n]);
      var mid := After(s, steps[..n]).value;
      assert Internal(steps[n]) && Enabled(mid, steps[n]) && Next(mid, steps[n]) != mid by { IsAdvance(mid, steps[n]); }
      Extend(s, steps[..n], mid, steps[n]);
      assert steps[..n] + [steps[n]] == steps;
      InternalLowers(mid, steps[n]);
    }
    QuietExactly(After(s, steps).value);
  }

  lemma IsAdvance(s: Sys, step: Step)
    requires CanAdvance(s, step)
    ensures Internal(step) && Enabled(s, step) && Next(s, step) != s
  {}

  lemma LastAdvance(s: Sys, steps: seq<Step>)
    requires steps != [] && AllAdvance(s, steps)
    ensures var n := |steps| - 1;
      AllAdvance(s, steps[..n]) && After(s, steps[..n]).Some? && CanAdvance(After(s, steps[..n]).value, steps[n])
  {
    hide After, CanAdvance;
    var n := |steps| - 1;
    assert forall i :: 0 <= i < n ==> steps[..n][..i] == steps[..i];
  }

  /** The bridge can drain: from every safe state it reaches, by steps of its own, one where all is quiet. */
  lemma {:induction false} CanDrain(s: Sys) returns (steps: seq<Step>)
    requires Inv(s) && |s.workers| > 0
    ensures AllAdvance(s, steps) && After(s, steps).Some? && Quiet(After(s, steps).value)
    decreases Measure(s)
  {
    hide Inv, Next, Quiet, Measure, After, AllAdvance;
    if !Quiet(s) {
      CanAlwaysAdvance(s);
      var step :| CanAdvance(s, step);
      InternalLowers(s, step);
      StepKeepsInv(s, step);
      SameConfig(s, step);
      var rest := CanDrain(Next(s, step));
      Prepend(s, step, rest);
      AdvancesFirst(s, step, rest);
      steps := [step] + rest;
    } else {
      Begin(s);
      assert AllAdvance(s, []) by { NoStep(s); }
      steps := [];
    }
  }

  lemma NoStep(s: Sys)
    ensures AllAdvance(s, [])
  {}

  lemma IdleCanTake(s: Sys, d: nat)
    requires Aligned(s.db) && |s.workers| > 0 && s.workers[0].Idle?
    requires d < |s.db.deliveries| && s.db.deliveries[d].status.Waiting?
    ensures exists next: nat :: CanAct(s, 0, TakeDelivery(next, s.db.deliveries[d].availableAt, 0))
  {
    var next := FindNext(s.db.deliveries, s.db.deliveries[d].availableAt, 0);
    assert CanAct(s, 0, TakeDelivery(next.value, s.db.deliveries[d].availableAt, 0));
  }
}
