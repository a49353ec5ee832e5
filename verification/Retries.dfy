/** Exactly when retries are bounded: a worker that outlives its lease can put a job back after its last attempt. */
module Retries {
  import opened Types
  import opened WorkspaceModel
  import opened QueueModel
  import opened DeliveryModel
  import opened WorkerModel
  import opened System
  import opened QueueInvariant
  import opened LinkInvariant
  import opened AnswerInvariant
  import opened AuditInvariant
  import opened Safety
  import opened Trace
  import opened SendSteps
  import opened JobSteps
  import opened Lease
  import opened LateWorker

  // ---------------------------------------------------------------- one worker

  /** No job's count has passed the one that a worker on it was handed. */
  ghost predicate Counted(jobs: seq<Job>, workers: seq<Pc>) {
    forall w :: 0 <= w < |workers| && workers[w].OnJob? && workers[w].job < |jobs| ==>
      jobs[workers[w].job].attempts <= workers[w].attempts
  }

  ghost predicate BoundInv(s: Sys) {
    |s.workers| <= 1 && Bounded(s.db.jobs, s.cfg.maxAttempts) && Counted(s.db.jobs, s.workers)
  }

  /** New jobs and old ones are within bounds, and no old one counts more attempts than before. */
  ghost predicate Calm(before: seq<Job>, after: seq<Job>, max: nat) {
    && |before| <= |after| && Bounded(after, max)
    && forall j :: 0 <= j < |before| ==> after[j].attempts <= before[j].attempts
  }

  /** Then the worker's count still covers the job it is on. */
  lemma CalmKeeps(s: Sys, db: Db, workers: seq<Pc>)
    requires BoundInv(s) && PcInv(s) && Aligned(s.db) && Calm(s.db.jobs, db.jobs, s.cfg.maxAttempts)
    requires |workers| == |s.workers|
    requires forall w :: 0 <= w < |workers| && workers[w].OnJob? ==>
      s.workers[w].OnJob? && workers[w].job == s.workers[w].job
      && (workers[w].attempts == s.workers[w].attempts
          || (db.jobs == s.db.jobs && workers[w].job < |s.db.jobs|
              && workers[w].attempts == s.db.jobs[workers[w].job].attempts))
    ensures BoundInv(s.(db := db, workers := workers))
  {
    forall w | 0 <= w < |workers| && workers[w].OnJob? && workers[w].job < |db.jobs|
      ensures db.jobs[workers[w].job].attempts <= workers[w].attempts
    {
      assert PcOk(s.db.events, s.db.actions, s.workers[w]);
    }
  }

  lemma ArrivalIsCalm(before: seq<Job>, after: seq<Job>, max: nat)
    requires Arrived(before, after) && Bounded(before, max) && max >= 1
    ensures Calm(before, after, max)
  {
    forall j | 0 <= j < |after|
      ensures AttemptsOk(after[j], max)
    {
      if j < |before| {
        assert AttemptsOk(before[j], max);
      }
    }
  }

  lemma SameIsCalm(jobs: seq<Job>, max: nat)
    requires Bounded(jobs, max)
    ensures Calm(jobs, jobs, max)
  {}

  lemma PostIsCalm(db: Db, digest: string, msgs: seq<Inbound>, ignored: nat, now: nat, debounce: nat, max: nat)
    requires Bounded(db.jobs, max) && max >= 1
    ensures Calm(db.jobs, OrElse(Webhook(db, digest, msgs, ignored, now, debounce), db).jobs, max)
  {
    hide Webhook, EnqueueAll, Bounded, Calm, Arrived;
    SameIsCalm(db.jobs, max);
    PostJobs(db, digest, msgs, ignored, now, debounce);
    if EnqueueAll(db, msgs, now, debounce).Some? {
      EnqueueAllArrives(db, msgs, now, debounce);
      ArrivalIsCalm(db.jobs, EnqueueAll(db, msgs, now, debounce).value.db.jobs, max);
    }
  }

  /** A post leaves the jobs as they were, or as the enqueueing loop has made them. */
  lemma PostJobs(db: Db, digest: string, msgs: seq<Inbound>, ignored: nat, now: nat, debounce: nat)
    ensures var jobs, r := OrElse(Webhook(db, digest, msgs, ignored, now, debounce), db).jobs,
                           EnqueueAll(db, msgs, now, debounce);
      jobs == db.jobs || (r.Some? && jobs == r.value.db.jobs)
  {
    hide EnqueueAll, HasReceipt;
  }

  lemma RecoveryIsCalm(db: Db, max: nat, now: nat)
    requires JobInv(db) && Bounded(db.jobs, max)
    ensures Aligned(db) && Calm(db.jobs, RecoverStale(db, max, now).jobs, max)
  {
    hide JobRows;
    JobInvAligned(db);
    RecoverRows(db, max, now);
    RecoverLength(db, max, now);
    forall j | 0 <= j < |db.jobs|
      ensures AttemptsOk(RecoverStale(db, max, now).jobs[j], max)
    {
      assert AttemptsOk(db.jobs[j], max);
    }
  }

  lemma OperationIsCalm(db: Db, op: Operation, max: nat)
    requires Aligned(db) && CanOperate(op) && Bounded(db.jobs, max) && max >= 1
    ensures Calm(db.jobs, Operated(db, op).jobs, max)
  {
    hide CreateHumanReply, TransitionReview, EditReview, SetBotPaused, SetConversationStatus;
    SameIsCalm(db.jobs, max);
    match op
    case RetryJob(j, now) =>
    case DismissJob(j) =>
    case Edit(_, _) =>
    case Transition(_, _) =>
    case Reply(_, _, _) =>
    case _ =>
  }

  /** The claim raises the count of one job, and hands the raised count to its worker. */
  lemma ClaimKeepsBound(s: Sys, w: nat, oldest: nat, j: nat, now: nat, until: nat)
    requires BoundInv(s) && JobInv(s.db) && Aligned(s.db) && CanAct(s, w, ClaimJob(oldest, j, now, until))
    ensures BoundInv(Acted(s, w, ClaimJob(oldest, j, now, until)))
  {
    hide JobRows, Claim;
    ClaimWasFree(s.db, oldest, j, now);
    ClaimRows(s.db, j, now, until, w);
    ClaimLength(s.db, j, now, until, w);
    var jobs := Claim(s.db, j, now, until, w).jobs;
    forall i | 0 <= i < |jobs|
      ensures AttemptsOk(jobs[i], s.cfg.maxAttempts)
      ensures i == j ==> jobs[i].attempts == s.db.jobs[j].attempts + 1
    {
      assert ClaimedRow(s.db.jobs[i], jobs[i], i, j, s.db.jobs[j].key, now, until, w);
      assert AttemptsOk(s.db.jobs[i], s.cfg.maxAttempts);
    }
  }

  /** A worker that lets go of its job: what it fails goes back only below the limit it was handed. */
  lemma LeaveIsCalm(s: Sys, w: nat, a: Act)
    requires BoundInv(s) && Aligned(s.db) && CanAct(s, w, a) && WritesJob(a) && !a.ClaimJob?
    ensures w < |s.workers| && Calm(s.db.jobs, DbAfter(s, w, a).jobs, s.cfg.maxAttempts) && PcAfter(s, w, a).Idle?
  {
    var p := s.workers[w];
    assert s.db.jobs[p.job].attempts <= p.attempts;
  }

  lemma StillOnJob(s: Sys, w: nat, a: Act)
    requires Aligned(s.db) && CanAct(s, w, a) && !WritesJob(a)
    ensures w < |s.workers|
    ensures var p, q := s.workers[w], PcAfter(s, w, a);
      q.OnJob? ==>
        && p.OnJob? && q.job == p.job < |s.db.jobs|
        && (q.attempts == p.attempts || q.attempts == s.db.jobs[q.job].attempts)
  {
    hide PermissionReason, CommitDecision, PolicyOutcome, Queues, Find, IsNext, IsFirstAction, NewerInbound;
  }

  lemma ActKeepsBound(s: Sys, w: nat, a: Act)
    requires BoundInv(s) && PcInv(s) && JobInv(s.db) && Aligned(s.db) && CanAct(s, w, a)
    ensures BoundInv(Acted(s, w, a))
  {
    hide Counted, Bounded, JobRows, CanAct, DbAfter, PcAfter, PcInv, Calm;
    if a.ClaimJob? {
      ClaimKeepsBound(s, w, a.oldest, a.newest, a.now, a.until);
    } else if WritesJob(a) {
      LeaveIsCalm(s, w, a);
      CalmKeeps(s, DbAfter(s, w, a), s.workers[w := PcAfter(s, w, a)]);
    } else {
      StillOnJob(s, w, a);
      if a.CommitAnswer? { DecidingJobs(s, w, a); } else { QuietJobs(s, w, a); }
      SameIsCalm(s.db.jobs, s.cfg.maxAttempts);
      CalmKeeps(s, DbAfter(s, w, a), s.workers[w := PcAfter(s, w, a)]);
    }
  }

  lemma BoundedNow(s: Sys)
    requires BoundInv(s)
    ensures Bounded(s.db.jobs, s.cfg.maxAttempts)
  {}

  lemma StepKeepsBound(s: Sys, step: Step)
    requires Inv(s) && BoundInv(s) && Enabled(s, step)
    ensures BoundInv(Next(s, step))
  {
    hide BoundInv, ConvInv, JobRows, LinkInv, DraftInv, AnswerInv, DoneInv, AuditInv, PcInv, Protocol, CallsAsWritten,
      CanAct, Acted, Operated, Enqueue, Webhook, RecoverStale, RecoverDeliveries, FromInstagram, Calm, Bounded;
    BoundedNow(s);
    var max := s.cfg.maxAttempts;
    SameIsCalm(s.db.jobs, max);
    match step
    case Ingest(m, now, debounce) =>
      if Enqueue(s.db, m, now, debounce).Some? {
        EnqueueArrives(s.db, m, now, debounce);
        ArrivalIsCalm(s.db.jobs, Enqueue(s.db, m, now, debounce).value.db.jobs, max);
      }
      CalmKeeps(s, Next(s, step).db, s.workers);
    case Post(digest, msgs, ignored, now, debounce) =>
      PostIsCalm(s.db, digest, msgs, ignored, now, debounce, max);
      CalmKeeps(s, Next(s, step).db, s.workers);
    case RecoverJobs(now) =>
      RecoveryIsCalm(s.db, max, now);
      CalmKeeps(s, Next(s, step).db, s.workers);
    case RecoverSends(now) => CalmKeeps(s, Next(s, step).db, s.workers);
    case Work(w, a) => ActKeepsBound(s, w, a);
    case Operate(op) =>
      OperationIsCalm(s.db, op, max);
      CalmKeeps(s, Next(s, step).db, s.workers);
  }

  /** One worker: on every run a queued job has attempts left, and one in progress is within the limit. */
  lemma {:induction false} AloneIsBounded(s0: Sys, steps: seq<Step>)
    requires Initial(s0) && |s0.workers| <= 1 && After(s0, steps).Some?
    ensures var t := After(s0, steps).value;
      Inv(t) && BoundInv(t) && t.cfg == s0.cfg && Bounded(t.db.jobs, s0.cfg.maxAttempts)
  {
    hide Inv, Next, Enabled;
    if steps == [] {
      InitialInv(s0);
    } else {
      var n := |steps| - 1;
      AloneIsBounded(s0, steps[..n]);
      var s := After(s0, steps[..n]).value;
      StepKeepsInv(s, steps[n]);
      StepKeepsBound(s, steps[n]);
      SameConfig(s, steps[n]);
    }
  }

  // --------------------------------------------------------------- two workers

  lemma CrashStep(s: Sys, w: nat)
    requires Aligned(s.db) && w < |s.workers| && s.workers[w].OnJob? && s.workers[w].job < |s.db.jobs|
    ensures Leads(s, w, Crash, s.(workers := s.workers[w := Idle]))
  {
    assert CanAct(s, w, Crash);
  }

  /** The second worker claims and crashes until it is at the last attempt of the only job. */
  lemma {:induction false} BurnAttempts(s0: Sys, steps0: seq<Step>, s: Sys) returns (steps: seq<Step>, t: Sys)
    requires After(s0, steps0) == Some(s) && Inv(s) && Aligned(s.db) && |s.workers| >= 2 && s.workers[1].Idle?
    requires |s.db.jobs| == 1 && Due(s.db.jobs[0], 1) && s.db.jobs[0].attempts < s.cfg.maxAttempts
    ensures After(s0, steps) == Some(t) && Inv(t) && Aligned(t.db) && t.cfg == s.cfg && |t.workers| == |s.workers|
    ensures t.workers[0] == s.workers[0]
    ensures |t.db.jobs| == 1 && t.db.jobs[0].attempts == s.cfg.maxAttempts
    decreases s.cfg.maxAttempts - s.db.jobs[0].attempts
  {
    hide Inv, Next, Enabled, After, Claim, RecoverStale, Grows, IsOldest, IsNewest, JobRows;
    OnlyJob(s.db.jobs, 1);
    OnlyClaim(s.db, 1, 1, 1);
    ClaimStep(s, 1, 0, 0, 1, 1);
    steps, t := Take(s0, steps0, s, Work(1, ClaimJob(0, 0, 1, 1)));
    if t.db.jobs[0].attempts < s.cfg.maxAttempts {
      CrashStep(t, 1);
      steps, t := Take(s0, steps, t, Work(1, Crash));
      InvJobs(t);
      OnlyRecovery(t.db, t.cfg.maxAttempts, 1);
      JobSteps.RecoverStep(t, 1);
      steps, t := Take(s0, steps, t, RecoverJobs(1));
      steps, t := BurnAttempts(s0, steps, t);
    }
  }

  /** The first worker still holds an earlier attempt, below the limit, while the job is back in the queue. */
  lemma HeldBelowLimit(s0: Sys, m: Inbound) returns (steps: seq<Step>, t: Sys, n: nat)
    requires Initial(s0) && |s0.workers| >= 2 && m.channel.Local? && Keyed(m)
    ensures After(s0, steps) == Some(t) && Inv(t) && Aligned(t.db) && t.cfg == s0.cfg
    ensures HasStage(t, 0, 0, n, Claimed) && n < t.cfg.maxAttempts && |t.workers| >= 2 && t.workers[1].Idle?
    ensures |t.db.jobs| == 1 && Due(t.db.jobs[0], 1) && t.db.jobs[0].attempts < t.cfg.maxAttempts
  {
    hide Inv, Next, Enabled, After, Grows, JobRows;
    steps, t := FirstClaimed(s0, m);
    if t.cfg.maxAttempts == 1 {
      steps, t := BackInQueue(s0, steps, t);
      n := t.db.jobs[0].attempts;
      JobSteps.FetchStep(t, 0, 0, 1);
      steps, t := Take(s0, steps, t, Work(0, FetchJob));
    } else {
      assert t.cfg.maxAttempts >= 1 by { InvLimit(t); }
      n := 1;
      JobSteps.FetchStep(t, 0, 0, 1);
      steps, t := Take(s0, steps, t, Work(0, FetchJob));
      steps, t := BackInQueue(s0, steps, t);
    }
  }

  lemma InvLimit(s: Sys)
    requires Inv(s)
    ensures s.cfg.maxAttempts >= 1
  {}

  lemma FailPutsBack(db: Db, n: nat, max: nat)
    requires Aligned(db) && |db.jobs| == 1 && db.jobs[0].attempts == max && n < max
    ensures !Bounded(Fail(db, 0, n, max, 0).jobs, max)
  {
    assert Fail(db, 0, n, max, 0).jobs[0].state.Queued?;
  }

  /** With two workers, whatever the limit, some run puts a job back in the queue after its last attempt. */
  lemma SecondWorkerOverruns(s0: Sys) returns (steps: seq<Step>)
    requires Initial(s0) && |s0.workers| >= 2
    ensures After(s0, steps).Some? && !Bounded(After(s0, steps).value.db.jobs, s0.cfg.maxAttempts)
  {
    hide Inv, Next, Enabled, After, Fail, Bounded;
    var m := Inbound(Channel.Local, "m1", "customer", "desk", "hello", "local:customer");
    assert Keyed(m) by { assert m.key[..|"local:"|] == "local:"; }
    var t, n;
    steps, t, n := HeldBelowLimit(s0, m);
    steps, t := BurnAttempts(s0, steps, t);
    GiveUpStep(t, 0, 0, n, Claimed, 0);
    FailPutsBack(t.db, n, t.cfg.maxAttempts);
    steps, t := Take(s0, steps, t, Work(0, GiveUp(0)));
  }

  /** Attempts are bounded on every run precisely for at most one worker. */
  lemma BoundedExactly(s0: Sys)
    requires Initial(s0)
    ensures (forall steps :: After(s0, steps).Some? ==>
               Bounded(After(s0, steps).value.db.jobs, s0.cfg.maxAttempts)) <==> |s0.workers| <= 1
  {
    hide After, Bounded, Initial, Inv, BoundInv;
    if |s0.workers| <= 1 {
      forall steps | After(s0, steps).Some?
        ensures Bounded(After(s0, steps).value.db.jobs, s0.cfg.maxAttempts)
      {
        AloneIsBounded(s0, steps);
      }
    } else {
      var steps := SecondWorkerOverruns(s0);
    }
  }
}
