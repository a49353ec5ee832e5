/** Exactly when a job is answered once: two workers can answer it twice, when one of them outlives its lease. */
module LateWorker {
  import opened Types
  import opened WorkspaceModel
  import opened QueueModel
  import opened DeliveryModel
  import opened WorkerModel
  import opened System
  import opened QueueInvariant
  import opened LinkInvariant
  import opened Safety
  import opened Trace
  import opened SendSteps
  import opened JobSteps
  import opened Lease
  import opened Solo
  import Policy

  /** What a provider error turns into. */
  const HUMAN_REQUIRED :=
    Decision(Policy.HumanRequired, "", "ca", Policy.OtherReason, [], false, "openclaw")

  const NO_FACTS := Policy.Facts(false, false, false, false, false)

  /** Nothing can stop an escalation: the new action has no review yet. */
  lemma EscalationCommits(db: Db, cfg: Config, j: nat, mode: Mode)
    requires LinkInv(db) && Aligned(db) && j < |db.jobs|
    ensures var r := CommitDecision(db, cfg, j, HUMAN_REQUIRED, Escalated, mode, 0);
      && r.Some? && r.value.actions == db.actions + [Action(j, j, EscalateToOwner, Agent, 0)]
      && r.value.events == db.events && r.value.jobs == db.jobs
  {}

  /** A worker that has found no action for its job, and sees no newer message, comes to decide. */
  lemma Deliberates(s0: Sys, steps0: seq<Step>, s: Sys, w: nat, j: nat, n: nat, d: Decision)
    returns (steps: seq<Step>, t: Sys, paused: bool)
    requires After(s0, steps0) == Some(s) && Inv(s) && HasStage(s, w, j, n, Unanswered) && !NewerInbound(s.db, j)
    ensures s.db.events[j].conv < |s.db.convs| && paused == s.db.convs[s.db.events[j].conv].paused
    ensures After(s0, steps) == Some(t) && Inv(t) && HasStage(t, w, j, n, Deciding(paused, d, s.db.mode))
    ensures t == s.(workers := s.workers[w := t.workers[w]])
  {
    hide Inv, Next, Enabled, After, Grows, NewerInbound;
    steps, t := steps0, s;
    InvParts(t);
    ContextStep(t, w, j, n);
    paused := t.db.convs[t.db.events[j].conv].paused;
    steps, t := Take(s0, steps, t, Work(w, ReadContext));
    AnswerStep(t, w, j, n, paused, d);
    steps, t := Take(s0, steps, t, Work(w, Act.Answer(d)));
    NewerStep(t, w, j, n, paused, d);
    steps, t := Take(s0, steps, t, Work(w, CheckNewer));
    ModeStep(t, w, j, n, paused, d);
    steps, t := Take(s0, steps, t, Work(w, ReadMode));
  }

  /** And ends up adding an action, whoever else is at the same job. */
  lemma Decides(s0: Sys, steps0: seq<Step>, s: Sys, w: nat, j: nat, n: nat) returns (steps: seq<Step>, t: Sys)
    requires After(s0, steps0) == Some(s) && Inv(s) && HasStage(s, w, j, n, Unanswered) && !NewerInbound(s.db, j)
    ensures After(s0, steps) == Some(t) && Inv(t) && Aligned(t.db)
    ensures t.db.actions == s.db.actions + [Action(j, j, EscalateToOwner, Agent, 0)]
    ensures t.db.events == s.db.events && t.db.jobs == s.db.jobs && |t.workers| == |s.workers|
    ensures forall v :: 0 <= v < |s.workers| && v != w ==> t.workers[v] == s.workers[v]
  {
    hide Inv, Next, Enabled, After, CommitDecision, Queues, Grows, NewerInbound;
    var paused;
    steps, t, paused := Deliberates(s0, steps0, s, w, j, n, HUMAN_REQUIRED);
    InvParts(t);
    EscalationCommits(t.db, t.cfg, j, t.db.mode);
    CommitStep(t, w, j, n, paused, HUMAN_REQUIRED, t.db.mode, NO_FACTS, 0);
    steps, t := Take(s0, steps, t, Work(w, CommitAnswer(NO_FACTS, 0)));
  }

  // ----------------------------------------------------- reaching such a state

  /** The tables after one local message. */
  lemma FirstMessage(db: Db, m: Inbound)
    requires db == EMPTY.(mode := db.mode)
    ensures var r := Enqueue(db, m, 0, 0);
      && r.Some? && r.value.db.jobs == [NewJob(0, m.key, 0, 0)] && r.value.db.actions == []
      && r.value.db.events == [Event(m, 0)]
  {
    var jobs := [NewJob(0, m.key, 0, 0)];
    assert db.jobs + jobs == jobs;
  }

  /** The only job, when it is queued, is what `claim_next` picks. */
  lemma OnlyJob(jobs: seq<Job>, now: nat)
    requires |jobs| == 1 && Due(jobs[0], now)
    ensures IsOldest(jobs, now, 0) && IsNewest(jobs, jobs[0].key, now, 0)
  {
    assert Claimable(jobs, 0, now);
    assert DueIn(jobs, jobs[0].key, now, 0);
  }

  lemma OnlyClaim(db: Db, now: nat, until: nat, w: nat)
    requires Aligned(db) && |db.jobs| == 1
    ensures Claim(db, 0, now, until, w).jobs
         == [db.jobs[0].(state := Processing, attempts := db.jobs[0].attempts + 1, lease := Some(until),
                         worker := Some(w))]
  {
    assert DueOthers(db.jobs, db.jobs[0].key, now, 0, 1) == [];
    assert Batched(db, 0, now) == db;
  }

  /** An expired lease sends the only job back to the queue, or to the dead letters. */
  lemma OnlyRecovery(db: Db, max: nat, now: nat)
    requires JobInv(db) && |db.jobs| == 1 && Stale(db.jobs[0], now)
    ensures RecoverStale(db, max, now).jobs
         == [Released(db.jobs[0], if db.jobs[0].attempts >= max then DeadLetter else Queued).(availableAt := now)]
  {
    RecoverRows(db, max, now);
    RecoverLength(db, max, now);
  }

  lemma OnlyEvent(db: Db)
    requires |db.events| == 1
    ensures !NewerInbound(db, 0)
  {}

  lemma IngestStep(s: Sys, m: Inbound)
    requires Initial(s) && m.channel.Local? && Keyed(m) && Enqueue(s.db, m, 0, 0).Some?
    ensures Enabled(s, Ingest(m, 0, 0)) && Next(s, Ingest(m, 0, 0)) == s.(db := Enqueue(s.db, m, 0, 0).value.db)
  {
    hide Enqueue;
  }

  lemma RetryStep(s: Sys, j: nat, now: nat)
    requires Aligned(s.db) && Retry(s.db, j, now).Some?
    ensures Enabled(s, Operate(RetryJob(j, now)))
    ensures Next(s, Operate(RetryJob(j, now))) == s.(db := Retry(s.db, j, now).value)
  {
    hide Retry;
  }

  lemma OnlyRetry(db: Db, now: nat)
    requires Aligned(db) && |db.jobs| == 1 && db.jobs[0].state.DeadLetter?
    ensures Retry(db, 0, now).Some?
    ensures Retry(db, 0, now).value.jobs == [Released(db.jobs[0], Queued).(attempts := 0, availableAt := now)]
  {}

  lemma InvJobs(s: Sys)
    requires Inv(s)
    ensures JobInv(s.db)
  {}

  /** The first worker has just claimed the only job; its lease ends at time 1. */
  lemma FirstClaimed(s0: Sys, m: Inbound) returns (steps: seq<Step>, t: Sys)
    requires Initial(s0) && |s0.workers| >= 2 && m.channel.Local? && Keyed(m)
    ensures After(s0, steps) == Some(t) && Inv(t) && t.db.actions == [] && |t.db.events| == 1
    ensures HasStage(t, 0, 0, 1, Fetching) && |t.workers| >= 2 && t.workers[1].Idle? && t.cfg == s0.cfg
    ensures |t.db.jobs| == 1 && t.db.jobs[0].state.Processing? && t.db.jobs[0].lease == Some(1)
    ensures t.db.jobs[0].attempts == 1
  {
    hide Inv, Next, Enabled, After, Enqueue, Claim, Grows, IsOldest, IsNewest, JobRows;
    InitialInv(s0);
    Begin(s0);
    FirstMessage(s0.db, m);
    IngestStep(s0, m);
    steps, t := Take(s0, [], s0, Ingest(m, 0, 0));
    OnlyJob(t.db.jobs, 0);
    OnlyClaim(t.db, 0, 1, 0);
    ClaimStep(t, 0, 0, 0, 0, 1);
    steps, t := Take(s0, steps, t, Work(0, ClaimJob(0, 0, 0, 1)));
  }

  /** The lease is recovered; when that was the last attempt, an operator retries the dead letter. */
  lemma BackInQueue(s0: Sys, steps0: seq<Step>, s: Sys) returns (steps: seq<Step>, t: Sys)
    requires After(s0, steps0) == Some(s) && Inv(s) && Aligned(s.db)
    requires |s.db.jobs| == 1 && s.db.jobs[0].state.Processing? && s.db.jobs[0].lease == Some(1)
    ensures After(s0, steps) == Some(t) && Inv(t) && Aligned(t.db) && t.workers == s.workers
    ensures t.db.actions == s.db.actions && t.db.events == s.db.events
    ensures |t.db.jobs| == 1 && Due(t.db.jobs[0], 1) && t.cfg == s.cfg && t.db.jobs[0].attempts < s.cfg.maxAttempts
  {
    assert s.cfg.maxAttempts >= 1;
    hide Inv, Next, Enabled, After, RecoverStale, Retry, Grows, JobRows;
    InvJobs(s);
    OnlyRecovery(s.db, s.cfg.maxAttempts, 1);
    JobSteps.RecoverStep(s, 1);
    steps, t := Take(s0, steps0, s, RecoverJobs(1));
    if t.db.jobs[0].state.DeadLetter? {
      OnlyRetry(t.db, 1);
      RetryStep(t, 0, 1);
      steps, t := Take(s0, steps, t, Operate(RetryJob(0, 1)));
    }
  }

  /** Two workers at the same job, neither of which has seen an action for it. */
  lemma BothUnanswered(s0: Sys, m: Inbound) returns (steps: seq<Step>, t: Sys, n: nat)
    requires Initial(s0) && |s0.workers| >= 2 && m.channel.Local? && Keyed(m)
    ensures After(s0, steps) == Some(t) && Inv(t) && t.db.actions == [] && |t.db.events| == 1
    ensures HasStage(t, 0, 0, 1, Unanswered) && HasStage(t, 1, 0, n, Unanswered)
  {
    hide Inv, Next, Enabled, After, Claim, Grows, IsOldest, IsNewest;
    steps, t := FirstClaimed(s0, m);
    JobSteps.FetchStep(t, 0, 0, 1);
    steps, t := Take(s0, steps, t, Work(0, FetchJob));
    LookUpStep(t, 0, 0, 1, None);
    steps, t := Take(s0, steps, t, Work(0, LookUp(None)));
    steps, t := BackInQueue(s0, steps, t);
    n := t.db.jobs[0].attempts + 1;
    OnlyJob(t.db.jobs, 1);
    OnlyClaim(t.db, 1, 2, 1);
    ClaimStep(t, 1, 0, 0, 1, 2);
    steps, t := Take(s0, steps, t, Work(1, ClaimJob(0, 0, 1, 2)));
    JobSteps.FetchStep(t, 1, 0, n);
    steps, t := Take(s0, steps, t, Work(1, FetchJob));
    LookUpStep(t, 1, 0, n, None);
    steps, t := Take(s0, steps, t, Work(1, LookUp(None)));
  }

  /** With two workers, whatever the rest of the configuration, some run from the very start answers a job twice. */
  lemma SecondWorkerAnswersAgain(s0: Sys) returns (steps: seq<Step>)
    requires Initial(s0) && |s0.workers| >= 2
    ensures After(s0, steps).Some? && !OneAnswer(After(s0, steps).value.db.actions)
  {
    hide Inv, After;
    var m := Inbound(Channel.Local, "m1", "customer", "desk", "hello", "local:customer");
    assert Keyed(m) by { assert m.key[..|"local:"|] == "local:"; }
    var t, n;
    steps, t, n := BothUnanswered(s0, m);
    OnlyEvent(t.db);
    steps, t := Decides(s0, steps, t, 0, 0, 1);
    OnlyEvent(t.db);
    steps, t := Decides(s0, steps, t, 1, 0, n);
    var actions := t.db.actions;
    assert actions[0].job == actions[1].job;
  }

  /** Generation is exactly-once precisely for at most one worker: then on every run, with any crashes, failures,
      retries and recovered leases; and with two workers not on every run, whatever the configuration. */
  lemma AnsweredOnceExactly(s0: Sys)
    requires Initial(s0)
    ensures (forall steps :: After(s0, steps).Some? ==> OneAnswer(After(s0, steps).value.db.actions))
            <==> |s0.workers| <= 1
  {
    hide After, OneAnswer, Initial;
    if |s0.workers| <= 1 {
      forall steps | After(s0, steps).Some?
        ensures OneAnswer(After(s0, steps).value.db.actions)
      {
        AloneAnswersOnce(s0, steps);
      }
    } else {
      var steps := SecondWorkerAnswersAgain(s0);
    }
  }
}
