/** The steps of a worker that handles one job, each with the state it leads to. */
module JobSteps {
  import opened Types
  import opened DeliveryModel
  import opened QueueModel
  import opened WorkspaceModel
  import opened WorkerModel
  import opened System
  import opened LinkInvariant
  import opened QueueInvariant
  import opened AnswerInvariant
  import opened AuditInvariant
  import opened Safety
  import opened SendSteps
  import Policy

  /** Worker `w` is at this stage of job `j`, which it claimed at attempt `n`. */
  ghost predicate HasStage(s: Sys, w: nat, j: nat, n: nat, stage: Stage) {
    && Aligned(s.db) && w < |s.workers| && j < |s.db.jobs| && s.workers[w] == OnJob(j, n, stage)
  }

  /** The worker gone on to another stage, having changed no table. */
  ghost function Staged(s: Sys, w: nat, stage: Stage): Sys
    requires w < |s.workers| && s.workers[w].OnJob?
  {
    s.(workers := s.workers[w := s.workers[w].(stage := stage)])
  }

  lemma RecoverStep(s: Sys, now: nat)
    requires Inv(s)
    ensures Aligned(s.db) && Enabled(s, RecoverJobs(now))
    ensures Next(s, RecoverJobs(now)) == s.(db := RecoverStale(s.db, s.cfg.maxAttempts, now))
  {
    hide ConvInv, LinkInv, DraftInv, AnswerInv, DoneInv, AuditInv, PcInv, CallsAsWritten, JobRows, Protocol,
      RecoverStale;
    JobInvAligned(s.db);
  }

  lemma ClaimStep(s: Sys, w: nat, oldest: nat, j: nat, now: nat, until: nat)
    requires Aligned(s.db) && w < |s.workers| && s.workers[w].Idle? && IsOldest(s.db.jobs, now, oldest)
    requires IsNewest(s.db.jobs, s.db.jobs[oldest].key, now, j)
    ensures j < |s.db.jobs|
    ensures var n := s.db.jobs[j].attempts + 1;
      var t := s.(db := Claim(s.db, j, now, until, w), workers := s.workers[w := OnJob(j, n, Fetching)]);
      && Leads(s, w, ClaimJob(oldest, j, now, until), t) && HasStage(t, w, j, n, Fetching)
      && t.db.jobs[j].attempts == n
  {
    hide IsOldest, IsNewest;
    Chosen(s.db.jobs, now, oldest, j);
    assert CanAct(s, w, ClaimJob(oldest, j, now, until));
    ClaimAligned(s.db, j, now, until, w);
  }

  lemma Chosen(jobs: seq<Job>, now: nat, oldest: nat, j: nat)
    requires IsOldest(jobs, now, oldest) && IsNewest(jobs, jobs[oldest].key, now, j)
    ensures oldest < |jobs| && j < |jobs|
  {}

  lemma ClaimAligned(db: Db, j: nat, now: nat, until: nat, w: nat)
    requires Aligned(db) && j < |db.jobs|
    ensures Aligned(Claim(db, j, now, until, w)) && |Claim(db, j, now, until, w).jobs| == |db.jobs|
    ensures Claim(db, j, now, until, w).jobs[j].attempts == db.jobs[j].attempts + 1
  {}

  /** The worker is handed the row as it is by now. */
  lemma FetchStep(s: Sys, w: nat, j: nat, n: nat)
    requires HasStage(s, w, j, n, Fetching)
    ensures var t := s.(workers := s.workers[w := OnJob(j, s.db.jobs[j].attempts, Claimed)]);
      Leads(s, w, FetchJob, t) && HasStage(t, w, j, s.db.jobs[j].attempts, Claimed)
  {
    assert CanAct(s, w, FetchJob);
  }

  lemma LookUpStep(s: Sys, w: nat, j: nat, n: nat, found: Option<nat>)
    requires HasStage(s, w, j, n, Claimed) && IsFirstAction(s.db.actions, j, found)
    ensures var next := if found.Some? then Ready(found.value, HasDelivery(s.db.deliveries, found.value))
                        else Unanswered;
      Leads(s, w, LookUp(found), Staged(s, w, next)) && HasStage(Staged(s, w, next), w, j, n, next)
  {
    hide IsFirstAction, HasDelivery;
    assert CanAct(s, w, LookUp(found));
  }

  lemma ContextStep(s: Sys, w: nat, j: nat, n: nat)
    requires Convs(s.db) && HasStage(s, w, j, n, Unanswered)
    ensures s.db.events[j].conv < |s.db.convs|
    ensures var next := Asking(s.db.convs[s.db.events[j].conv].paused);
      Leads(s, w, ReadContext, Staged(s, w, next)) && HasStage(Staged(s, w, next), w, j, n, next)
  {
    assert CanAct(s, w, ReadContext);
  }

  lemma AnswerStep(s: Sys, w: nat, j: nat, n: nat, paused: bool, d: Decision)
    requires HasStage(s, w, j, n, Asking(paused))
    ensures var next := Answered(paused, d);
      Leads(s, w, Act.Answer(d), Staged(s, w, next)) && HasStage(Staged(s, w, next), w, j, n, next)
  {
    assert CanAct(s, w, Act.Answer(d));
  }

  lemma NewerStep(s: Sys, w: nat, j: nat, n: nat, paused: bool, d: Decision)
    requires HasStage(s, w, j, n, Answered(paused, d))
    ensures var next := if NewerInbound(s.db, j) then Overtaken else UpToDate(paused, d);
      Leads(s, w, CheckNewer, Staged(s, w, next)) && HasStage(Staged(s, w, next), w, j, n, next)
  {
    hide NewerInbound;
    assert CanAct(s, w, CheckNewer);
  }

  lemma SuccessorStep(s: Sys, w: nat, j: nat, n: nat)
    requires HasStage(s, w, j, n, Overtaken)
    ensures var next := Superseding(LatestOther(s.db.events, j, |s.db.events|));
      Leads(s, w, FindSuccessor, Staged(s, w, next)) && HasStage(Staged(s, w, next), w, j, n, next)
  {
    hide LatestOther;
    assert CanAct(s, w, FindSuccessor);
  }

  lemma SupersedeStep(s: Sys, w: nat, j: nat, n: nat, successor: Option<nat>)
    requires HasStage(s, w, j, n, Superseding(successor))
    ensures Leads(s, w, CommitSupersede, Freed(s, w, Supersede(s.db, j, successor)))
  {
    hide Supersede;
    assert CanAct(s, w, CommitSupersede);
  }

  lemma ModeStep(s: Sys, w: nat, j: nat, n: nat, paused: bool, d: Decision)
    requires HasStage(s, w, j, n, UpToDate(paused, d))
    ensures var next := Deciding(paused, d, s.db.mode);
      Leads(s, w, ReadMode, Staged(s, w, next)) && HasStage(Staged(s, w, next), w, j, n, next)
  {
    assert CanAct(s, w, ReadMode);
  }

  lemma CommitStep(s: Sys, w: nat, j: nat, n: nat, paused: bool, d: Decision, mode: Mode, f: Policy.Facts, now: nat)
    requires HasStage(s, w, j, n, Deciding(paused, d, mode))
    ensures var outcome := OutcomeOf(d, s.db.events[j].msg.channel, paused, f);
      var r := CommitDecision(s.db, s.cfg, j, d, outcome, mode, now);
      var next := if r.None? then Failing else Ready(|s.db.actions|, Queues(s.db, s.cfg, j, outcome, mode));
      var t := Staged(s.(db := OrElse(r, s.db)), w, next);
      Leads(s, w, CommitAnswer(f, now), t) && HasStage(t, w, j, n, next)
  {
    hide CommitDecision, OutcomeOf, Queues;
    assert CanAct(s, w, CommitAnswer(f, now));
  }

  lemma StartStep(s: Sys, w: nat, j: nat, n: nat, a: nat, queued: bool)
    requires PcInv(s) && HasStage(s, w, j, n, Ready(a, queued))
    ensures a < |s.db.actions|
    ensures var next := if queued || s.db.actions[a].kind.NoAction? then Finishing(a) else Executing(a, s.db.mode);
      Leads(s, w, StartExecution, Staged(s, w, next)) && HasStage(Staged(s, w, next), w, j, n, next)
  {
    assert PcOk(s.db.events, s.db.actions, s.workers[w]);
    assert CanAct(s, w, StartExecution);
  }

  lemma InspectStep(s: Sys, w: nat, j: nat, n: nat, a: nat, mode: Mode)
    requires PcInv(s) && LinkInv(s.db) && HasStage(s, w, j, n, Executing(a, mode))
    ensures a in s.db.policies
    ensures var next := if a in s.db.executions then Finishing(a)
                        else Recording(a, Find(s.db, s.cfg, a, s.db.policies[a], s.db.events[j].msg.sender, mode));
      Leads(s, w, Inspect, Staged(s, w, next)) && HasStage(Staged(s, w, next), w, j, n, next)
  {
    hide Find;
    assert PcOk(s.db.events, s.db.actions, s.workers[w]);
    assert CanAct(s, w, Inspect);
  }

  lemma RecordStep(s: Sys, w: nat, j: nat, n: nat, a: nat, f: Finding)
    requires HasStage(s, w, j, n, Recording(a, f)) && a !in s.db.executions
    ensures RecordExecution(s.db, a, f).Some?
    ensures var t := Staged(s.(db := RecordExecution(s.db, a, f).value), w, Finishing(a));
      Leads(s, w, Record, t) && HasStage(t, w, j, n, Finishing(a))
  {
    assert CanAct(s, w, Record);
  }

  lemma FinishStep(s: Sys, w: nat, j: nat, n: nat, a: nat)
    requires HasStage(s, w, j, n, Finishing(a))
    ensures Leads(s, w, FinishJob, Freed(s, w, Complete(s.db, j)))
  {
    hide Complete;
    assert CanAct(s, w, FinishJob);
  }

  lemma GiveUpStep(s: Sys, w: nat, j: nat, n: nat, stage: Stage, now: nat)
    requires HasStage(s, w, j, n, stage) && !stage.Fetching? && !stage.Overtaken? && !stage.Superseding?
    ensures Leads(s, w, GiveUp(now), Freed(s, w, Fail(s.db, j, n, s.cfg.maxAttempts, now)))
  {
    hide Fail;
    assert CanAct(s, w, GiveUp(now));
  }

  lemma InvParts(s: Sys)
    requires Inv(s)
    ensures Convs(s.db) && PcInv(s) && LinkInv(s.db) && Aligned(s.db)
  {
    hide ConvInv, PcInv, LinkInv, DraftInv, AnswerInv, DoneInv, AuditInv, CallsAsWritten, JobRows, Protocol;
    JobInvAligned(s.db);
  }
}
