/** What holds when every worker finishes with a claimed job before its lease can be recovered: attempts stay
    bounded and each job is answered by the agent at most once, across crashes, failures and new claims. */
module Lease {
  import opened Types
  import opened WorkspaceModel
  import opened QueueModel
  import opened DeliveryModel
  import opened WorkerModel
  import opened System
  import opened QueueInvariant
  import opened LinkInvariant
  import opened AnswerInvariant
  import opened AuditInvariant
  import opened Safety
  import opened Replies
  import Policy

  /** Lease discipline: `recover_stale` never takes a job away from a worker that is still on it.
      The job of a worker that has crashed may of course be recovered. */
  ghost predicate Disciplined(s: Sys, step: Step) {
    step.RecoverJobs? ==>
      forall w :: 0 <= w < |s.workers| && s.workers[w].OnJob? && s.workers[w].job < |s.db.jobs| ==>
        !Stale(s.db.jobs[s.workers[w].job], step.now)
  }

  ghost predicate AllDisciplined(ss: seq<Sys>, steps: seq<Step>)
    requires |ss| == |steps| + 1
  {
    forall k :: 0 <= k < |steps| ==> Disciplined(ss[k], steps[k])
  }

  /** A worker's job is in progress, at the attempt the worker claimed. */
  ghost predicate Holds(jobs: seq<Job>, p: Pc) {
    p.OnJob? ==> p.job < |jobs| && jobs[p.job].state.Processing? && jobs[p.job].attempts == p.attempts
  }

  ghost predicate AllHold(jobs: seq<Job>, workers: seq<Pc>) {
    forall w :: 0 <= w < |workers| ==> Holds(jobs, workers[w])
  }

  /** No two workers are on the same job. */
  ghost predicate Alone(workers: seq<Pc>) {
    forall v, w :: 0 <= v < w < |workers| && workers[v].OnJob? && workers[w].OnJob? ==>
      workers[v].job != workers[w].job
  }

  predicate AttemptsOk(row: Job, max: nat) {
    && (row.state.Queued? ==> row.attempts < max)
    && (row.state.Processing? ==> 1 <= row.attempts <= max)
  }

  ghost predicate Bounded(jobs: seq<Job>, max: nat) {
    forall j :: 0 <= j < |jobs| ==> AttemptsOk(jobs[j], max)
  }

  ghost predicate OneAnswer(actions: seq<Action>) {
    forall a, b :: 0 <= a < b < |actions| && actions[a].author.Agent? && actions[b].author.Agent? ==>
      actions[a].job != actions[b].job
  }

  predicate Deliberating(stage: Stage) {
    stage.Unanswered? || stage.Asking? || stage.Answered? || stage.UpToDate? || stage.Deciding?
  }

  ghost predicate NoAgentAction(actions: seq<Action>, j: nat) {
    forall a :: 0 <= a < |actions| && actions[a].author.Agent? ==> actions[a].job != j
  }

  ghost predicate Undecided(actions: seq<Action>, workers: seq<Pc>) {
    forall w :: 0 <= w < |workers| && workers[w].OnJob? && Deliberating(workers[w].stage) ==>
      NoAgentAction(actions, workers[w].job)
  }

  ghost predicate LeaseInv(s: Sys) {
    && AllHold(s.db.jobs, s.workers) && Alone(s.workers) && Bounded(s.db.jobs, s.cfg.maxAttempts)
    && OneAnswer(s.db.actions) && Undecided(s.db.actions, s.workers)
  }

  // ------------------------------------------------------------- worker steps

  /** A worker moves on, or lets go, without any job or action being written. */
  lemma MoveKeepsLease(s: Sys, w: nat, pc: Pc)
    requires LeaseInv(s) && w < |s.workers|
    requires pc.OnJob? ==> s.workers[w].OnJob? && pc.job == s.workers[w].job && pc.attempts == s.workers[w].attempts
    requires pc.OnJob? && Deliberating(pc.stage) ==> NoAgentAction(s.db.actions, pc.job)
    ensures LeaseInv(s.(workers := s.workers[w := pc]))
  {
    assert Holds(s.db.jobs, s.workers[w]);
  }

  /** A worker writes the row of its own job and lets go. */
  lemma ReleaseKeepsLease(s: Sys, w: nat, db: Db)
    requires LeaseInv(s) && w < |s.workers| && s.workers[w].OnJob? && s.workers[w].job < |s.db.jobs|
    requires |db.jobs| == |s.db.jobs| && db.actions == s.db.actions
    requires forall j :: 0 <= j < |db.jobs| && j != s.workers[w].job ==> db.jobs[j] == s.db.jobs[j]
    requires AttemptsOk(db.jobs[s.workers[w].job], s.cfg.maxAttempts)
    ensures LeaseInv(s.(db := db, workers := s.workers[w := Idle]))
  {
    var workers := s.workers[w := Idle];
    forall v | 0 <= v < |workers|
      ensures Holds(db.jobs, workers[v])
    {
      assert Holds(s.db.jobs, s.workers[v]);
    }
  }

  lemma ClaimKeepsLease(s: Sys, w: nat, j: nat, now: nat, until: nat)
    requires LeaseInv(s) && JobInv(s.db) && w < |s.workers| && s.workers[w].Idle? && ClaimsFrom(s.db, j, now)
    ensures LeaseInv(s.(db := Claim(s.db, j, now, until, w),
                        workers := s.workers[w := OnJob(j, s.db.jobs[j].attempts + 1, Fetching)]))
  {
    hide Claim, JobRows;
    JobInvAligned(s.db);
    ClaimRows(s.db, j, now, until, w);
    var jobs := Claim(s.db, j, now, until, w).jobs;
    var workers := s.workers[w := OnJob(j, s.db.jobs[j].attempts + 1, Fetching)];
    ClaimLength(s.db, j, now, until, w);
    forall v | 0 <= v < |workers|
      ensures Holds(jobs, workers[v]) && (v != w && workers[v].OnJob? ==> workers[v].job != j)
    {
      assert Holds(s.db.jobs, s.workers[v]);
      if v != w && workers[v].OnJob? {
        var i := workers[v].job;
        assert ClaimedRow(s.db.jobs[i], jobs[i], i, j, s.db.jobs[j].key, now, until, w);
      }
    }
    forall i | 0 <= i < |jobs|
      ensures AttemptsOk(jobs[i], s.cfg.maxAttempts)
    {
      assert ClaimedRow(s.db.jobs[i], jobs[i], i, j, s.db.jobs[j].key, now, until, w);
      assert AttemptsOk(s.db.jobs[i], s.cfg.maxAttempts);
    }
  }

  lemma ClaimLength(db: Db, j: nat, now: nat, until: nat, w: nat)
    requires JobInv(db) && ClaimsFrom(db, j, now)
    ensures var after := Claim(db, j, now, until, w); |after.jobs| == |db.jobs| && after.actions == db.actions
  {}

  /** A deliberating worker's job had no agent action, and now has exactly this one. */
  lemma AnswerKeepsLease(s: Sys, w: nat, pc: Pc, db: Db, answer: Action)
    requires LeaseInv(s) && w < |s.workers| && s.workers[w].OnJob? && Deliberating(s.workers[w].stage)
    requires pc.OnJob? && pc.job == s.workers[w].job && pc.attempts == s.workers[w].attempts && !Deliberating(pc.stage)
    requires db.jobs == s.db.jobs && db.actions == s.db.actions + [answer] && answer.job == pc.job
    ensures LeaseInv(s.(db := db, workers := s.workers[w := pc]))
  {
    var workers := s.workers[w := pc];
    assert NoAgentAction(s.db.actions, pc.job);
    forall v | 0 <= v < |workers|
      ensures Holds(db.jobs, workers[v])
      ensures workers[v].OnJob? && Deliberating(workers[v].stage) ==> NoAgentAction(db.actions, workers[v].job)
    {
      assert Holds(s.db.jobs, s.workers[v]);
    }
  }

  lemma DecideKeepsLease(s: Sys, w: nat, f: Policy.Facts, now: nat)
    requires LeaseInv(s) && Aligned(s.db) && CanAct(s, w, CommitAnswer(f, now))
    ensures LeaseInv(Acted(s, w, CommitAnswer(f, now)))
  {
    hide CommitDecision, PolicyOutcome, Queues, LeaseInv;
    var p, db := s.workers[w], s.db;
    var outcome := PolicyOutcome(db, p, f);
    var s' := Acted(s, w, CommitAnswer(f, now));
    if CommitDecision(db, s.cfg, p.job, p.stage.decision, outcome, p.stage.mode, now).Some? {
      CommitShape(db, s.cfg, p.job, p.stage.decision, outcome, p.stage.mode, now);
      AnswerKeepsLease(s, w, s'.workers[w], s'.db, Action(p.job, p.job, Intended(p.stage.decision), Agent, now));
    } else {
      MoveKeepsLease(s, w, s'.workers[w]);
    }
  }

  lemma ActKeepsLease(s: Sys, w: nat, a: Act)
    requires LeaseInv(s) && JobInv(s.db) && PcInv(s) && CanAct(s, w, a)
    ensures LeaseInv(Acted(s, w, a))
  {
    hide LeaseInv, JobRows, PcInv, CommitDecision, Suppress, FinishSent, FinishError, Claim, PermissionReason,
      PolicyOutcome, Queues, Find;
    JobInvAligned(s.db);
    var p, db := s.workers[w], s.db;
    match a
    case ClaimJob(oldest, newest, now, until) => ClaimKeepsLease(s, w, newest, now, until);
    case FetchJob => FetchKeepsLease(s, w);
    case LookUp(found) => LookUpKeepsLease(s, w, found);
    case CommitAnswer(f, now) => DecideKeepsLease(s, w, f, now);
    case FinishJob => ReleaseKeepsLease(s, w, Complete(db, p.job));
    case CommitSupersede => ReleaseKeepsLease(s, w, Supersede(db, p.job, p.stage.successor));
    case GiveUp(now) => GiveUpKeepsLease(s, w, now);
    case _ => OtherKeepsLease(s, w, a);
  }

  /** Nobody has touched the job since the claim, so the row read back is the one that was written. */
  lemma FetchKeepsLease(s: Sys, w: nat)
    requires LeaseInv(s) && Aligned(s.db) && CanAct(s, w, FetchJob)
    ensures LeaseInv(Acted(s, w, FetchJob))
  {
    assert Holds(s.db.jobs, s.workers[w]);
    MoveKeepsLease(s, w, PcAfter(s, w, FetchJob));
  }

  lemma LookUpKeepsLease(s: Sys, w: nat, found: Option<nat>)
    requires LeaseInv(s) && Aligned(s.db) && CanAct(s, w, LookUp(found))
    ensures LeaseInv(Acted(s, w, LookUp(found)))
  {
    MoveKeepsLease(s, w, PcAfter(s, w, LookUp(found)));
  }

  lemma GiveUpKeepsLease(s: Sys, w: nat, now: nat)
    requires LeaseInv(s) && Aligned(s.db) && CanAct(s, w, GiveUp(now))
    ensures LeaseInv(Acted(s, w, GiveUp(now)))
  {
    assert Holds(s.db.jobs, s.workers[w]);
    ReleaseKeepsLease(s, w, Fail(s.db, s.workers[w].job, s.workers[w].attempts, s.cfg.maxAttempts, now));
  }

  predicate UsesQueue(a: Act) {
    a.ClaimJob? || a.FetchJob? || a.LookUp? || a.CommitAnswer? || a.FinishJob? || a.CommitSupersede? || a.GiveUp?
  }

  /** The remaining steps write neither jobs nor actions, and keep the worker on its job or let go of it. */
  lemma OtherMoves(s: Sys, w: nat, a: Act)
    requires Aligned(s.db) && CanAct(s, w, a) && !UsesQueue(a)
    ensures DbAfter(s, w, a).jobs == s.db.jobs && DbAfter(s, w, a).actions == s.db.actions
    ensures var p, q := s.workers[w], PcAfter(s, w, a);
      q.OnJob? ==> p.OnJob? && q.job == p.job && q.attempts == p.attempts
                   && (Deliberating(q.stage) ==> Deliberating(p.stage))
  {
    hide DbAfter, PcAfter, Deliberating;
    OtherTables(s, w, a);
    KeptStages(s, w, a);
  }

  lemma OtherTables(s: Sys, w: nat, a: Act)
    requires Aligned(s.db) && CanAct(s, w, a) && !UsesQueue(a)
    ensures DbAfter(s, w, a).jobs == s.db.jobs && DbAfter(s, w, a).actions == s.db.actions
  {
    hide Suppress, FinishSent, FinishError, RecordExecution;
    if a.Record? { RecordsApart(s, w); }
  }

  lemma RecordsApart(s: Sys, w: nat)
    requires Aligned(s.db) && CanAct(s, w, Record)
    ensures DbAfter(s, w, Record).jobs == s.db.jobs && DbAfter(s, w, Record).actions == s.db.actions
  {}

  lemma KeptStages(s: Sys, w: nat, a: Act)
    requires Aligned(s.db) && CanAct(s, w, a) && !UsesQueue(a)
    ensures w < |s.workers|
    ensures var p, q := s.workers[w], PcAfter(s, w, a);
      q.OnJob? ==> p.OnJob? && q.job == p.job && q.attempts == p.attempts
                   && (Deliberating(q.stage) ==> Deliberating(p.stage))
  {
    hide PermissionReason, Find, NewerInbound;
  }

  lemma OtherKeepsLease(s: Sys, w: nat, a: Act)
    requires LeaseInv(s) && Aligned(s.db) && CanAct(s, w, a) && !UsesQueue(a)
    ensures LeaseInv(Acted(s, w, a))
  {
    hide CanAct, DbAfter, PcAfter;
    assert w < |s.workers| by { InRange(s, w, a); }
    OtherMoves(s, w, a);
    MoveKeepsLease(s, w, PcAfter(s, w, a));
  }

  lemma InRange(s: Sys, w: nat, a: Act)
    requires Aligned(s.db) && CanAct(s, w, a)
    ensures w < |s.workers|
  {}

  // -------------------------------------------------------------- other steps

  /** New jobs are queued with no attempts; the others keep everything but their availability. */
  ghost predicate Arrived(before: seq<Job>, after: seq<Job>) {
    && |before| <= |after|
    && forall j :: 0 <= j < |after| ==>
      if j < |before| then after[j] == before[j].(availableAt := after[j].availableAt)
      else after[j].state.Queued? && after[j].attempts == 0
  }

  lemma EnqueueArrives(db: Db, m: Inbound, now: nat, debounce: nat)
    requires Enqueue(db, m, now, debounce).Some?
    ensures Arrived(db.jobs, Enqueue(db, m, now, debounce).value.db.jobs)
  {
    hide EnsureConversation;
  }

  lemma {:induction false} EnqueueAllArrives(db: Db, msgs: seq<Inbound>, now: nat, debounce: nat)
    requires EnqueueAll(db, msgs, now, debounce).Some?
    ensures Arrived(db.jobs, EnqueueAll(db, msgs, now, debounce).value.db.jobs)
  {
    hide Enqueue;
    if msgs != [] {
      var n := |msgs| - 1;
      EnqueueAllArrives(db, msgs[..n], now, debounce);
      EnqueueArrives(EnqueueAll(db, msgs[..n], now, debounce).value.db, msgs[n], now, debounce);
    }
  }

  lemma ArrivalKeepsLease(s: Sys, db: Db)
    requires LeaseInv(s) && Arrived(s.db.jobs, db.jobs) && db.actions == s.db.actions && s.cfg.maxAttempts >= 1
    ensures LeaseInv(s.(db := db))
  {
    forall w | 0 <= w < |s.workers|
      ensures Holds(db.jobs, s.workers[w])
    {
      assert Holds(s.db.jobs, s.workers[w]);
    }
    forall j | 0 <= j < |db.jobs|
      ensures AttemptsOk(db.jobs[j], s.cfg.maxAttempts)
    {
      if j < |s.db.jobs| {
        assert AttemptsOk(s.db.jobs[j], s.cfg.maxAttempts);
      }
    }
  }

  lemma RecoverKeepsLease(s: Sys, now: nat)
    requires LeaseInv(s) && JobInv(s.db) && Disciplined(s, RecoverJobs(now))
    ensures LeaseInv(s.(db := RecoverStale(s.db, s.cfg.maxAttempts, now)))
  {
    hide JobRows;
    JobInvAligned(s.db);
    RecoverRows(s.db, s.cfg.maxAttempts, now);
    RecoverLength(s.db, s.cfg.maxAttempts, now);
    var jobs := RecoverStale(s.db, s.cfg.maxAttempts, now).jobs;
    forall w | 0 <= w < |s.workers|
      ensures Holds(jobs, s.workers[w])
    {
      assert Holds(s.db.jobs, s.workers[w]);
    }
    forall j | 0 <= j < |jobs|
      ensures AttemptsOk(jobs[j], s.cfg.maxAttempts)
    {
      assert AttemptsOk(s.db.jobs[j], s.cfg.maxAttempts);
    }
  }

  lemma RecoverLength(db: Db, max: nat, now: nat)
    requires Aligned(db)
    ensures |RecoverStale(db, max, now).jobs| == |db.jobs|
  {}

  lemma SameQueueKeepsLease(s: Sys, db: Db)
    requires LeaseInv(s) && db.jobs == s.db.jobs && db.actions == s.db.actions
    ensures LeaseInv(s.(db := db))
  {}

  /** Retrying or dismissing touches a dead-lettered job, which no disciplined worker is on. */
  lemma RetryKeepsLease(s: Sys, j: nat, row: Job, db: Db)
    requires LeaseInv(s) && j < |s.db.jobs| && s.db.jobs[j].state.DeadLetter?
    requires db.jobs == s.db.jobs[j := row] && db.actions == s.db.actions && AttemptsOk(row, s.cfg.maxAttempts)
    ensures LeaseInv(s.(db := db))
  {
    forall w | 0 <= w < |s.workers|
      ensures Holds(db.jobs, s.workers[w])
    {
      assert Holds(s.db.jobs, s.workers[w]);
    }
  }

  lemma ReplyKeepsLease(s: Sys, c: nat, text: string, now: nat)
    requires LeaseInv(s) && CreateHumanReply(s.db, c, text, now).Some?
    ensures LeaseInv(s.(db := CreateHumanReply(s.db, c, text, now).value))
  {
    hide EnqueueDelivery;
    var db := CreateHumanReply(s.db, c, text, now).value;
    assert db.actions[..|s.db.actions|] == s.db.actions && |db.actions| == |s.db.actions| + 1;
    assert db.actions[|s.db.actions|].author.Human?;
    assert forall a :: 0 <= a < |s.db.actions| ==> db.actions[a] == s.db.actions[a];
  }

  lemma OperationKeepsLease(s: Sys, op: Operation)
    requires LeaseInv(s) && Aligned(s.db) && CanOperate(op) && s.cfg.maxAttempts >= 1
    ensures LeaseInv(s.(db := Operated(s.db, op)))
  {
    hide LeaseInv, CreateHumanReply, TransitionReview, EditReview, SetBotPaused, SetConversationStatus;
    var db := s.db;
    match op
    case RetryJob(j, now) =>
      if Retry(db, j, now).Some? {
        RetryKeepsLease(s, j, Released(db.jobs[j], Queued).(attempts := 0, availableAt := now), Retry(db, j, now).value);
      } else {
        SameQueueKeepsLease(s, db);
      }
    case DismissJob(j) =>
      if Dismiss(db, j).Some? {
        RetryKeepsLease(s, j, db.jobs[j].(state := Dismissed), Dismiss(db, j).value);
      } else {
        SameQueueKeepsLease(s, db);
      }
    case Reply(c, text, now) =>
      if CreateHumanReply(db, c, text, now).Some? {
        ReplyKeepsLease(s, c, text, now);
      } else {
        SameQueueKeepsLease(s, db);
      }
    case _ => SameQueueKeepsLease(s, Operated(db, op));
  }

  lemma WebhookKeepsLease(s: Sys, digest: string, msgs: seq<Inbound>, ignored: nat, now: nat, debounce: nat)
    requires LeaseInv(s) && s.cfg.maxAttempts >= 1
    ensures LeaseInv(s.(db := OrElse(Webhook(s.db, digest, msgs, ignored, now, debounce), s.db)))
  {
    hide LeaseInv, EnqueueAll;
    var db := OrElse(Webhook(s.db, digest, msgs, ignored, now, debounce), s.db);
    if !HasReceipt(s.db.receipts, digest) && EnqueueAll(s.db, msgs, now, debounce).Some? {
      EnqueueAllArrives(s.db, msgs, now, debounce);
      ArrivalKeepsLease(s, db);
    } else {
      SameQueueKeepsLease(s, db);
    }
  }

  lemma StepKeepsLease(s: Sys, step: Step)
    requires Inv(s) && LeaseInv(s) && Enabled(s, step) && Disciplined(s, step)
    ensures LeaseInv(Next(s, step))
  {
    hide LeaseInv, ConvInv, JobRows, LinkInv, DraftInv, AnswerInv, AuditInv, PcInv, Protocol, CallsAsWritten, Acted,
      Enqueue, Webhook, RecoverDeliveries, RecoverStale, Operated;
    match step
    case Ingest(m, now, debounce) =>
      if Enqueue(s.db, m, now, debounce).Some? {
        EnqueueArrives(s.db, m, now, debounce);
        ArrivalKeepsLease(s, Enqueue(s.db, m, now, debounce).value.db);
      }
    case Post(digest, msgs, ignored, now, debounce) => WebhookKeepsLease(s, digest, msgs, ignored, now, debounce);
    case RecoverJobs(now) => RecoverKeepsLease(s, now);
    case RecoverSends(now) => SameQueueKeepsLease(s, RecoverDeliveries(s.db, now));
    case Work(w, a) => ActKeepsLease(s, w, a);
    case Operate(op) => OperationKeepsLease(s, op);
  }

  lemma {:induction false} DisciplinedRunsHold(ss: seq<Sys>, steps: seq<Step>, i: nat)
    requires IsRun(ss, steps) && AllDisciplined(ss, steps) && i < |ss|
    ensures Inv(ss[i]) && LeaseInv(ss[i])
  {
    hide Inv, Next, Enabled, Disciplined;
    RunsAreSafe(ss, steps, i);
    if i == 0 {
      assert forall w :: 0 <= w < |ss[0].workers| ==> ss[0].workers[w] == Idle;
    } else {
      DisciplinedRunsHold(ss, steps, i - 1);
      assert Enabled(ss[i - 1], steps[i - 1]) && ss[i - 1 + 1] == Next(ss[i - 1], steps[i - 1]);
      StepKeepsLease(ss[i - 1], steps[i - 1]);
    }
  }

  // ---------------------------------------------------------------- theorems

  /** Exactly-once generation: in every disciplined run a job never gets a second agent action, so an event never
      gets a second bot delivery, whatever crashed, failed or was claimed again in between. */
  lemma AtMostOneAnswer(ss: seq<Sys>, steps: seq<Step>, i: nat, c: nat, d: nat)
    requires IsRun(ss, steps) && AllDisciplined(ss, steps) && i < |ss|
    requires BotReply(ss[i].db, c) && BotReply(ss[i].db, d) && AnswersEvent(ss[i].db, c) == AnswersEvent(ss[i].db, d)
    ensures OneAnswer(ss[i].db.actions)
    ensures c == d
  {
    hide ConvInv, JobRows, DraftInv, AnswerInv, DoneInv, AuditInv, PcInv, Protocol;
    DisciplinedRunsHold(ss, steps, i);
    var db := ss[i].db;
    assert IntentOk(db.events, db.actions, db.policies, db.deliveries[c].intent);
    assert IntentOk(db.events, db.actions, db.policies, db.deliveries[d].intent);
    var a, b := db.deliveries[c].intent.action, db.deliveries[d].intent.action;
    assert db.actions[a].job == db.actions[b].job;
    assert a == b;
  }

  /** A job that has an action, with no worker past its lookup, is spoken for. */
  ghost predicate SpokenFor(s: Sys, j: nat) {
    && HasAction(s.db.actions, j)
    && forall w :: 0 <= w < |s.workers| && s.workers[w].OnJob? && s.workers[w].job == j ==>
      !Deliberating(s.workers[w].stage)
  }

  /** Every action added for the job between the two tables is an operator's. */
  ghost predicate OnlyHumansAdded(before: seq<Action>, after: seq<Action>, j: nat) {
    && before <= after
    && forall a :: |before| <= a < |after| && after[a].job == j ==> after[a].author.Human?
  }

  lemma OnlyHumansTransitive(a: seq<Action>, b: seq<Action>, c: seq<Action>, j: nat)
    requires OnlyHumansAdded(a, b, j) && OnlyHumansAdded(b, c, j)
    ensures OnlyHumansAdded(a, c, j)
  {
    forall i | |a| <= i < |c| && c[i].job == j
      ensures c[i].author.Human?
    {
      if i < |b| {
        assert c[i] == b[i];
      }
    }
  }

  /** Every step but the deciding transaction leaves the actions alone, and only a lookup that finds none starts a
      decision. */
  lemma OtherActions(s: Sys, w: nat, a: Act)
    requires Aligned(s.db) && CanAct(s, w, a) && !a.CommitAnswer?
    ensures w < |s.workers| && DbAfter(s, w, a).actions == s.db.actions
    ensures var p, q := s.workers[w], PcAfter(s, w, a);
      q.OnJob? && Deliberating(q.stage) ==>
        p.OnJob? && q.job == p.job && (Deliberating(p.stage) || !HasAction(s.db.actions, p.job))
  {
    hide PcAfter, Deliberating, Suppress, FinishSent, FinishError, PermissionReason, Claim, Fail, Complete, Supersede,
      IsOldest, IsNewest, IsNext, IsFirstAction;
    OtherStages(s, w, a);
  }

  lemma OtherStages(s: Sys, w: nat, a: Act)
    requires Aligned(s.db) && CanAct(s, w, a) && !a.CommitAnswer?
    ensures var p, q := s.workers[w], PcAfter(s, w, a);
      q.OnJob? && Deliberating(q.stage) ==>
        p.OnJob? && q.job == p.job && (Deliberating(p.stage) || !HasAction(s.db.actions, p.job))
  {
    hide PermissionReason, Find, IsOldest, IsNewest, IsNext, NewerInbound;
  }

  lemma DecidedAction(s: Sys, w: nat, a: Act)
    requires Aligned(s.db) && CanAct(s, w, a) && a.CommitAnswer?
    ensures w < |s.workers| && s.workers[w].OnJob? && Deliberating(s.workers[w].stage)
    ensures var p, q, after := s.workers[w], PcAfter(s, w, a), DbAfter(s, w, a).actions;
      && (q.OnJob? ==> !Deliberating(q.stage))
      && (after == s.db.actions
          || after == s.db.actions + [Action(p.job, p.job, Intended(p.stage.decision), Agent, a.now)])
  {
    hide CommitDecision, PolicyOutcome, Queues;
    var p, db := s.workers[w], s.db;
    var outcome := PolicyOutcome(db, p, a.facts);
    if CommitDecision(db, s.cfg, p.job, p.stage.decision, outcome, p.stage.mode, a.now).Some? {
      CommitShape(db, s.cfg, p.job, p.stage.decision, outcome, p.stage.mode, a.now);
    }
  }

  /** An operation adds a human action at most. */
  lemma OperationActions(db: Db, op: Operation)
    requires Aligned(db) && CanOperate(op)
    ensures Operated(db, op).actions == db.actions
            || exists a: Action :: a.author.Human? && Operated(db, op).actions == db.actions + [a]
  {
    hide EditReview, TransitionReview, Retry, Dismiss, SetBotPaused, SetConversationStatus, EnqueueDelivery, SetStatus;
    if op.Reply? && CreateHumanReply(db, op.conv, op.text, op.now).Some? {
      var e := LatestEvent(db.events, op.conv).value;
      assert Operated(db, op).actions == db.actions + [Action(e, e, HumanReply, Human, op.now)];
    }
  }

  lemma ActSpoken(s: Sys, w: nat, a: Act, j: nat)
    requires Aligned(s.db) && CanAct(s, w, a) && SpokenFor(s, j)
    ensures SpokenFor(Acted(s, w, a), j) && OnlyHumansAdded(s.db.actions, Acted(s, w, a).db.actions, j)
  {
    hide CanAct, DbAfter, PcAfter, HasAction;
    if a.CommitAnswer? { DecidedAction(s, w, a); } else { OtherActions(s, w, a); }
    MoreActionsFor(s.db.actions, Acted(s, w, a).db.actions, j);
  }

  lemma AddedSpoken(s: Sys, db: Db, j: nat)
    requires SpokenFor(s, j)
    requires db.actions == s.db.actions
             || exists a: Action :: a.author.Human? && db.actions == s.db.actions + [a]
    ensures SpokenFor(s.(db := db), j) && OnlyHumansAdded(s.db.actions, db.actions, j)
  {
    MoreActionsFor(s.db.actions, db.actions, j);
  }

  /** Once a reply of an operator (or anything else) is recorded for a job before a worker's lookup, the agent never
      answers that job; this needs no lease discipline. */
  lemma StepSpoken(s: Sys, step: Step, j: nat)
    requires Enabled(s, step) && SpokenFor(s, j)
    ensures SpokenFor(Next(s, step), j) && OnlyHumansAdded(s.db.actions, Next(s, step).db.actions, j)
  {
    hide SpokenFor, OnlyHumansAdded, CanAct, Acted, Operated, Enqueue, Webhook, RecoverStale, RecoverDeliveries,
      FromInstagram;
    match step
    case Work(w, a) => ActSpoken(s, w, a, j);
    case Operate(op) =>
      OperationActions(s.db, op);
      AddedSpoken(s, Operated(s.db, op), j);
    case _ => AddedSpoken(s, Next(s, step).db, j);
  }

  lemma MoreActionsFor(before: seq<Action>, after: seq<Action>, j: nat)
    requires HasAction(before, j) && before <= after
    ensures HasAction(after, j)
  {
    var a :| 0 <= a < |before| && before[a].job == j;
    assert after[a] == before[a];
  }

  lemma {:induction false} HumanReplyWins(ss: seq<Sys>, steps: seq<Step>, i: nat, k: nat, j: nat)
    requires IsRun(ss, steps) && i <= k < |ss| && SpokenFor(ss[i], j)
    ensures SpokenFor(ss[k], j) && OnlyHumansAdded(ss[i].db.actions, ss[k].db.actions, j)
  {
    hide SpokenFor, OnlyHumansAdded, Next, Inv;
    if i < k {
      HumanReplyWins(ss, steps, i, k - 1, j);
      assert Enabled(ss[k - 1], steps[k - 1]) && ss[k - 1 + 1] == Next(ss[k - 1], steps[k - 1]);
      StepSpoken(ss[k - 1], steps[k - 1], j);
      OnlyHumansTransitive(ss[i].db.actions, ss[k - 1].db.actions, ss[k].db.actions, j);
    } else {
      NothingAdded(ss[i].db.actions, j);
    }
  }

  lemma NothingAdded(actions: seq<Action>, j: nat)
    ensures OnlyHumansAdded(actions, actions, j)
  {}
}
