/** When jobs and deliveries may move: the complete transition table of a job row, and what it means over whole runs
    for leases, debounce and backoff. */
module Timing {
  import opened Types
  import opened WorkspaceModel
  import opened QueueModel
  import opened DeliveryModel
  import opened WorkerModel
  import opened System
  import opened QueueInvariant
  import opened LinkInvariant
  import opened AnswerInvariant
  import opened AuditInvariant
  import opened Safety
  import opened QueueRules
  import opened JobSteps
  import opened Trace
  import DeliveryRules
  import LateWorker
  import Retries

  // ---------------------------------------------------------------- arrivals

  /** What one or more accepted messages make of the job table: their jobs are served when `due`, and with a debounce
      every queued job of their keys waits until then too; no other job changes. */
  ghost predicate Arrivals(a: seq<Job>, b: seq<Job>, due: nat, debounce: nat) {
    && |a| <= |b|
    && (forall j :: |a| <= j < |b| ==> b[j].state.Queued? && b[j].attempts == 0 && b[j].availableAt == due)
    && (forall j :: 0 <= j < |a| ==> b[j] == a[j] || (debounce > 0 && Waits(a, b, j, due)))
    && (debounce > 0 ==>
          forall j :: 0 <= j < |a| && a[j].state.Queued? && Joined(a, b, a[j].key) ==> b[j].availableAt == due)
  }

  /** A job of this key has been added. */
  ghost predicate Joined(a: seq<Job>, b: seq<Job>, key: string) {
    exists n :: |a| <= n < |b| && b[n].key == key
  }

  ghost predicate Waits(a: seq<Job>, b: seq<Job>, j: nat, due: nat) {
    j < |a| && j < |b| && a[j].state.Queued? && b[j] == a[j].(availableAt := due) && Joined(a, b, a[j].key)
  }

  /** One more job: the table as `AcceptOk` leaves it. */
  ghost predicate OneJoins(mid: seq<Job>, b: seq<Job>, key: string, due: nat, debounce: nat) {
    && |b| == |mid| + 1
    && b[|mid|].key == key && b[|mid|].state.Queued? && b[|mid|].attempts == 0 && b[|mid|].availableAt == due
    && forall i :: 0 <= i < |mid| ==>
         b[i] == if debounce > 0 && mid[i].key == key && mid[i].state.Queued?
                 then mid[i].(availableAt := due) else mid[i]
  }

  lemma JoinedMore(a: seq<Job>, mid: seq<Job>, b: seq<Job>, key: string, due: nat, debounce: nat, k: string)
    requires |a| <= |mid| && OneJoins(mid, b, key, due, debounce)
    ensures Joined(a, b, k) <==> Joined(a, mid, k) || k == key
  {
    assert forall n :: 0 <= n < |mid| ==> b[n].key == mid[n].key;
    if Joined(a, mid, k) {
      var n :| |a| <= n < |mid| && mid[n].key == k;
      assert b[n].key == k;
    }
  }

  lemma ArrivalsStep(a: seq<Job>, mid: seq<Job>, b: seq<Job>, key: string, due: nat, debounce: nat)
    requires Arrivals(a, mid, due, debounce) && OneJoins(mid, b, key, due, debounce)
    ensures Arrivals(a, b, due, debounce)
  {
    hide Joined;
    forall j | 0 <= j < |a|
      ensures b[j] == a[j] || (debounce > 0 && Waits(a, b, j, due))
      ensures debounce > 0 && a[j].state.Queued? && Joined(a, b, a[j].key) ==> b[j].availableAt == due
    {
      JoinedMore(a, mid, b, key, due, debounce, a[j].key);
    }
  }

  lemma AcceptedJoins(a: Db, b: Db, m: Inbound, e: nat, now: nat, debounce: nat)
    requires Aligned(a) && AcceptOk(a, b, m, e, now, debounce)
    ensures Aligned(b) && OneJoins(a.jobs, b.jobs, m.key, now + debounce, debounce)
  {}

  lemma ArrivalsMore(a: seq<Job>, mid: Db, m: Inbound, now: nat, debounce: nat)
    requires Aligned(mid) && Arrivals(a, mid.jobs, now + debounce, debounce)
    requires Enqueue(mid, m, now, debounce).Some?
    ensures var b := Enqueue(mid, m, now, debounce).value.db;
      Aligned(b) && Arrivals(a, b.jobs, now + debounce, debounce)
  {
    hide Arrivals, AcceptOk, Enqueue, OneJoins;
    EnqueueMeans(mid, m, now, debounce);
    var r := Enqueue(mid, m, now, debounce).value;
    if r.created {
      AcceptedJoins(mid, r.db, m, r.event, now, debounce);
      ArrivalsStep(a, mid.jobs, r.db.jobs, m.key, now + debounce, debounce);
    }
  }

  lemma NoArrivals(a: seq<Job>, due: nat, debounce: nat)
    ensures Arrivals(a, a, due, debounce)
  {}

  lemma {:induction false} AllArrivals(db: Db, msgs: seq<Inbound>, now: nat, debounce: nat)
    requires Aligned(db) && EnqueueAll(db, msgs, now, debounce).Some?
    ensures var b := EnqueueAll(db, msgs, now, debounce).value.db;
      Aligned(b) && Arrivals(db.jobs, b.jobs, now + debounce, debounce)
  {
    hide Arrivals, Enqueue;
    if msgs == [] {
      NoArrivals(db.jobs, now + debounce, debounce);
    } else {
      var n := |msgs| - 1;
      AllArrivals(db, msgs[..n], now, debounce);
      ArrivalsMore(db.jobs, EnqueueAll(db, msgs[..n], now, debounce).value.db, msgs[n], now, debounce);
    }
  }

  predicate Arrives(step: Step) {
    step.Ingest? || step.Post?
  }

  lemma PostArrivals(db: Db, digest: string, msgs: seq<Inbound>, ignored: nat, now: nat, debounce: nat)
    requires Aligned(db)
    ensures var b := OrElse(Webhook(db, digest, msgs, ignored, now, debounce), db);
      Arrivals(db.jobs, b.jobs, now + debounce, debounce)
  {
    hide Arrivals, Webhook, Aligned, EnqueueAll;
    NoArrivals(db.jobs, now + debounce, debounce);
    PostedJobs(db, digest, msgs, ignored, now, debounce);
    if EnqueueAll(db, msgs, now, debounce).Some? { AllArrivals(db, msgs, now, debounce); }
  }

  /** What a post does to the job table is what its messages do, if anything. */
  lemma PostedJobs(db: Db, digest: string, msgs: seq<Inbound>, ignored: nat, now: nat, debounce: nat)
    ensures var b := OrElse(Webhook(db, digest, msgs, ignored, now, debounce), db);
      var r := EnqueueAll(db, msgs, now, debounce);
      b.jobs == db.jobs || (r.Some? && b.jobs == r.value.db.jobs)
  {
    hide EnqueueAll, HasReceipt;
  }

  lemma IngestArrivals(db: Db, m: Inbound, now: nat, debounce: nat)
    requires Aligned(db)
    ensures var r := Enqueue(db, m, now, debounce);
      Arrivals(db.jobs, if r.Some? then r.value.db.jobs else db.jobs, now + debounce, debounce)
  {
    hide Arrivals, Enqueue;
    NoArrivals(db.jobs, now + debounce, debounce);
    if Enqueue(db, m, now, debounce).Some? { ArrivalsMore(db.jobs, db, m, now, debounce); }
  }

  /** The step's messages, or none when its transaction fails, have arrived. */
  lemma StepArrivals(s: Sys, step: Step)
    requires Enabled(s, step) && Arrives(step)
    ensures Arrivals(s.db.jobs, Next(s, step).db.jobs, step.now + step.debounce, step.debounce)
    ensures Next(s, step).workers == s.workers
  {
    hide Arrivals, Enqueue, Webhook, FromInstagram, CanAct, Acted, Operated, Aligned;
    match step
    case Ingest(m, now, debounce) => IngestArrivals(s.db, m, now, debounce);
    case Post(digest, msgs, ignored, now, debounce) => PostArrivals(s.db, digest, msgs, ignored, now, debounce);
  }

  // ---------------------------------------------------------- a job's moves

  ghost predicate HasJob(s: Sys, w: nat, j: nat) {
    w < |s.workers| && s.workers[w].OnJob? && s.workers[w].job == j
  }

  /** Everything that a step can do to the row of job `j`, from `a` to `b`. */
  ghost predicate JobMoves(s: Sys, step: Step, a: Job, b: Job, j: nat) {
    || b == a
    || (Arrives(step) && step.debounce > 0 && a.state.Queued? && b == a.(availableAt := step.now + step.debounce)
        && Enabled(s, step) && Joined(s.db.jobs, Next(s, step).db.jobs, a.key))
    || (step.RecoverJobs? && a.state.Processing? && a.lease.Some? && a.lease.value <= step.now
        && b == a.(state := if a.attempts >= s.cfg.maxAttempts then DeadLetter else Queued, availableAt := step.now,
                   lease := None, worker := None))
    || (step.Work? && WorkMoves(s, step.w, step.act, a, b, j))
    || (step == Operate(DismissJob(j)) && a.state.DeadLetter? && b == a.(state := Dismissed))
    || (step.Operate? && step.op.RetryJob? && step.op.job == j && a.state.DeadLetter?
        && b == a.(state := Queued, attempts := 0, availableAt := step.op.now, lease := None, worker := None))
  }

  /** The part of it that workers do: only a due job is claimed or batched, and only a worker that was handed the job
      ends it. */
  ghost predicate WorkMoves(s: Sys, w: nat, act: Act, a: Job, b: Job, j: nat) {
    match act
    case ClaimJob(_, x, now, until) =>
      && a.state.Queued? && a.availableAt <= now
      && if x == j then
           b == a.(state := Processing, attempts := a.attempts + 1, lease := Some(until), worker := Some(w))
         else j < x < |s.db.jobs| && s.db.jobs[x].key == a.key && b == a.(state := Superseded, successor := Some(x))
    case FinishJob => HasJob(s, w, j) && b == a.(state := Completed, lease := None, worker := None)
    case CommitSupersede =>
      HasJob(s, w, j) && b == a.(state := Superseded, successor := b.successor, lease := None, worker := None)
    case GiveUp(now) =>
      && HasJob(s, w, j)
      && var n := s.workers[w].attempts;
         b == if n >= s.cfg.maxAttempts then a.(state := DeadLetter, availableAt := now, lease := None, worker := None)
              else a.(state := Queued, availableAt := now + Delay(n), lease := None, worker := None)
    case _ => false
  }

  lemma ClaimMoves(s: Sys, w: nat, a: Act, j: nat)
    requires Aligned(s.db) && CanAct(s, w, a) && a.ClaimJob? && j < |s.db.jobs|
    ensures |DbAfter(s, w, a).jobs| == |s.db.jobs|
    ensures s.db.jobs[j] == DbAfter(s, w, a).jobs[j] || WorkMoves(s, w, a, s.db.jobs[j], DbAfter(s, w, a).jobs[j], j)
  {
    hide Claim;
    ClaimIsOnTime(s.db, a.newest, a.now, a.until, w);
  }

  lemma FinishMoves(s: Sys, w: nat, j: nat)
    requires Aligned(s.db) && CanAct(s, w, FinishJob) && j < |s.db.jobs|
    ensures var b := DbAfter(s, w, FinishJob).jobs;
      |b| == |s.db.jobs| && (b[j] == s.db.jobs[j] || WorkMoves(s, w, FinishJob, s.db.jobs[j], b[j], j))
  {
    hide Complete;
    CompletesJob(s.db, s.workers[w].job);
  }

  lemma SupersedeMoves(s: Sys, w: nat, j: nat)
    requires Aligned(s.db) && CanAct(s, w, CommitSupersede) && j < |s.db.jobs|
    ensures var b := DbAfter(s, w, CommitSupersede).jobs;
      |b| == |s.db.jobs| && (b[j] == s.db.jobs[j] || WorkMoves(s, w, CommitSupersede, s.db.jobs[j], b[j], j))
  {
    hide Supersede;
    SupersedesJob(s.db, s.workers[w].job, s.workers[w].stage.successor);
  }

  lemma GiveUpMoves(s: Sys, w: nat, now: nat, j: nat)
    requires Aligned(s.db) && CanAct(s, w, GiveUp(now)) && j < |s.db.jobs|
    ensures var b := DbAfter(s, w, GiveUp(now)).jobs;
      |b| == |s.db.jobs| && (b[j] == s.db.jobs[j] || WorkMoves(s, w, GiveUp(now), s.db.jobs[j], b[j], j))
  {
    hide Fail, Delay;
    FailsWithDelay(s.db, s.workers[w].job, s.workers[w].attempts, s.cfg.maxAttempts, now);
  }

  lemma EndMoves(s: Sys, w: nat, a: Act, j: nat)
    requires Aligned(s.db) && CanAct(s, w, a) && (a.FinishJob? || a.CommitSupersede? || a.GiveUp?) && j < |s.db.jobs|
    ensures |DbAfter(s, w, a).jobs| == |s.db.jobs|
    ensures s.db.jobs[j] == DbAfter(s, w, a).jobs[j] || WorkMoves(s, w, a, s.db.jobs[j], DbAfter(s, w, a).jobs[j], j)
  {
    hide DbAfter, CanAct, WorkMoves;
    match a
    case FinishJob => FinishMoves(s, w, j);
    case CommitSupersede => SupersedeMoves(s, w, j);
    case GiveUp(now) => GiveUpMoves(s, w, now, j);
  }

  lemma OtherActs(s: Sys, w: nat, a: Act)
    requires Aligned(s.db) && CanAct(s, w, a)
    requires !a.ClaimJob? && !a.FinishJob? && !a.CommitSupersede? && !a.GiveUp?
    ensures DbAfter(s, w, a).jobs == s.db.jobs
  {
    hide CommitDecision, Suppress, FinishSent, FinishError, PolicyOutcome;
  }

  lemma OperationMoves(s: Sys, op: Operation, j: nat)
    requires Aligned(s.db) && CanOperate(op) && j < |s.db.jobs|
    ensures var b := Operated(s.db, op).jobs;
      |b| == |s.db.jobs| && JobMoves(s, Operate(op), s.db.jobs[j], b[j], j)
  {
    hide Operated, JobMoves;
    if op.RetryJob? {
      RetryMoves(s, op.job, op.now, j);
    } else if op.DismissJob? {
      DismissMoves(s, op.job, j);
    } else {
      OthersLeaveJobs(s.db, op);
      assert JobMoves(s, Operate(op), s.db.jobs[j], s.db.jobs[j], j) by { StandsStill(s, Operate(op), s.db.jobs[j], j); }
    }
  }

  lemma StandsStill(s: Sys, step: Step, a: Job, j: nat)
    ensures JobMoves(s, step, a, a, j)
  {}

  lemma RetryMoves(s: Sys, k: nat, now: nat, j: nat)
    requires Aligned(s.db) && j < |s.db.jobs|
    ensures var b := Operated(s.db, RetryJob(k, now)).jobs;
      |b| == |s.db.jobs| && JobMoves(s, Operate(RetryJob(k, now)), s.db.jobs[j], b[j], j)
  {
    hide Retry, Joined, WorkMoves, Next, Enabled;
    RetriesDeadLetters(s.db, k, now);
  }

  lemma DismissMoves(s: Sys, k: nat, j: nat)
    requires Aligned(s.db) && j < |s.db.jobs|
    ensures var b := Operated(s.db, DismissJob(k)).jobs;
      |b| == |s.db.jobs| && JobMoves(s, Operate(DismissJob(k)), s.db.jobs[j], b[j], j)
  {
    hide Dismiss, Joined, WorkMoves, Next, Enabled;
    DismissesDeadLetters(s.db, k);
  }

  lemma OthersLeaveJobs(db: Db, op: Operation)
    requires Aligned(db) && CanOperate(op) && !op.RetryJob? && !op.DismissJob?
    ensures Operated(db, op).jobs == db.jobs
  {
    hide CreateHumanReply, EditReview, TransitionReview, SetBotPaused, SetConversationStatus;
  }

  /** The complete transition table of a job row, over every step of the system. */
  lemma StepMovesJob(s: Sys, step: Step, j: nat)
    requires Inv(s) && Enabled(s, step) && j < |s.db.jobs|
    ensures |Next(s, step).db.jobs| >= |s.db.jobs|
    ensures JobMoves(s, step, s.db.jobs[j], Next(s, step).db.jobs[j], j)
  {
    hide Inv, WorkMoves, Joined, RecoverStale, RecoverDeliveries, Operated, DbAfter, PcAfter, CanAct, Enqueue, Webhook,
      FromInstagram;
    if Arrives(step) {
      StepArrivals(s, step);
    } else {
      match step
      case RecoverJobs(now) => RecoversExpired(s.db, s.cfg.maxAttempts, now);
      case RecoverSends(now) =>
      case Work(w, a) => ActMovesJob(s, w, a, j);
      case Operate(op) => OperationMoves(s, op, j);
    }
  }

  lemma ActMovesJob(s: Sys, w: nat, a: Act, j: nat)
    requires Aligned(s.db) && CanAct(s, w, a) && j < |s.db.jobs|
    ensures |DbAfter(s, w, a).jobs| == |s.db.jobs|
    ensures s.db.jobs[j] == DbAfter(s, w, a).jobs[j] || WorkMoves(s, w, a, s.db.jobs[j], DbAfter(s, w, a).jobs[j], j)
  {
    hide CanAct, DbAfter, WorkMoves;
    if a.ClaimJob? {
      ClaimMoves(s, w, a, j);
    } else if a.FinishJob? || a.CommitSupersede? || a.GiveUp? {
      EndMoves(s, w, a, j);
    } else {
      OtherActs(s, w, a);
    }
  }

  // ------------------------------------------------------- not before its time

  ghost predicate NobodyOn(s: Sys, j: nat) {
    forall w :: 0 <= w < |s.workers| ==> !HasJob(s, w, j)
  }

  /** A later job of the same key is served at the same time, and so instead of job `j`. */
  ghost predicate Precedes(s: Sys, n: nat, j: nat) {
    && j < n < |s.db.jobs| && s.db.jobs[n].key == s.db.jobs[j].key && s.db.jobs[n].state.Queued?
    && s.db.jobs[n].availableAt == s.db.jobs[j].availableAt && NobodyOn(s, n)
  }

  /** Job `j` is not to be claimed before time `due`: it waits that long, or a later job of its key will take its
      place, or has done so already. */
  ghost predicate Held(s: Sys, j: nat, due: nat) {
    && j < |s.db.jobs| && NobodyOn(s, j)
    && (|| s.db.jobs[j].state.Superseded?
        || (s.db.jobs[j].state.Queued? && (s.db.jobs[j].availableAt >= due || exists n :: Precedes(s, n, j))))
  }

  predicate Claims(step: Step, j: nat) {
    step.Work? && step.act.ClaimJob? && step.act.newest == j
  }

  /** Only a claim puts a worker on a job, and on the job it claims. */
  lemma NobodyStays(s: Sys, step: Step, j: nat)
    requires Inv(s) && Enabled(s, step) && NobodyOn(s, j) && !Claims(step, j)
    ensures NobodyOn(Next(s, step), j)
  {
    hide Inv, DbAfter, PcAfter, CanAct, Enqueue, Webhook, RecoverStale, RecoverDeliveries, Operated, FromInstagram;
    if step.Work? { WorkerKeepsJob(s, step.w, step.act); }
    var t := Next(s, step);
    forall w | 0 <= w < |t.workers|
      ensures !HasJob(t, w, j)
    {
      assert !HasJob(s, w, j);
    }
  }

  lemma WorkerKeepsJob(s: Sys, w: nat, a: Act)
    requires Aligned(s.db) && CanAct(s, w, a)
    ensures w < |s.workers|
    ensures var p, q := s.workers[w], PcAfter(s, w, a);
      q.OnJob? ==> (a.ClaimJob? && q.job == a.newest) || (p.OnJob? && q.job == p.job)
  {
    hide PermissionReason, CommitDecision, PolicyOutcome, Queues, Find, IsFirstAction, IsOldest, IsNewest;
  }

  /** Nobody can be on a job that does not exist yet. */
  lemma NobodyOnNew(s: Sys, j: nat)
    requires Inv(s) && j >= |s.db.jobs|
    ensures NobodyOn(s, j)
  {
    hide ConvInv, JobRows, LinkInv, DraftInv, AnswerInv, DoneInv, AuditInv, Protocol, CallsAsWritten;
    JobInvAligned(s.db);
    forall w | 0 <= w < |s.workers|
      ensures !HasJob(s, w, j)
    {
      assert PcOk(s.db.events, s.db.actions, s.workers[w]);
    }
  }

  /** An arrival either leaves a waiting job alone or puts a newer one of its key before it. */
  lemma ArrivalHolds(s: Sys, step: Step, j: nat, due: nat)
    requires Inv(s) && Enabled(s, step) && Arrives(step) && Held(s, j, due)
    ensures Held(Next(s, step), j, due)
  {
    hide Inv, NobodyOn, Joined;
    var t := Next(s, step);
    NobodyStays(s, step, j);
    StepArrivals(s, step);
    hide Next, Enabled;
    if s.db.jobs[j].state.Queued? {
      if step.debounce > 0 && Joined(s.db.jobs, t.db.jobs, s.db.jobs[j].key) {
        var n := JoinedBy(s.db.jobs, t.db.jobs, s.db.jobs[j].key);
        NobodyOnNew(s, n);
        NobodyStays(s, step, n);
        assert Precedes(t, n, j);
      } else if n :| Precedes(s, n, j) {
        NobodyStays(s, step, n);
        assert Precedes(t, n, j);
      }
    }
  }

  lemma JoinedBy(a: seq<Job>, b: seq<Job>, key: string) returns (n: nat)
    requires Joined(a, b, key)
    ensures |a| <= n < |b| && b[n].key == key
  {
    n :| |a| <= n < |b| && b[n].key == key;
  }

  /** A claim of another job leaves a waiting job alone, or batches it, in particular when it takes what precedes it. */
  lemma ClaimHolds(s: Sys, w: nat, a: Act, j: nat, due: nat)
    requires Inv(s) && Enabled(s, Work(w, a)) && a.ClaimJob? && a.newest != j && Held(s, j, due)
    ensures Held(Next(s, Work(w, a)), j, due)
  {
    hide NobodyOn, Claim, ConvInv, LinkInv, DraftInv, AnswerInv, DoneInv, AuditInv, PcInv, Protocol, CallsAsWritten,
      JobRows;
    NobodyStays(s, Work(w, a), j);
    ClaimIsOnTime(s.db, a.newest, a.now, a.until, w);
    var t := Next(s, Work(w, a));
    if s.db.jobs[j].state.Queued? && s.db.jobs[j].availableAt < due && t.db.jobs[j] == s.db.jobs[j] {
      var n :| Precedes(s, n, j);
      NobodyStays(s, Work(w, a), n);
      assert Precedes(t, n, j);
    }
  }

  /** No other step touches it. */
  lemma OtherHolds(s: Sys, step: Step, j: nat, due: nat)
    requires Inv(s) && Enabled(s, step) && !Arrives(step) && !(step.Work? && step.act.ClaimJob?) && Held(s, j, due)
    ensures Held(Next(s, step), j, due)
  {
    hide Inv, NobodyOn, Next, Enabled;
    var t := Next(s, step);
    NobodyStays(s, step, j);
    StepMovesJob(s, step, j);
    UntouchedQueued(s, step, j);
    if s.db.jobs[j].state.Queued? && s.db.jobs[j].availableAt < due {
      var n :| Precedes(s, n, j);
      NobodyStays(s, step, n);
      StepMovesJob(s, step, n);
      UntouchedQueued(s, step, n);
      assert Precedes(t, n, j);
    }
  }

  lemma UntouchedQueued(s: Sys, step: Step, j: nat)
    requires Inv(s) && Enabled(s, step) && !Arrives(step) && !(step.Work? && step.act.ClaimJob?)
    requires j < |s.db.jobs| && NobodyOn(s, j) && (s.db.jobs[j].state.Queued? || s.db.jobs[j].state.Superseded?)
    ensures j < |Next(s, step).db.jobs| && Next(s, step).db.jobs[j] == s.db.jobs[j]
  {
    hide Inv, Next, Enabled, Joined, Delay;
    StepMovesJob(s, step, j);
    assert step.Work? ==> !HasJob(s, step.w, j);
  }

  lemma StepHolds(s: Sys, step: Step, j: nat, due: nat)
    requires Inv(s) && Enabled(s, step) && Held(s, j, due) && !Claims(step, j)
    ensures Held(Next(s, step), j, due)
  {
    hide Inv, Next, Enabled, Held;
    if Arrives(step) {
      ArrivalHolds(s, step, j, due);
    } else if step.Work? && step.act.ClaimJob? {
      ClaimHolds(s, step.w, step.act, j, due);
    } else {
      OtherHolds(s, step, j, due);
    }
  }

  /** A claim of a held job comes no sooner than it is due: of two jobs that are due together, the later is claimed. */
  lemma HeldIsLate(s: Sys, w: nat, a: Act, j: nat, due: nat)
    requires Inv(s) && Enabled(s, Work(w, a)) && Claims(Work(w, a), j) && Held(s, j, due)
    ensures a.now >= due
  {
    hide Inv, NobodyOn, Claim;
    ClaimIsOnTime(s.db, a.newest, a.now, a.until, w);
  }

  lemma {:induction false} HeldAlong(ss: seq<Sys>, steps: seq<Step>, i: nat, k: nat, j: nat, due: nat)
    requires IsRun(ss, steps) && i <= k < |ss| && Held(ss[i], j, due)
    requires forall m :: i <= m < k ==> !Claims(steps[m], j)
    ensures Held(ss[k], j, due)
  {
    hide Inv, Next, Enabled, Held;
    if i < k {
      HeldAlong(ss, steps, i, k - 1, j, due);
      RunsAreSafe(ss, steps, k - 1);
      assert Enabled(ss[k - 1], steps[k - 1]) && ss[k - 1 + 1] == Next(ss[k - 1], steps[k - 1]);
      StepHolds(ss[k - 1], steps[k - 1], j, due);
    }
  }

  /** Step `k` is the first one from `i` on that claims job `j`. */
  ghost predicate FirstClaim(steps: seq<Step>, i: nat, k: nat, j: nat) {
    i <= k < |steps| && Claims(steps[k], j) && forall m :: i <= m < k ==> !Claims(steps[m], j)
  }

  lemma NotBefore(ss: seq<Sys>, steps: seq<Step>, i: nat, k: nat, j: nat, due: nat)
    requires IsRun(ss, steps) && i < |ss| && FirstClaim(steps, i, k, j) && Held(ss[i], j, due)
    ensures steps[k].act.now >= due
  {
    hide Inv, Next, Enabled, Held;
    HeldAlong(ss, steps, i, k, j, due);
    RunsAreSafe(ss, steps, k);
    assert Enabled(ss[k], steps[k]);
    HeldIsLate(ss[k], steps[k].w, steps[k].act, j, due);
  }

  /** Debounce: on every run, a message accepted at a time is claimed no sooner than the debounce after it, whatever
      arrives, fails or is recovered in between. */
  lemma DebounceHonoured(ss: seq<Sys>, steps: seq<Step>, i: nat, k: nat, j: nat)
    requires IsRun(ss, steps) && i < |steps| && Arrives(steps[i]) && |ss[i].db.jobs| <= j < |ss[i + 1].db.jobs|
    requires FirstClaim(steps, i + 1, k, j)
    ensures steps[k].act.now >= steps[i].now + steps[i].debounce
  {
    hide Inv, Next, Enabled, NobodyOn;
    RunsAreSafe(ss, steps, i);
    assert Enabled(ss[i], steps[i]) && ss[i + 1] == Next(ss[i], steps[i]);
    StepArrivals(ss[i], steps[i]);
    NobodyOnNew(ss[i], j);
    NobodyStays(ss[i], steps[i], j);
    NotBefore(ss, steps, i + 1, k, j, steps[i].now + steps[i].debounce);
  }

  /** Backoff: on every run, a job that is put back after a failed attempt is claimed no sooner than the delay for that
      attempt after the failure, provided that no late worker is still on it; whatever messages arrive, they can at
      most take its place. */
  lemma BackoffHonoured(ss: seq<Sys>, steps: seq<Step>, i: nat, k: nat, w: nat, j: nat)
    requires IsRun(ss, steps) && i < |steps| && steps[i].Work? && steps[i].act.GiveUp? && steps[i].w == w
    requires HasJob(ss[i], w, j) && ss[i].workers[w].attempts < ss[i].cfg.maxAttempts
    requires forall v :: 0 <= v < |ss[i].workers| && v != w ==> !HasJob(ss[i], v, j)
    requires FirstClaim(steps, i + 1, k, j)
    ensures steps[k].act.now >= steps[i].act.now + Delay(ss[i].workers[w].attempts)
  {
    hide Inv, Delay, Next, Enabled, Held;
    RunsAreSafe(ss, steps, i);
    var s, t, now := ss[i], ss[i + 1], steps[i].act.now;
    assert Enabled(s, steps[i]) && t == Next(s, steps[i]);
    GivesUp(s, w, now, j);
    NotBefore(ss, steps, i + 1, k, j, now + Delay(s.workers[w].attempts));
  }

  lemma GivesUp(s: Sys, w: nat, now: nat, j: nat)
    requires Enabled(s, Work(w, GiveUp(now))) && HasJob(s, w, j) && s.workers[w].attempts < s.cfg.maxAttempts
    requires forall v :: 0 <= v < |s.workers| && v != w ==> !HasJob(s, v, j)
    ensures Held(Next(s, Work(w, GiveUp(now))), j, now + Delay(s.workers[w].attempts))
  {
    hide Fail, Delay;
    FailsWithDelay(s.db, j, s.workers[w].attempts, s.cfg.maxAttempts, now);
    var t := Next(s, Work(w, GiveUp(now)));
    assert t.workers == s.workers[w := Idle];
    forall v | 0 <= v < |t.workers|
      ensures !HasJob(t, v, j)
    {
      if v != w {
        assert !HasJob(s, v, j);
      }
    }
  }

  /** A worker that outlived its lease is on the job that another worker has claimed for its second attempt. */
  lemma LateOnSecond(s0: Sys) returns (steps: seq<Step>, t: Sys)
    requires Initial(s0) && |s0.workers| >= 2 && s0.cfg.maxAttempts >= 3
    ensures After(s0, steps) == Some(t) && Inv(t) && Aligned(t.db) && t.cfg == s0.cfg
    ensures HasStage(t, 0, 0, 1, Stage.Claimed) && HasStage(t, 1, 0, 2, Stage.Claimed)
    ensures |t.db.jobs| == 1
  {
    hide Inv, Next, Enabled, After, Claim, RecoverStale, Grows, JobRows, IsOldest, IsNewest;
    var m := Inbound(Channel.Local, "m1", "customer", "desk", "hello", "local:customer");
    assert Keyed(m) by { assert m.key[..|"local:"|] == "local:"; }
    steps, t := LateWorker.FirstClaimed(s0, m);
    JobSteps.FetchStep(t, 0, 0, 1);
    steps, t := Take(s0, steps, t, Work(0, FetchJob));
    LateWorker.InvJobs(t);
    LateWorker.OnlyRecovery(t.db, t.cfg.maxAttempts, 1);
    JobSteps.RecoverStep(t, 1);
    steps, t := Take(s0, steps, t, RecoverJobs(1));
    LateWorker.OnlyJob(t.db.jobs, 1);
    LateWorker.OnlyClaim(t.db, 1, 1, 1);
    JobSteps.ClaimStep(t, 1, 0, 0, 1, 1);
    steps, t := Take(s0, steps, t, Work(1, ClaimJob(0, 0, 1, 1)));
    JobSteps.FetchStep(t, 1, 0, 2);
    steps, t := Take(s0, steps, t, Work(1, FetchJob));
  }

  /** The proviso is needed: the second attempt fails at time 1 and is to wait ten seconds, the late worker fails the
      same job right after it, for the first attempt that it was handed, and the job is claimed at time 6. */
  lemma LateFailureShortens(s0: Sys) returns (steps: seq<Step>, s: Sys, late: Sys, after: Sys)
    requires Initial(s0) && |s0.workers| >= 2 && s0.cfg.maxAttempts >= 3
    ensures After(s0, steps) == Some(s) && HasJob(s, 1, 0) && s.workers[1].attempts == 2 < s.cfg.maxAttempts
    ensures Enabled(s, Work(1, GiveUp(1))) && late == Next(s, Work(1, GiveUp(1)))
    ensures Enabled(late, Work(0, GiveUp(1))) && after == Next(late, Work(0, GiveUp(1)))
    ensures Enabled(after, Work(1, ClaimJob(0, 0, 6, 7))) && 6 < 1 + Delay(2)
  {
    hide Inv, Next, Enabled, After, Fail, Grows;
    steps, s := LateOnSecond(s0);
    JobSteps.GiveUpStep(s, 1, 0, 2, Stage.Claimed, 1);
    FailsWithDelay(s.db, 0, 2, s.cfg.maxAttempts, 1);
    var more;
    more, late := Take(s0, steps, s, Work(1, GiveUp(1)));
    JobSteps.GiveUpStep(late, 0, 0, 1, Stage.Claimed, 1);
    FailsWithDelay(late.db, 0, 1, late.cfg.maxAttempts, 1);
    more, after := Take(s0, more, late, Work(0, GiveUp(1)));
    LateWorker.OnlyJob(after.db.jobs, 6);
    JobSteps.ClaimStep(after, 1, 0, 0, 6, 7);
  }

  /** The lease of a job in progress holds: until it has run out, only a worker that was handed the job, late or not,
      changes anything about it. */
  lemma LeaseHolds(s: Sys, step: Step, j: nat)
    requires Inv(s) && Enabled(s, step) && j < |s.db.jobs| && s.db.jobs[j].state.Processing?
    requires j < |Next(s, step).db.jobs| && Next(s, step).db.jobs[j] != s.db.jobs[j]
    ensures s.db.jobs[j].lease.Some?
    ensures || (step.RecoverJobs? && s.db.jobs[j].lease.value <= step.now)
            || (step.Work? && HasJob(s, step.w, j))
  {
    hide ConvInv, LinkInv, DraftInv, AnswerInv, DoneInv, AuditInv, PcInv, Protocol, CallsAsWritten, Next, Delay, Joined;
    StepMovesJob(s, step, j);
    assert JobOk(s.db.jobs[j], s.db.status[j]);
  }

  /** The same of a delivery in flight: until its lease has run out, only the worker that took it changes anything about
      it. */
  lemma SendLeaseHolds(s: Sys, step: Step, d: nat)
    requires Inv(s) && Enabled(s, step) && d < |s.db.deliveries| && s.db.deliveries[d].status.Sending?
    requires d < |Next(s, step).db.deliveries| && Next(s, step).db.deliveries[d] != s.db.deliveries[d]
    ensures || (step.RecoverSends? && s.db.deliveries[d].lease.Some? && s.db.deliveries[d].lease.value <= step.now)
            || (step.Work? && step.w < |s.workers| && s.workers[step.w].OnDelivery?
                && s.workers[step.w].delivery == d)
  {
    hide Inv, Enqueue, Webhook, RecoverStale, RecoverDeliveries, CanAct, DbAfter, PcAfter, FromInstagram, Operated;
    match step
    case Work(w, a) => ActOnDelivery(s, w, a, d);
    case RecoverSends(now) => DeliveryRules.RecoversSends(s.db, now);
    case Operate(op) => OperatorsLeave(s, op, d);
    case _ =>
  }

  lemma ActOnDelivery(s: Sys, w: nat, a: Act, d: nat)
    requires Inv(s) && CanAct(s, w, a) && d < |s.db.deliveries| && s.db.deliveries[d].status.Sending?
    ensures w < |s.workers| && d < |DbAfter(s, w, a).deliveries|
    ensures DbAfter(s, w, a).deliveries[d] == s.db.deliveries[d]
            || (s.workers[w].OnDelivery? && s.workers[w].delivery == d)
  {
    hide Inv, CanAct, DbAfter;
    InvAligned(s);
    if a.CommitAnswer? {
      CommitLeaves(s, w, a);
    } else if a.Withhold? || a.RecordSent? || a.RecordError? {
      SettlesOwn(s, w, a, d);
    } else {
      OthersLeave(s, w, a, d);
    }
  }

  lemma SettlesOwn(s: Sys, w: nat, a: Act, d: nat)
    requires Aligned(s.db) && CanAct(s, w, a) && d < |s.db.deliveries| && (a.Withhold? || a.RecordSent? || a.RecordError?)
    ensures w < |s.workers| && |DbAfter(s, w, a).deliveries| == |s.db.deliveries|
    ensures DbAfter(s, w, a).deliveries[d] == s.db.deliveries[d]
            || (s.workers[w].OnDelivery? && s.workers[w].delivery == d)
  {
    hide Suppress, FinishSent, FinishError;
  }

  lemma OthersLeave(s: Sys, w: nat, a: Act, d: nat)
    requires Aligned(s.db) && CanAct(s, w, a) && d < |s.db.deliveries| && s.db.deliveries[d].status.Sending?
    requires !a.CommitAnswer? && !a.Withhold? && !a.RecordSent? && !a.RecordError?
    ensures w < |s.workers| && |DbAfter(s, w, a).deliveries| == |s.db.deliveries|
    ensures DbAfter(s, w, a).deliveries[d] == s.db.deliveries[d]
  {
    hide CanAct, DbAfter;
    if a.TakeDelivery? {
      TakesAnother(s, w, a, d);
    } else {
      NoDeliveryWritten(s, w, a);
    }
  }

  lemma TakesAnother(s: Sys, w: nat, a: Act, d: nat)
    requires Aligned(s.db) && CanAct(s, w, a) && d < |s.db.deliveries| && s.db.deliveries[d].status.Sending?
    requires a.TakeDelivery?
    ensures w < |s.workers| && |DbAfter(s, w, a).deliveries| == |s.db.deliveries|
    ensures DbAfter(s, w, a).deliveries[d] == s.db.deliveries[d]
  {}

  lemma NoDeliveryWritten(s: Sys, w: nat, a: Act)
    requires Aligned(s.db) && CanAct(s, w, a) && !a.TakeDelivery?
    requires !a.CommitAnswer? && !a.Withhold? && !a.RecordSent? && !a.RecordError?
    ensures w < |s.workers| && DbAfter(s, w, a).deliveries == s.db.deliveries
  {
    hide Claim, Fail, Complete, Supersede, Find, IsOldest, IsNewest, IsFirstAction;
  }

  lemma CommitLeaves(s: Sys, w: nat, a: Act)
    requires Inv(s) && CanAct(s, w, a) && a.CommitAnswer?
    ensures w < |s.workers| && s.db.deliveries <= DbAfter(s, w, a).deliveries
  {
    hide ConvInv, JobRows, AnswerInv, DoneInv, AuditInv, PcInv, Protocol, CallsAsWritten, CommitDecision,
      PolicyOutcome, LinkInv, DraftInv;
    JobInvAligned(s.db);
    var p, db := s.workers[w], s.db;
    var outcome := PolicyOutcome(db, p, a.facts);
    if CommitDecision(db, s.cfg, p.job, p.stage.decision, outcome, p.stage.mode, a.now).Some? {
      CommitDeliveries(db, s.cfg, p.job, p.stage.decision, outcome, p.stage.mode, a.now);
    }
  }

  lemma OperatorsLeave(s: Sys, op: Operation, d: nat)
    requires Inv(s) && CanOperate(op) && d < |s.db.deliveries|
    ensures d < |Operated(s.db, op).deliveries| && Operated(s.db, op).deliveries[d] == s.db.deliveries[d]
  {
    hide ConvInv, JobRows, DraftInv, AnswerInv, DoneInv, AuditInv, PcInv, Protocol, CallsAsWritten, LinkInv,
      TransitionReview, EditReview, Retry, Dismiss, SetBotPaused, SetConversationStatus, CreateHumanReply;
    JobInvAligned(s.db);
    if op.Reply? && CreateHumanReply(s.db, op.conv, op.text, op.now).Some? {
      ReplyDeliveries(s.db, op.conv, op.text, op.now);
    }
  }

  /** A worker that looks for a newer message sees every one that has come, the very next one included. */
  lemma OvertakenExactly(s: Sys, w: nat)
    requires Inv(s) && Enabled(s, Work(w, CheckNewer))
    ensures var j, t := s.workers[w].job, Next(s, Work(w, CheckNewer));
      && w < |t.workers| && t.workers[w].OnJob? && j < |s.db.events|
      && (t.workers[w].stage.Overtaken? <==>
            exists i :: j < i < |s.db.events| && s.db.events[i].conv == s.db.events[j].conv)
  {
    hide ConvInv, JobRows, DraftInv, AnswerInv, DoneInv, AuditInv, Protocol, CallsAsWritten, LinkInv;
    assert PcOk(s.db.events, s.db.actions, s.workers[w]);
  }

  // ------------------------------------------------------------------ bursts

  /** Until a burst is due, no claim touches any of its jobs. */
  lemma BurstWaits(db: Db, m: Inbound, now: nat, debounce: nat, x: nat, later: nat, until: nat, w: nat)
    requires Aligned(db) && debounce > 0 && Enqueue(db, m, now, debounce).Some? && later < now + debounce
    requires Enqueue(db, m, now, debounce).value.created
    requires ClaimsFrom(Enqueue(db, m, now, debounce).value.db, x, later)
    ensures var mid := Enqueue(db, m, now, debounce).value.db;
      && Aligned(mid)
      && var jobs := Claim(mid, x, later, until, w).jobs;
         forall j :: 0 <= j < |mid.jobs| && mid.jobs[j].key == m.key && mid.jobs[j].state.Queued? ==>
           j < |jobs| && jobs[j] == mid.jobs[j]
  {
    hide Enqueue, Claim;
    EnqueueMeans(db, m, now, debounce);
    var r := Enqueue(db, m, now, debounce).value;
    AcceptedJoins(db, r.db, m, r.event, now, debounce);
    ClaimIsOnTime(r.db, x, later, until, w);
  }
}
