/** The audit log replays to the tables: the last entry about a job, review or delivery names its current state. */
module AuditInvariant {
  import opened Types
  import opened WorkspaceModel
  import opened QueueModel
  import opened DeliveryModel
  import opened WorkerModel
  import opened System
  import opened LinkInvariant
  import QueueInvariant
  import Text

  function LastJob(log: seq<Entry>, j: nat): JobState {
    if log == [] then Queued
    else
      var x := log[|log| - 1];
      if x.JobEntry? && x.job == j then x.outcome else LastJob(log[..|log| - 1], j)
  }

  function LastReview(log: seq<Entry>, r: nat): Option<ReviewStatus> {
    if log == [] then None
    else
      var x := log[|log| - 1];
      if x.ReviewEntry? && x.review == r then Some(x.result) else LastReview(log[..|log| - 1], r)
  }

  /** Entries about ignored duplicates are skipped. */
  function LastDelivery(log: seq<Entry>, d: nat): Option<DeliveryStatus> {
    if log == [] then None
    else
      var x := log[|log| - 1];
      if x.DeliveryEntry? && x.delivery == d then Some(x.status) else LastDelivery(log[..|log| - 1], d)
  }

  /** Claiming a delivery is the one transition that leaves no entry. */
  function Shown(status: DeliveryStatus): DeliveryStatus {
    if status.Sending? then Waiting else status
  }

  ghost predicate JobLog(log: seq<Entry>, jobs: seq<Job>) {
    forall j: nat :: LastJob(log, j) == if j < |jobs| then jobs[j].state else Queued
  }

  ghost predicate ReviewLog(log: seq<Entry>, reviews: map<nat, Review>) {
    forall r: nat :: LastReview(log, r) == if r in reviews then Some(reviews[r].status) else None
  }

  ghost predicate DeliveryLog(log: seq<Entry>, deliveries: seq<Delivery>) {
    forall d: nat :: d < |deliveries| ==> LastDelivery(log, d) == Some(Shown(deliveries[d].status))
  }

  ghost predicate AuditInv(db: Db) {
    JobLog(db.audit, db.jobs) && ReviewLog(db.audit, db.reviews) && DeliveryLog(db.audit, db.deliveries)
  }

  lemma Append(log: seq<Entry>, x: Entry)
    ensures forall j: nat ::
      LastJob(log + [x], j) == if x.JobEntry? && x.job == j then x.outcome else LastJob(log, j)
    ensures forall r: nat ::
      LastReview(log + [x], r) == if x.ReviewEntry? && x.review == r then Some(x.result) else LastReview(log, r)
    ensures forall d: nat ::
      LastDelivery(log + [x], d) == if x.DeliveryEntry? && x.delivery == d then Some(x.status) else LastDelivery(log, d)
  {
    assert (log + [x])[..|log|] == log;
  }

  // -------------------------------------------------------- single entries

  lemma LogJobLogged(db: Db, w: JobWrite)
    requires AuditInv(db) && w.job < |db.jobs| && db.jobs[w.job].event < |db.status|
    ensures AuditInv(LogJob(db, w))
  {
    Append(db.audit, JobEntry(w.job, w.row.state));
  }

  lemma {:induction false} LogJobsLogged(db: Db, ws: seq<JobWrite>)
    requires AuditInv(db) && WritesFit(db, ws)
    ensures AuditInv(LogJobs(db, ws))
  {
    if ws != [] {
      var n := |ws| - 1;
      LogJobsLogged(db, ws[..n]);
      LogJobLogged(LogJobs(db, ws[..n]), ws[n]);
    }
  }

  /** An entry about a review or delivery, together with the row it describes. */
  lemma ReviewLogged(db: Db, r: nat, review: Review)
    requires AuditInv(db)
    ensures AuditInv(db.(reviews := db.reviews[r := review], audit := db.audit + [ReviewEntry(r, review.status)]))
  {
    Append(db.audit, ReviewEntry(r, review.status));
  }

  lemma DeliveryLogged(db: Db, d: nat, row: Delivery)
    requires AuditInv(db) && d < |db.deliveries| && !row.status.Sending?
    ensures AuditInv(db.(deliveries := db.deliveries[d := row], audit := db.audit + [DeliveryEntry(d, row.status)]))
  {
    Append(db.audit, DeliveryEntry(d, row.status));
  }

  lemma NewDeliveryLogged(db: Db, row: Delivery)
    requires AuditInv(db) && !row.status.Sending?
    ensures AuditInv(db.(deliveries := db.deliveries + [row],
                         audit := db.audit + [DeliveryEntry(|db.deliveries|, row.status)]))
  {
    Append(db.audit, DeliveryEntry(|db.deliveries|, row.status));
  }

  /** An entry that the replay ignores. */
  lemma OtherLogged(db: Db, x: Entry)
    requires AuditInv(db) && (x.EventEntry? || x.DuplicateDelivery? || x.WebhookEntry?)
    ensures AuditInv(db.(audit := db.audit + [x]))
  {
    Append(db.audit, x);
  }

  // ------------------------------------------------------ each transaction

  lemma EscalationLogged(db: Db, action: nat, c: nat)
    requires AuditInv(db)
    ensures AuditInv(EnsureEscalation(db, action, c))
  {
    if action !in db.reviews {
      ReviewLogged(db, action, Review(Escalation, Pending, "", 1));
    }
  }

  /** Settling a row, escalating or not, and logging the row last. */
  lemma SettledLogged(db: Db, d: nat, row: Delivery, after: Db)
    requires AuditInv(db) && d < |db.deliveries| && !row.status.Sending?
    requires after.deliveries == db.deliveries[d := row] && after.jobs == db.jobs
    requires after.reviews == db.reviews && after.audit == db.audit + [DeliveryEntry(d, row.status)]
    ensures AuditInv(after)
  {
    DeliveryLogged(db, d, row);
  }

  lemma FinishErrorLogged(db: Db, d: nat, n: nat, ambiguous: bool)
    requires AuditInv(db) && d < |db.deliveries| && FinishError(db, d, n, ambiguous).Some?
    ensures AuditInv(FinishError(db, d, n, ambiguous).value)
  {
    var row := Settled(db.deliveries[d], if ambiguous then Unknown else Failed);
    var t := row.intent;
    EscalationLogged(db, t.action, t.conv);
    SettledLogged(EnsureEscalation(db, t.action, t.conv), d, row, FinishError(db, d, n, ambiguous).value);
  }

  lemma RecoverLogged(db: Db, d: nat)
    requires AuditInv(db) && d < |db.deliveries|
    ensures AuditInv(RecoverDelivery(db, d))
  {
    var row := Settled(db.deliveries[d], Unknown);
    var t := row.intent;
    EscalationLogged(db, t.action, t.conv);
    SettledLogged(EnsureEscalation(db, t.action, t.conv), d, row, RecoverDelivery(db, d));
  }

  lemma {:induction false} RecoverAllLogged(db: Db, ids: seq<nat>)
    requires AuditInv(db) && forall k :: 0 <= k < |ids| ==> ids[k] < |db.deliveries|
    ensures AuditInv(RecoverAll(db, ids))
  {
    if ids != [] {
      var n := |ids| - 1;
      RecoverAllLogged(db, ids[..n]);
      RecoverLogged(RecoverAll(db, ids[..n]), ids[n]);
    }
  }

  lemma SuppressLogged(db: Db, d: nat)
    requires AuditInv(db) && d < |db.deliveries| && Suppress(db, d).Some?
    ensures AuditInv(Suppress(db, d).value)
  {
    var row := Settled(db.deliveries[d], Withheld);
    var t := row.intent;
    var after := Suppress(db, d).value;
    if t.author.Agent? && t.action !in db.reviews {
      var review := Review(Draft, Pending, t.text, 1);
      ReviewLogged(db, t.action, review);
      SettledLogged(db.(reviews := db.reviews[t.action := review], audit := db.audit + [ReviewEntry(t.action, Pending)]),
                    d, row, after);
    } else {
      SettledLogged(db, d, row, after);
    }
  }

  lemma FinishSentLogged(db: Db, d: nat, n: nat)
    requires AuditInv(db) && d < |db.deliveries| && FinishSent(db, d, n).Some?
    ensures AuditInv(FinishSent(db, d, n).value)
  {
    SettledLogged(db, d, Settled(db.deliveries[d], Sent), FinishSent(db, d, n).value);
  }

  lemma ClaimDeliveryLogged(db: Db, d: nat, until: nat, w: nat)
    requires AuditInv(db) && d < |db.deliveries| && db.deliveries[d].status.Waiting?
    ensures AuditInv(ClaimDelivery(db, d, until, w))
  {}

  lemma QueuedLogged(db: Db, t: Intent, now: nat)
    requires AuditInv(db) && EnqueueDelivery(db, Instagram, t, now).Some?
    ensures AuditInv(EnqueueDelivery(db, Instagram, t, now).value)
  {
    var known := FindDelivery(db.deliveries, t.action);
    if known.Some? {
      OtherLogged(db, DuplicateDelivery(known.value));
    } else {
      NewDeliveryLogged(db, NewDelivery(t.(text := Text.Strip(t.text)), now));
    }
  }

  lemma CommitLogged(db: Db, cfg: Config, j: nat, d: Decision, outcome: Outcome, mode: Mode, now: nat)
    requires AuditInv(db) && Aligned(db) && j < |db.jobs|
    requires CommitDecision(db, cfg, j, d, outcome, mode, now).Some?
    ensures AuditInv(CommitDecision(db, cfg, j, d, outcome, mode, now).value)
  {
    hide CommitDecision, EnqueueDelivery, Queues;
    var e, a := db.events[j], |db.actions|;
    var db1 := RecordDecision(db, j, Intended(d), outcome, now);
    CommitShape(db, cfg, j, d, outcome, mode, now);
    if Queues(db, cfg, j, outcome, mode) {
      QueuedLogged(db1, Intent(a, e.conv, e.msg.recipient, e.msg.sender, d.text, Agent), now);
    } else if !(Intended(d).NoAction? && outcome.Ignored?) {
      ReviewLogged(db1, a, Review(if d.text != "" then Draft else Escalation, Pending, d.text, 1));
    }
  }

  lemma ReplyLogged(db: Db, c: nat, text: string, now: nat)
    requires AuditInv(db) && CreateHumanReply(db, c, text, now).Some?
    ensures AuditInv(CreateHumanReply(db, c, text, now).value)
  {
    hide EnqueueDelivery;
    var e := LatestEvent(db.events, c).value;
    var a := |db.actions|;
    var db1 := db.(actions := db.actions + [Action(e, e, HumanReply, Human, now)],
                   actionStates := db.actionStates[a := AwaitingDelivery], policies := db.policies[a := Allowed]);
    QueuedLogged(db1, Intent(a, c, db.accounts[db.convs[c].account].external, db.convs[c].customer,
                             Text.Strip(text), Human), now);
  }

  lemma EditLogged(db: Db, r: nat, text: string)
    requires AuditInv(db) && EditReview(db, r, text).Edited?
    ensures AuditInv(EditReview(db, r, text).db)
  {
    var review := EditReview(db, r, text).db.reviews[r];
    ReviewLogged(db, r, review);
  }

  lemma TransitionLogged(db: Db, r: nat, target: ReviewStatus)
    requires AuditInv(db) && !target.Pending? && TransitionReview(db, r, target).Moved?
    ensures AuditInv(TransitionReview(db, r, target).db)
  {
    hide HasPending;
    ReviewLogged(db, r, db.reviews[r].(status := target));
  }

  /** New jobs start queued, which is also what the log says of a job it has never mentioned. */
  lemma EventLogged(db: Db, x: Entry, jobs: seq<Job>)
    requires AuditInv(db) && x.EventEntry? && |jobs| >= |db.jobs|
    requires forall j :: 0 <= j < |jobs| ==>
      jobs[j].state == if j < |db.jobs| then db.jobs[j].state else Queued
    ensures AuditInv(db.(jobs := jobs, audit := db.audit + [x]))
  {
    Append(db.audit, x);
  }

  lemma EnqueueLogged(db: Db, m: Inbound, now: nat, debounce: nat)
    requires AuditInv(db) && Aligned(db) && Enqueue(db, m, now, debounce).Some?
    ensures AuditInv(Enqueue(db, m, now, debounce).value.db)
  {
    hide EnsureConversation, AuditInv;
    var known := FindEvent(db.events, m.channel, m.mid);
    if known.Some? {
      OtherLogged(db, EventEntry(known.value, false));
    } else {
      var added := db.jobs + [NewJob(|db.events|, m.key, now, now + debounce)];
      var jobs := if debounce > 0 then Postpone(added, m.key, now + debounce) else added;
      EventLogged(db, EventEntry(|db.events|, true), jobs);
      SameLog(db.(jobs := jobs, audit := db.audit + [EventEntry(|db.events|, true)]),
              Enqueue(db, m, now, debounce).value.db);
    }
  }

  lemma SameLog(before: Db, after: Db)
    requires AuditInv(before) && after.audit == before.audit && after.jobs == before.jobs
    requires after.reviews == before.reviews && after.deliveries == before.deliveries
    ensures AuditInv(after)
  {}

  lemma {:induction false} EnqueueAllLogged(db: Db, msgs: seq<Inbound>, now: nat, debounce: nat)
    requires AuditInv(db) && QueueInvariant.JobInv(db) && EnqueueAll(db, msgs, now, debounce).Some?
    ensures var after := EnqueueAll(db, msgs, now, debounce).value.db;
      AuditInv(after) && QueueInvariant.JobInv(after)
  {
    hide Enqueue, AuditInv, QueueInvariant.JobRows;
    if msgs != [] {
      var n := |msgs| - 1;
      EnqueueAllLogged(db, msgs[..n], now, debounce);
      var before := EnqueueAll(db, msgs[..n], now, debounce).value.db;
      QueueInvariant.EnqueueKeepsJobs(before, msgs[n], now, debounce);
      assert Aligned(before) by { QueueInvariant.JobInvAligned(before); }
      EnqueueLogged(before, msgs[n], now, debounce);
    }
  }

  lemma WebhookLogged(db: Db, digest: string, msgs: seq<Inbound>, ignored: nat, now: nat, debounce: nat)
    requires AuditInv(db) && QueueInvariant.JobInv(db)
    ensures AuditInv(OrElse(Webhook(db, digest, msgs, ignored, now, debounce), db))
  {
    hide EnqueueAll, AuditInv;
    if HasReceipt(db.receipts, digest) {
      OtherLogged(db, WebhookEntry(digest, false));
    } else if EnqueueAll(db, msgs, now, debounce).Some? {
      EnqueueAllLogged(db, msgs, now, debounce);
      var mid := EnqueueAll(db, msgs, now, debounce).value.db;
      OtherLogged(mid, WebhookEntry(digest, true));
      SameLog(mid.(audit := mid.audit + [WebhookEntry(digest, true)]),
              Webhook(db, digest, msgs, ignored, now, debounce).value);
    }
  }

  // ------------------------------------------------------------- every step

  predicate WritesJob(a: Act) {
    a.ClaimJob? || a.FinishJob? || a.CommitSupersede? || a.GiveUp?
  }

  lemma ClaimLogged(db: Db, j: nat, now: nat, until: nat, w: nat)
    requires AuditInv(db) && Aligned(db) && j < |db.jobs|
    ensures AuditInv(Claim(db, j, now, until, w))
  {
    hide AuditInv, LogJobs;
    var ids := DueOthers(db.jobs, db.jobs[j].key, now, j, |db.jobs|);
    LogJobsLogged(db, BatchWrites(db.jobs, ids, j));
    LogJobLogged(Batched(db, j, now), ClaimWrite(db.jobs, j, until, w));
  }

  lemma FailLogged(db: Db, j: nat, attempts: nat, max: nat, now: nat)
    requires AuditInv(db) && Aligned(db) && j < |db.jobs|
    ensures AuditInv(Fail(db, j, attempts, max, now))
  {
    hide AuditInv;
    var terminal := attempts >= max;
    LogJobLogged(db, JobWrite(j, Released(db.jobs[j], if terminal then DeadLetter else Queued).(
                                availableAt := if terminal then now else now + Backoff(attempts)),
                              Some(if terminal then EvFailed else EvRetrying)));
  }

  lemma LeaveLogged(db: Db, j: nat, successor: Option<nat>)
    requires AuditInv(db) && Aligned(db) && j < |db.jobs|
    ensures AuditInv(Complete(db, j)) && AuditInv(Supersede(db, j, successor))
  {
    hide AuditInv;
    LogJobLogged(db, JobWrite(j, Released(db.jobs[j], Completed), Some(EvProcessed)));
    LogJobLogged(db, JobWrite(j, Released(db.jobs[j], Superseded).(successor := successor), Some(EvBatched)));
  }

  lemma JobActLogged(s: Sys, w: nat, a: Act)
    requires AuditInv(s.db) && Aligned(s.db) && CanAct(s, w, a) && WritesJob(a)
    ensures AuditInv(DbAfter(s, w, a))
  {
    hide AuditInv, Claim, Fail, Complete, Supersede, IsOldest;
    var p, db := s.workers[w], s.db;
    match a
    case ClaimJob(oldest, newest, now, until) => ClaimLogged(db, newest, now, until, w);
    case FinishJob => LeaveLogged(db, p.job, None);
    case CommitSupersede => LeaveLogged(db, p.job, p.stage.successor);
    case GiveUp(now) => FailLogged(db, p.job, p.attempts, s.cfg.maxAttempts, now);
  }

  lemma ActLogged(s: Sys, w: nat, a: Act)
    requires AuditInv(s.db) && Aligned(s.db) && CanAct(s, w, a)
    ensures AuditInv(DbAfter(s, w, a))
  {
    hide AuditInv, CommitDecision, Suppress, FinishSent, FinishError, ClaimDelivery, PermissionReason, Claim, Fail,
      Complete, Supersede, IsOldest, IsNewest, IsFirstAction, PolicyOutcome;
    var p, db := s.workers[w], s.db;
    match a
    case CommitAnswer(f, now) =>
      var outcome := PolicyOutcome(db, p, f);
      if CommitDecision(db, s.cfg, p.job, p.stage.decision, outcome, p.stage.mode, now).Some? {
        CommitLogged(db, s.cfg, p.job, p.stage.decision, outcome, p.stage.mode, now);
      }
    case Record => SameLog(db, DbAfter(s, w, a));
    case TakeDelivery(next, now, until) => ClaimDeliveryLogged(db, next, until, w);
    case Withhold => if Suppress(db, p.delivery).Some? { SuppressLogged(db, p.delivery); }
    case RecordSent =>
      if FinishSent(db, p.delivery, p.attempt).Some? { FinishSentLogged(db, p.delivery, p.attempt); }
    case RecordError =>
      if FinishError(db, p.delivery, p.attempt, p.leg.ambiguous).Some? {
        FinishErrorLogged(db, p.delivery, p.attempt, p.leg.ambiguous);
      }
    case _ => if WritesJob(a) { JobActLogged(s, w, a); }
  }

  lemma RetryLogged(db: Db, j: nat, now: nat)
    requires AuditInv(db) && Aligned(db)
    ensures AuditInv(OrElse(Retry(db, j, now), db)) && AuditInv(OrElse(Dismiss(db, j), db))
  {
    hide AuditInv, LogJob;
    if j < |db.jobs| && db.jobs[j].state.DeadLetter? {
      LogJobLogged(db, JobWrite(j, Released(db.jobs[j], Queued).(attempts := 0, availableAt := now), Some(EvQueued)));
      LogJobLogged(db, JobWrite(j, db.jobs[j].(state := Dismissed), Some(EvDismissed)));
    }
  }

  lemma OperationLogged(db: Db, op: Operation)
    requires AuditInv(db) && Aligned(db) && CanOperate(op)
    ensures AuditInv(Operated(db, op))
  {
    hide AuditInv, CreateHumanReply, EditReview, TransitionReview, Retry, Dismiss, SetBotPaused, SetConversationStatus;
    match op
    case RetryJob(j, now) => RetryLogged(db, j, now);
    case DismissJob(j) => RetryLogged(db, j, 0);
    case Reply(c, text, now) => if CreateHumanReply(db, c, text, now).Some? { ReplyLogged(db, c, text, now); }
    case SetPaused(c, paused) =>
      SameLog(db, SetBotPaused(db, c, paused));
    case SetConvStatus(c, status) =>
      SameLog(db, SetConversationStatus(db, c, status));
    case SetMode(mode) => SameLog(db, db.(mode := mode));
    case Edit(r, text) => if EditReview(db, r, text).Edited? { EditLogged(db, r, text); }
    case Transition(r, target) =>
      if TransitionReview(db, r, target).Moved? { TransitionLogged(db, r, target); }
  }

  lemma StepLogged(s: Sys, step: Step)
    requires AuditInv(s.db) && QueueInvariant.JobInv(s.db) && Enabled(s, step)
    ensures AuditInv(Next(s, step).db)
  {
    hide AuditInv, Enqueue, Webhook, DbAfter, PcAfter, Operated, LogJobs;
    match step
    case Ingest(m, now, debounce) =>
      if Enqueue(s.db, m, now, debounce).Some? { EnqueueLogged(s.db, m, now, debounce); }
    case Post(digest, msgs, ignored, now, debounce) => WebhookLogged(s.db, digest, msgs, ignored, now, debounce);
    case RecoverJobs(now) =>
      LogJobsLogged(s.db, RecoverWrites(s.db.jobs, StaleJobs(s.db.jobs, now, |s.db.jobs|), s.cfg.maxAttempts, now));
    case RecoverSends(now) =>
      RecoverAllLogged(s.db, ExpiredDeliveries(s.db.deliveries, now, |s.db.deliveries|));
    case Work(w, a) => ActLogged(s, w, a);
    case Operate(op) => OperationLogged(s.db, op);
  }
}
