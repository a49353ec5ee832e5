/** The invariant of the whole system, kept by every step of every run whatever the interleaving. */
module Safety {
  import opened Types
  import opened Text
  import opened WorkspaceModel
  import opened QueueModel
  import opened DeliveryModel
  import opened WorkerModel
  import opened System
  import opened QueueInvariant
  import opened LinkInvariant
  import opened AnswerInvariant
  import opened AuditInvariant
  import ProtocolInvariant
  import Policy

  ghost predicate Convs(db: Db) {
    ConvInv(db.events, db.convs, db.accounts)
  }

  /** Every call of `send_text` used exactly what its delivery row says. */
  ghost predicate CallsAsWritten(sends: seq<SendCall>, deliveries: seq<Delivery>) {
    forall i :: 0 <= i < |sends| ==>
      && sends[i].delivery < |deliveries|
      && var t := deliveries[sends[i].delivery].intent;
         sends[i] == SendCall(sends[i].delivery, t.account, t.customer, t.text)
  }

  ghost predicate Protocol(s: Sys) {
    ProtocolInvariant.ProtocolInv(ProtocolInvariant.ProtocolOf(s))
  }

  ghost predicate Inv(s: Sys) {
    && Convs(s.db) && JobInv(s.db) && LinkInv(s.db) && DraftInv(s.db.reviews, s.db.revisions)
    && Answers(s.db) && DoneInv(s.db.jobs, s.db.actions) && AuditInv(s.db)
    && PcInv(s) && Protocol(s) && CallsAsWritten(s.sends, s.db.deliveries)
    && s.cfg.maxAttempts >= 1
  }

  lemma InitialInv(s: Sys)
    requires Initial(s)
    ensures Inv(s)
  {
    assert ProtocolInvariant.RowsTrue(ProtocolInvariant.ProtocolOf(s));
    assert forall w :: 0 <= w < |s.workers| ==> s.workers[w] == Idle;
  }

  // ------------------------------------------------------------ conversations

  /** What a transaction other than an insertion may do to conversations: rewrite status and pause flags. */
  predicate SameIdentity(a: Conversation, b: Conversation) {
    a.channel == b.channel && a.key == b.key && a.account == b.account && a.customer == b.customer
  }

  ghost predicate SameConvs(a: seq<Conversation>, b: seq<Conversation>) {
    |a| == |b| && forall c :: 0 <= c < |a| ==> SameIdentity(a[c], b[c])
  }

  /** No conversation is unpaused. */
  ghost predicate PausesKept(a: seq<Conversation>, b: seq<Conversation>) {
    |a| <= |b| && forall c :: 0 <= c < |a| && a[c].paused ==> b[c].paused
  }

  lemma SameConvsKeep(before: Db, after: Db)
    requires Convs(before) && after.events == before.events && after.accounts == before.accounts
    requires SameConvs(before.convs, after.convs)
    ensures Convs(after)
  {
    assert forall c :: 0 <= c < |after.convs| ==> SameIdentity(before.convs[c], after.convs[c]);
  }

  lemma {:induction false} RecoverAllConvs(db: Db, ids: seq<nat>)
    requires forall k :: 0 <= k < |ids| ==> ids[k] < |db.deliveries|
    ensures SameConvs(db.convs, RecoverAll(db, ids).convs) && PausesKept(db.convs, RecoverAll(db, ids).convs)
  {
    if ids != [] {
      RecoverAllConvs(db, ids[..|ids| - 1]);
    }
  }

  lemma {:induction false} EnqueueAllConvs(db: Db, msgs: seq<Inbound>, now: nat, debounce: nat)
    requires Convs(db) && (forall i :: 0 <= i < |msgs| ==> Keyed(msgs[i])) && EnqueueAll(db, msgs, now, debounce).Some?
    ensures Convs(EnqueueAll(db, msgs, now, debounce).value.db)
    ensures var after := EnqueueAll(db, msgs, now, debounce).value.db.convs;
      |after| >= |db.convs| && forall c :: 0 <= c < |db.convs| ==> after[c].paused == db.convs[c].paused
  {
    hide ConvInv, Enqueue;
    if msgs != [] {
      var n := |msgs| - 1;
      EnqueueAllConvs(db, msgs[..n], now, debounce);
      EnqueueKeepsConvs(EnqueueAll(db, msgs[..n], now, debounce).value.db, msgs[n], now, debounce);
    }
  }

  lemma InstagramIsKeyed(m: Inbound, accounts: set<string>)
    requires FromInstagram(m, accounts)
    ensures Keyed(m)
  {
    assert "instagram:" + m.recipient + ":" + m.sender == "instagram:" + (m.recipient + ":" + m.sender);
  }

  lemma CommitConvs(db: Db, cfg: Config, j: nat, d: Decision, outcome: Outcome, mode: Mode, now: nat)
    requires Aligned(db) && j < |db.jobs| && CommitDecision(db, cfg, j, d, outcome, mode, now).Some?
    ensures SameConvs(db.convs, CommitDecision(db, cfg, j, d, outcome, mode, now).value.convs)
    ensures PausesKept(db.convs, CommitDecision(db, cfg, j, d, outcome, mode, now).value.convs)
  {
    hide EnqueueDelivery, CreateReview;
  }

  lemma ReplyConvs(db: Db, c: nat, text: string, now: nat)
    requires CreateHumanReply(db, c, text, now).Some?
    ensures SameConvs(db.convs, CreateHumanReply(db, c, text, now).value.convs)
    ensures PausesKept(db.convs, CreateHumanReply(db, c, text, now).value.convs)
  {
    hide EnqueueDelivery;
  }

  lemma ErrorConvs(db: Db, d: nat, n: nat, ambiguous: bool)
    requires d < |db.deliveries| && FinishError(db, d, n, ambiguous).Some?
    ensures SameConvs(db.convs, FinishError(db, d, n, ambiguous).value.convs)
    ensures PausesKept(db.convs, FinishError(db, d, n, ambiguous).value.convs)
  {}

  lemma SuppressConvs(db: Db, d: nat)
    requires d < |db.deliveries| && Suppress(db, d).Some?
    ensures SameConvs(db.convs, Suppress(db, d).value.convs) && PausesKept(db.convs, Suppress(db, d).value.convs)
  {
    hide CreateReview;
  }

  lemma SentConvs(db: Db, d: nat, n: nat)
    requires d < |db.deliveries| && FinishSent(db, d, n).Some?
    ensures SameConvs(db.convs, FinishSent(db, d, n).value.convs)
    ensures PausesKept(db.convs, FinishSent(db, d, n).value.convs)
  {}

  lemma TransitionConvs(db: Db, r: nat, target: ReviewStatus)
    requires !target.Pending? && TransitionReview(db, r, target).Moved?
    ensures SameConvs(db.convs, TransitionReview(db, r, target).db.convs)
    ensures PausesKept(db.convs, TransitionReview(db, r, target).db.convs)
  {
    hide HasPending;
  }

  lemma ActConvs(s: Sys, w: nat, a: Act)
    requires Convs(s.db) && Aligned(s.db) && CanAct(s, w, a)
    ensures Convs(DbAfter(s, w, a))
  {
    hide ConvInv, CommitDecision, Suppress, FinishSent, FinishError, LogJobs, PermissionReason, PolicyOutcome;
    var p, db := s.workers[w], s.db;
    match a
    case CommitAnswer(f, now) =>
      var outcome := PolicyOutcome(db, p, f);
      if CommitDecision(db, s.cfg, p.job, p.stage.decision, outcome, p.stage.mode, now).Some? {
        CommitConvs(db, s.cfg, p.job, p.stage.decision, outcome, p.stage.mode, now);
        SameConvsKeep(db, DbAfter(s, w, a));
      }
    case Withhold =>
      if Suppress(db, p.delivery).Some? { SuppressConvs(db, p.delivery); SameConvsKeep(db, DbAfter(s, w, a)); }
    case RecordSent =>
      if FinishSent(db, p.delivery, p.attempt).Some? {
        SentConvs(db, p.delivery, p.attempt);
        SameConvsKeep(db, DbAfter(s, w, a));
      }
    case RecordError =>
      if FinishError(db, p.delivery, p.attempt, p.leg.ambiguous).Some? {
        ErrorConvs(db, p.delivery, p.attempt, p.leg.ambiguous);
        SameConvsKeep(db, DbAfter(s, w, a));
      }
    case _ =>
  }

  lemma PauseConvs(db: Db, c: nat, paused: bool)
    ensures SameConvs(db.convs, SetBotPaused(db, c, paused).convs)
  {}

  lemma StatusConvs(db: Db, c: nat, status: ConvStatus)
    requires !status.PendingReview?
    ensures var after := SetConversationStatus(db, c, status).convs;
      SameConvs(db.convs, after) && PausesKept(db.convs, after)
  {}

  lemma OperationConvs(db: Db, op: Operation)
    requires Convs(db) && Aligned(db) && CanOperate(op)
    ensures Convs(Operated(db, op))
  {
    hide ConvInv, CreateHumanReply, TransitionReview, EditReview, SetBotPaused, SetConversationStatus, Retry, Dismiss;
    match op
    case Reply(c, text, now) =>
      if CreateHumanReply(db, c, text, now).Some? {
        ReplyConvs(db, c, text, now);
        SameConvsKeep(db, Operated(db, op));
      }
    case Transition(r, target) =>
      if TransitionReview(db, r, target).Moved? {
        TransitionConvs(db, r, target);
        SameConvsKeep(db, Operated(db, op));
      }
    case SetPaused(c, paused) => PauseConvs(db, c, paused); SameConvsKeep(db, Operated(db, op));
    case SetConvStatus(c, status) => StatusConvs(db, c, status); SameConvsKeep(db, Operated(db, op));
    case _ =>
  }

  lemma AllKeyed(msgs: seq<Inbound>, accounts: set<string>)
    requires forall i :: 0 <= i < |msgs| ==> FromInstagram(msgs[i], accounts)
    ensures forall i :: 0 <= i < |msgs| ==> Keyed(msgs[i])
  {
    forall i | 0 <= i < |msgs|
      ensures Keyed(msgs[i])
    {
      InstagramIsKeyed(msgs[i], accounts);
    }
  }

  lemma WebhookConvs(db: Db, digest: string, msgs: seq<Inbound>, ignored: nat, now: nat, debounce: nat)
    requires Convs(db) && forall i :: 0 <= i < |msgs| ==> Keyed(msgs[i])
    ensures Convs(OrElse(Webhook(db, digest, msgs, ignored, now, debounce), db))
  {
    hide Convs, EnqueueAll, Keyed;
    if !HasReceipt(db.receipts, digest) && EnqueueAll(db, msgs, now, debounce).Some? {
      EnqueueAllConvs(db, msgs, now, debounce);
      SameRouting(EnqueueAll(db, msgs, now, debounce).value.db, Webhook(db, digest, msgs, ignored, now, debounce).value);
    } else {
      SameRouting(db, OrElse(Webhook(db, digest, msgs, ignored, now, debounce), db));
    }
  }

  lemma SameRouting(before: Db, after: Db)
    requires Convs(before) && after.events == before.events && after.convs == before.convs
    requires after.accounts == before.accounts
    ensures Convs(after)
  {}

  lemma StepConvs(s: Sys, step: Step)
    requires Convs(s.db) && Enabled(s, step)
    ensures Convs(Next(s, step).db)
  {
    hide ConvInv, Enqueue, Webhook, DbAfter, PcAfter, Operated, LogJobs, RecoverAll;
    match step
    case Ingest(m, now, debounce) =>
      if Enqueue(s.db, m, now, debounce).Some? { EnqueueKeepsConvs(s.db, m, now, debounce); }
    case Post(digest, msgs, ignored, now, debounce) =>
      AllKeyed(msgs, s.cfg.accounts);
      WebhookConvs(s.db, digest, msgs, ignored, now, debounce);
    case RecoverJobs(now) =>
    case RecoverSends(now) =>
      RecoverAllConvs(s.db, ExpiredDeliveries(s.db.deliveries, now, |s.db.deliveries|));
      SameConvsKeep(s.db, RecoverDeliveries(s.db, now));
    case Work(w, a) => ActConvs(s, w, a);
    case Operate(op) => OperationConvs(s.db, op);
  }

  // --------------------------------------------------------------------- jobs

  lemma ActJobs(s: Sys, w: nat, a: Act)
    requires JobInv(s.db) && Convs(s.db) && PcInv(s) && CanAct(s, w, a)
    ensures JobInv(DbAfter(s, w, a))
  {
    hide JobRows, ConvInv, CommitDecision, Suppress, FinishSent, FinishError, Claim, Fail, Complete,
      Supersede, PermissionReason, PolicyOutcome;
    JobInvAligned(s.db);
    var p, db := s.workers[w], s.db;
    assert PcOk(db.events, db.actions, p);
    match a
    case ClaimJob(oldest, newest, now, until) => ClaimKeeps(db, newest, now, until, w);
    case FinishJob => CompleteKeeps(db, p.job);
    case CommitSupersede =>
      KeyIsConversation(db, p.job, p.stage.successor.value);
      SupersedeKeeps(db, p.job, p.stage.successor.value);
    case GiveUp(now) => FailKeeps(db, p.job, p.attempts, s.cfg.maxAttempts, now);
    case _ =>
  }

  lemma OperationJobs(db: Db, op: Operation)
    requires JobInv(db) && CanOperate(op)
    ensures Aligned(db) && JobInv(Operated(db, op))
  {
    hide JobRows, CreateHumanReply, TransitionReview, EditReview, SetBotPaused, SetConversationStatus, Retry, Dismiss;
    JobInvAligned(db);
    match op
    case RetryJob(j, now) => RetryKeeps(db, j, now);
    case DismissJob(j) => RetryKeeps(db, j, 0);
    case _ =>
  }

  lemma StepJobs(s: Sys, step: Step)
    requires JobInv(s.db) && Convs(s.db) && PcInv(s) && AuditInv(s.db) && Enabled(s, step)
    ensures JobInv(Next(s, step).db)
  {
    hide JobRows, ConvInv, AuditInv, Enqueue, EnqueueAll, DbAfter, PcAfter, Operated, RecoverStale, RecoverDeliveries;
    match step
    case Ingest(m, now, debounce) =>
      if Enqueue(s.db, m, now, debounce).Some? { EnqueueKeepsJobs(s.db, m, now, debounce); }
    case Post(digest, msgs, ignored, now, debounce) =>
      if EnqueueAll(s.db, msgs, now, debounce).Some? { EnqueueAllLogged(s.db, msgs, now, debounce); }
    case RecoverJobs(now) => RecoverKeeps(s.db, s.cfg.maxAttempts, now);
    case RecoverSends(now) =>
    case Work(w, a) => ActJobs(s, w, a);
    case Operate(op) => OperationJobs(s.db, op);
  }

  // ----------------------------------------------------------- completed jobs

  /** Only the completing transaction completes a job, and its worker holds one of the job's actions. */
  lemma ActDone(s: Sys, w: nat, a: Act)
    requires JobInv(s.db) && PcInv(s) && DoneInv(s.db.jobs, s.db.actions) && LinkInv(s.db)
    requires DraftInv(s.db.reviews, s.db.revisions) && CanAct(s, w, a)
    ensures DoneInv(DbAfter(s, w, a).jobs, DbAfter(s, w, a).actions)
  {
    hide JobRows, LinkInv, DraftInv, DoneInv, CanAct, DbAfter, PcInv;
    JobInvAligned(s.db);
    if a.CommitAnswer? {
      ActLinks(s, w, a);
      DecidingJobs(s, w, a);
      MoreActions(s.db.jobs, s.db.actions, DbAfter(s, w, a).actions);
    } else if WritesJob(a) {
      WriteDone(s, w, a);
    } else {
      QuietJobs(s, w, a);
    }
  }

  lemma DecidingJobs(s: Sys, w: nat, a: Act)
    requires Aligned(s.db) && CanAct(s, w, a) && a.CommitAnswer?
    ensures DbAfter(s, w, a).jobs == s.db.jobs
  {
    hide CommitDecision, PolicyOutcome;
  }

  lemma QuietJobs(s: Sys, w: nat, a: Act)
    requires Aligned(s.db) && CanAct(s, w, a) && !a.CommitAnswer? && !WritesJob(a)
    ensures DbAfter(s, w, a).jobs == s.db.jobs && DbAfter(s, w, a).actions == s.db.actions
  {
    hide Suppress, FinishSent, FinishError, PermissionReason, IsNext, IsFirstAction;
  }

  lemma WriteDone(s: Sys, w: nat, a: Act)
    requires JobInv(s.db) && PcInv(s) && DoneInv(s.db.jobs, s.db.actions) && CanAct(s, w, a) && WritesJob(a)
    ensures Aligned(s.db) && DoneInv(DbAfter(s, w, a).jobs, DbAfter(s, w, a).actions)
  {
    hide JobRows, Claim, IsOldest;
    JobInvAligned(s.db);
    var p, db := s.workers[w], s.db;
    assert PcOk(db.events, db.actions, p);
    match a
    case ClaimJob(oldest, newest, now, until) =>
      ClaimWasFree(db, oldest, newest, now);
      ClaimDone(db, newest, now, until, w);
    case FinishJob =>
      assert HasAction(db.actions, p.job) by { assert db.actions[p.stage.action].job == p.job; }
    case _ =>
  }

  lemma ClaimWasFree(db: Db, oldest: nat, newest: nat, now: nat)
    requires IsOldest(db.jobs, now, oldest) && IsNewest(db.jobs, db.jobs[oldest].key, now, newest)
    ensures ClaimsFrom(db, newest, now)
  {}

  lemma ClaimDone(db: Db, j: nat, now: nat, until: nat, w: nat)
    requires JobInv(db) && ClaimsFrom(db, j, now) && DoneInv(db.jobs, db.actions)
    ensures DoneInv(Claim(db, j, now, until, w).jobs, db.actions)
  {
    ClaimRows(db, j, now, until, w);
    var jobs := Claim(db, j, now, until, w).jobs;
    forall i | 0 <= i < |jobs| && jobs[i].state.Completed?
      ensures HasAction(db.actions, i)
    {
      assert ClaimedRow(db.jobs[i], jobs[i], i, j, db.jobs[j].key, now, until, w);
    }
  }

  lemma OperationDone(db: Db, op: Operation)
    requires Aligned(db) && DoneInv(db.jobs, db.actions) && LinkInv(db) && DraftInv(db.reviews, db.revisions)
    requires CanOperate(op)
    ensures DoneInv(Operated(db, op).jobs, Operated(db, op).actions)
  {
    hide CreateHumanReply, TransitionReview, EditReview, LinkInv, DraftInv, SetBotPaused, SetConversationStatus;
    match op
    case Reply(c, text, now) =>
      OperationLinks(db, op);
      MoreActions(db.jobs, db.actions, Operated(db, op).actions);
    case _ =>
  }

  lemma NewJobsDone(before: seq<Job>, after: seq<Job>, actions: seq<Action>)
    requires DoneInv(before, actions) && |after| >= |before|
    requires forall j :: 0 <= j < |after| && after[j].state.Completed? ==> j < |before| && before[j].state.Completed?
    ensures DoneInv(after, actions)
  {}

  lemma {:induction false} EnqueueAllStates(db: Db, msgs: seq<Inbound>, now: nat, debounce: nat)
    requires EnqueueAll(db, msgs, now, debounce).Some?
    ensures var after := EnqueueAll(db, msgs, now, debounce).value.db.jobs;
      && |after| >= |db.jobs|
      && forall j :: 0 <= j < |after| ==> if j < |db.jobs| then after[j].state == db.jobs[j].state
                                          else after[j].state.Queued?
  {
    hide Enqueue;
    if msgs != [] {
      var n := |msgs| - 1;
      EnqueueAllStates(db, msgs[..n], now, debounce);
      EnqueueStates(EnqueueAll(db, msgs[..n], now, debounce).value.db, msgs[n], now, debounce);
    }
  }

  lemma EnqueueStates(db: Db, m: Inbound, now: nat, debounce: nat)
    requires Enqueue(db, m, now, debounce).Some?
    ensures var after := Enqueue(db, m, now, debounce).value.db.jobs;
      && |after| >= |db.jobs|
      && forall j :: 0 <= j < |after| ==> if j < |db.jobs| then after[j].state == db.jobs[j].state
                                          else after[j].state.Queued?
  {
    hide EnsureConversation;
  }

  lemma StepDone(s: Sys, step: Step)
    requires Inv(s) && Enabled(s, step)
    ensures DoneInv(Next(s, step).db.jobs, Next(s, step).db.actions)
  {
    hide JobRows, ConvInv, LinkInv, DraftInv, AnswerInv, AuditInv, Protocol, PcInv, Enqueue, EnqueueAll, DbAfter, PcAfter,
      Operated, RecoverDeliveries, LogJobs, DoneInv;
    match step
    case Ingest(m, now, debounce) =>
      if Enqueue(s.db, m, now, debounce).Some? {
        EnqueueStates(s.db, m, now, debounce);
        NewJobsDone(s.db.jobs, Next(s, step).db.jobs, s.db.actions);
      }
    case Post(digest, msgs, ignored, now, debounce) =>
      if EnqueueAll(s.db, msgs, now, debounce).Some? {
        EnqueueAllStates(s.db, msgs, now, debounce);
        NewJobsDone(s.db.jobs, EnqueueAll(s.db, msgs, now, debounce).value.db.jobs, s.db.actions);
      }
    case RecoverJobs(now) =>
      WritesNotDone(s.db, RecoverWrites(s.db.jobs, StaleJobs(s.db.jobs, now, |s.db.jobs|), s.cfg.maxAttempts, now));
    case RecoverSends(now) =>
    case Work(w, a) => ActDone(s, w, a);
    case Operate(op) => OperationDone(s.db, op);
  }

  // --------------------------------------------------------------- positions

  lemma StepPcs(s: Sys, step: Step)
    requires PcInv(s) && LinkInv(s.db) && DraftInv(s.db.reviews, s.db.revisions) && Enabled(s, step)
    ensures PcInv(Next(s, step))
  {
    hide LinkInv, DraftInv, Enqueue, Webhook, DbAfter, PcAfter, Operated, RecoverDeliveries, RecoverStale, StageOk;
    StepLinks(s, step);
    var s' := Next(s, step);
    forall v | 0 <= v < |s'.workers|
      ensures PcOk(s'.db.events, s'.db.actions, s'.workers[v])
    {
      if step.Work? && step.w == v {
        OwnPcOk(s, v, step.act);
      } else {
        PcGrows(s.db, s'.db, s.workers[v]);
      }
    }
  }

  // ----------------------------------------------------------------- protocol

  lemma {:induction false} EnqueueAllProtocol(s: Sys, msgs: seq<Inbound>, now: nat, debounce: nat)
    requires Protocol(s) && EnqueueAll(s.db, msgs, now, debounce).Some?
    ensures Protocol(s.(db := EnqueueAll(s.db, msgs, now, debounce).value.db))
  {
    hide ProtocolInvariant.ProtocolInv, Enqueue;
    if msgs != [] {
      var n := |msgs| - 1;
      EnqueueAllProtocol(s, msgs[..n], now, debounce);
      EnqueueProtocol(s.(db := EnqueueAll(s.db, msgs[..n], now, debounce).value.db), msgs[n], now, debounce);
    } else {
      assert s.(db := EnqueueAll(s.db, msgs, now, debounce).value.db) == s;
    }
  }

  lemma EnqueueProtocol(s: Sys, m: Inbound, now: nat, debounce: nat)
    requires Protocol(s) && Enqueue(s.db, m, now, debounce).Some?
    ensures Protocol(s.(db := Enqueue(s.db, m, now, debounce).value.db))
  {
    hide ProtocolInvariant.ProtocolInv, EnsureConversation;
    var p := ProtocolInvariant.ProtocolOf(s);
    var q := ProtocolInvariant.ProtocolOf(s.(db := Enqueue(s.db, m, now, debounce).value.db));
    var routed := EnsureConversation(s.db.accounts, s.db.convs, m);
    if FindEvent(s.db.events, m.channel, m.mid).Some? {
      assert q == p;
    } else {
      var x := Message(routed.value.conv, FromEvent(|s.db.events|), m.body);
      ProtocolInvariant.InboundKeeps(p, x);
      assert q == p.(messages := p.messages + [x]);
    }
  }

  lemma {:induction false} RecoverAllFrame(db: Db, ids: seq<nat>, d: nat)
    requires d < |db.deliveries| && forall k :: 0 <= k < |ids| ==> ids[k] < |db.deliveries| && ids[k] != d
    ensures RecoverAll(db, ids).deliveries[d] == db.deliveries[d]
  {
    hide RecoverDelivery;
    if ids != [] {
      RecoverAllFrame(db, ids[..|ids| - 1], d);
    }
  }

  lemma {:induction false} RecoverAllProtocol(s: Sys, now: nat, n: nat)
    requires Protocol(s) && n <= |s.db.deliveries|
    ensures Protocol(s.(db := RecoverAll(s.db, ExpiredDeliveries(s.db.deliveries, now, n))))
  {
    hide Protocol, RecoverDelivery;
    if n == 0 {
      assert s.(db := RecoverAll(s.db, [])) == s;
    } else {
      hide RecoverAll;
      RecoverAllProtocol(s, now, n - 1);
      var ids := ExpiredDeliveries(s.db.deliveries, now, n - 1);
      if Expired(s.db.deliveries[n - 1], now) {
        RecoverAllFrame(s.db, ids, n - 1);
        RecoverMore(s.db, ids, n - 1);
        RecoverOneProtocol(s.(db := RecoverAll(s.db, ids)), n - 1);
      }
    }
  }

  lemma RecoverMore(db: Db, ids: seq<nat>, d: nat)
    requires d < |db.deliveries| && forall k :: 0 <= k < |ids| ==> ids[k] < |db.deliveries|
    ensures RecoverAll(db, ids + [d]) == RecoverDelivery(RecoverAll(db, ids), d)
  {
    assert (ids + [d])[..|ids|] == ids;
  }

  lemma RecoverOneProtocol(s: Sys, d: nat)
    requires Protocol(s) && d < |s.db.deliveries| && s.db.deliveries[d].status.Sending?
    ensures Protocol(s.(db := RecoverDelivery(s.db, d)))
  {
    hide ProtocolInvariant.ProtocolInv, RecoverDelivery;
    ProtocolInvariant.RecoverOneKeeps(ProtocolInvariant.ProtocolOf(s),
                                      ProtocolInvariant.ProtocolOf(s.(db := RecoverDelivery(s.db, d))), d);
  }

  lemma ActProtocol(s: Sys, w: nat, a: Act)
    requires Protocol(s) && LinkInv(s.db) && Aligned(s.db) && CanAct(s, w, a)
    ensures Protocol(Acted(s, w, a))
  {
    hide Protocol, LinkInv, CanAct, Acted;
    if OnJobs(a) {
      IdleProtocol(s, w, a);
    } else if a.CommitAnswer? {
      CommitProtocol(s, w, a.facts, a.now);
    } else if a.Withhold? || a.RecordSent? || a.RecordError? {
      SettlingProtocol(s, w, a);
    } else {
      LegProtocol(s, w, a);
    }
  }

  lemma LegProtocol(s: Sys, w: nat, a: Act)
    requires Protocol(s) && Aligned(s.db) && CanAct(s, w, a)
    requires a.TakeDelivery? || a.FetchDelivery? || a.CheckPermission? || a.Send?
    ensures Protocol(Acted(s, w, a))
  {
    hide ProtocolInvariant.ProtocolInv, PermissionReason;
    match a
    case TakeDelivery(next, now, until) => ProtocolInvariant.ClaimKeeps(s, w, next, now, until);
    case FetchDelivery => FetchProtocol(s, w);
    case CheckPermission => CheckProtocol(s, w);
    case Send(ending) => SendProtocol(s, w, ending);
  }

  lemma SettlingProtocol(s: Sys, w: nat, a: Act)
    requires Protocol(s) && Aligned(s.db) && CanAct(s, w, a) && (a.Withhold? || a.RecordSent? || a.RecordError?)
    ensures Protocol(Acted(s, w, a))
  {
    hide ProtocolInvariant.ProtocolInv, Suppress, FinishSent, FinishError;
    var p := s.workers[w];
    match a
    case Withhold =>
      if Suppress(s.db, p.delivery).Some? { ProtocolInvariant.SuppressKeeps(s, w); } else { LetGo(s, w); }
    case RecordSent =>
      if FinishSent(s.db, p.delivery, p.attempt).Some? { ProtocolInvariant.FinishSentKeeps(s, w); } else { LetGo(s, w); }
    case RecordError =>
      if FinishError(s.db, p.delivery, p.attempt, p.leg.ambiguous).Some? {
        ProtocolInvariant.FinishErrorKeeps(s, w);
      } else {
        LetGo(s, w);
      }
  }

  predicate OnJobs(a: Act) {
    !a.TakeDelivery? && !a.FetchDelivery? && !a.CheckPermission? && !a.Withhold? && !a.Send? && !a.RecordSent?
    && !a.RecordError? && !a.CommitAnswer?
  }

  /** The steps on jobs, other than the deciding transaction, write nothing that the protocol is about. */
  lemma JobFrame(s: Sys, w: nat, a: Act)
    requires Aligned(s.db) && CanAct(s, w, a) && OnJobs(a)
    ensures w < |s.workers| && !PcAfter(s, w, a).OnDelivery?
    ensures var db := DbAfter(s, w, a);
      db.deliveries == s.db.deliveries && db.attempts == s.db.attempts && db.messages == s.db.messages
  {
    hide LogJobs, Find, Claim, Fail, Complete, Supersede, IsOldest, IsNewest, IsFirstAction;
  }

  lemma IdleProtocol(s: Sys, w: nat, a: Act)
    requires Protocol(s) && Aligned(s.db) && CanAct(s, w, a) && OnJobs(a)
    ensures Protocol(Acted(s, w, a))
  {
    hide ProtocolInvariant.ProtocolInv, CanAct, DbAfter, PcAfter;
    JobFrame(s, w, a);
    var before, after := ProtocolInvariant.ProtocolOf(s), ProtocolInvariant.ProtocolOf(Acted(s, w, a));
    assert after == before.(workers := before.workers[w := after.workers[w]]);
    ProtocolInvariant.MoveKeeps(before, w, after.workers[w]);
  }

  lemma LetGo(s: Sys, w: nat)
    requires Protocol(s) && w < |s.workers|
    ensures Protocol(s.(workers := s.workers[w := Idle]))
  {
    ProtocolInvariant.MoveKeeps(ProtocolInvariant.ProtocolOf(s), w, Idle);
  }

  lemma FetchProtocol(s: Sys, w: nat)
    requires Protocol(s) && Aligned(s.db) && CanAct(s, w, FetchDelivery)
    ensures Protocol(Acted(s, w, FetchDelivery))
  {
    var p, d := ProtocolInvariant.ProtocolOf(s), s.workers[w].delivery;
    assert ProtocolInvariant.HeldTrue(p, s.workers[w]);
    assert ProtocolInvariant.StatusTrue(p.rows[d], ProtocolInvariant.Recorded(p.attempts, d),
                                        ProtocolInvariant.Called(p.sends, d), d in p.accepted);
    ProtocolInvariant.MoveKeeps(p, w, PcAfter(s, w, FetchDelivery));
  }

  lemma CheckProtocol(s: Sys, w: nat)
    requires Protocol(s) && Aligned(s.db) && CanAct(s, w, CheckPermission)
    ensures Protocol(Acted(s, w, CheckPermission))
  {
    hide PermissionReason;
    var before := ProtocolInvariant.ProtocolOf(s);
    assert ProtocolInvariant.HeldTrue(before, s.workers[w]);
    ProtocolInvariant.MoveKeeps(before, w, PcAfter(s, w, CheckPermission));
    assert ProtocolInvariant.ProtocolOf(Acted(s, w, CheckPermission))
        == before.(workers := before.workers[w := PcAfter(s, w, CheckPermission)]);
  }

  lemma SendProtocol(s: Sys, w: nat, ending: Ending)
    requires Protocol(s) && Aligned(s.db) && CanAct(s, w, Send(ending))
    ensures Protocol(Acted(s, w, Send(ending)))
  {
    var before := ProtocolInvariant.ProtocolOf(s);
    assert ProtocolInvariant.HeldTrue(before, s.workers[w]);
    ProtocolInvariant.SendKeeps(before, ProtocolInvariant.ProtocolOf(Acted(s, w, Send(ending))), w,
                                CallOf(s.db, s.workers[w].delivery), Taken(ending));
  }

  lemma CommitProtocol(s: Sys, w: nat, f: Policy.Facts, now: nat)
    requires Protocol(s) && LinkInv(s.db) && Aligned(s.db) && CanAct(s, w, CommitAnswer(f, now))
    ensures Protocol(Acted(s, w, CommitAnswer(f, now)))
  {
    hide ProtocolInvariant.ProtocolInv, LinkInv, CommitDecision, PolicyOutcome, EnqueueDelivery, CreateReview;
    var p, db := s.workers[w], s.db;
    var outcome := PolicyOutcome(db, p, f);
    var before, after := ProtocolInvariant.ProtocolOf(s), ProtocolInvariant.ProtocolOf(Acted(s, w, CommitAnswer(f, now)));
    ProtocolInvariant.MoveKeeps(before, w, after.workers[w]);
    var mid := before.(workers := after.workers);
    if CommitDecision(db, s.cfg, p.job, p.stage.decision, outcome, p.stage.mode, now).Some? {
      CommitDeliveries(db, s.cfg, p.job, p.stage.decision, outcome, p.stage.mode, now);
      if after.rows != before.rows {
        var row := after.rows[|before.rows|];
        ProtocolInvariant.NewDeliveryKeeps(mid, row.intent, row.availableAt);
        assert after == mid.(rows := mid.rows + [row]);
      } else {
        assert after == mid;
      }
    } else {
      assert after == mid;
    }
  }

  /** The deciding transaction adds at most one delivery row, a fresh one. */
  lemma CommitDeliveries(db: Db, cfg: Config, j: nat, d: Decision, outcome: Outcome, mode: Mode, now: nat)
    requires LinkInv(db) && Aligned(db) && j < |db.jobs| && CommitDecision(db, cfg, j, d, outcome, mode, now).Some?
    ensures var rows := CommitDecision(db, cfg, j, d, outcome, mode, now).value.deliveries;
      rows == db.deliveries
      || (|rows| == |db.deliveries| + 1 && rows[..|db.deliveries|] == db.deliveries
          && (forall i :: 0 <= i < |db.deliveries| ==> rows[i] == db.deliveries[i])
          && rows[|db.deliveries|] == NewDelivery(rows[|db.deliveries|].intent, now))
  {
    hide CommitDecision, EnqueueDelivery;
    var e, a := db.events[j], |db.actions|;
    var db1 := RecordDecision(db, j, Intended(d), outcome, now);
    CommitShape(db, cfg, j, d, outcome, mode, now);
    NewActionKeeps(db, Action(j, j, Intended(d), Agent, now), outcome);
    if Queues(db, cfg, j, outcome, mode) {
      EnqueueDeliveryKeeps(db1, Intent(a, e.conv, e.msg.recipient, e.msg.sender, d.text, Agent), now);
    }
  }

  lemma ReplyDeliveries(db: Db, c: nat, text: string, now: nat)
    requires LinkInv(db) && CreateHumanReply(db, c, text, now).Some?
    ensures var rows := CreateHumanReply(db, c, text, now).value.deliveries;
      |rows| == |db.deliveries| + 1 && rows[..|db.deliveries|] == db.deliveries
      && (forall i :: 0 <= i < |db.deliveries| ==> rows[i] == db.deliveries[i])
      && rows[|db.deliveries|] == NewDelivery(rows[|db.deliveries|].intent, now)
  {
    hide EnqueueDelivery;
    var e := LatestEvent(db.events, c).value;
    var a := |db.actions|;
    NewActionKeeps(db, Action(e, e, HumanReply, Human, now), Allowed);
    var db1 := db.(actions := db.actions + [Action(e, e, HumanReply, Human, now)],
                   actionStates := db.actionStates[a := AwaitingDelivery], policies := db.policies[a := Allowed]);
    EnqueueDeliveryKeeps(db1, Intent(a, c, db.accounts[db.convs[c].account].external, db.convs[c].customer,
                                     Strip(text), Human), now);
  }

  lemma OperationProtocol(s: Sys, op: Operation)
    requires Protocol(s) && LinkInv(s.db) && Aligned(s.db) && CanOperate(op)
    ensures Protocol(s.(db := Operated(s.db, op)))
  {
    hide ProtocolInvariant.ProtocolInv, LinkInv, CreateHumanReply, TransitionReview, EditReview, Retry, Dismiss,
      SetBotPaused, SetConversationStatus;
    var before := ProtocolInvariant.ProtocolOf(s);
    var after := ProtocolInvariant.ProtocolOf(s.(db := Operated(s.db, op)));
    match op
    case Reply(c, text, now) =>
      if CreateHumanReply(s.db, c, text, now).Some? {
        ReplyDeliveries(s.db, c, text, now);
        var row := after.rows[|before.rows|];
        ProtocolInvariant.NewDeliveryKeeps(before, row.intent, now);
        assert after == before.(rows := before.rows + [row]);
      } else {
        assert after == before;
      }
    case _ => assert after == before;
  }

  lemma StepProtocol(s: Sys, step: Step)
    requires Protocol(s) && LinkInv(s.db) && Enabled(s, step)
    ensures Protocol(Next(s, step))
  {
    hide ProtocolInvariant.ProtocolInv, LinkInv, Enqueue, EnqueueAll, Acted, Operated, RecoverAll, RecoverStale;
    match step
    case Ingest(m, now, debounce) =>
      if Enqueue(s.db, m, now, debounce).Some? { EnqueueProtocol(s, m, now, debounce); }
    case Post(digest, msgs, ignored, now, debounce) => WebhookProtocol(s, digest, msgs, ignored, now, debounce);
    case RecoverJobs(now) => assert ProtocolInvariant.ProtocolOf(Next(s, step)) == ProtocolInvariant.ProtocolOf(s);
    case RecoverSends(now) => RecoverAllProtocol(s, now, |s.db.deliveries|);
    case Work(w, a) => ActProtocol(s, w, a);
    case Operate(op) => OperationProtocol(s, op);
  }

  lemma WebhookProtocol(s: Sys, digest: string, msgs: seq<Inbound>, ignored: nat, now: nat, debounce: nat)
    requires Protocol(s)
    ensures Protocol(s.(db := OrElse(Webhook(s.db, digest, msgs, ignored, now, debounce), s.db)))
  {
    hide ProtocolInvariant.ProtocolInv, EnqueueAll;
    var after := ProtocolInvariant.ProtocolOf(s.(db := OrElse(Webhook(s.db, digest, msgs, ignored, now, debounce), s.db)));
    if !HasReceipt(s.db.receipts, digest) && EnqueueAll(s.db, msgs, now, debounce).Some? {
      EnqueueAllProtocol(s, msgs, now, debounce);
      assert after == ProtocolInvariant.ProtocolOf(s.(db := EnqueueAll(s.db, msgs, now, debounce).value.db));
    } else {
      assert after == ProtocolInvariant.ProtocolOf(s);
    }
  }

  // -------------------------------------------------------------------- calls

  lemma StepCalls(s: Sys, step: Step)
    requires CallsAsWritten(s.sends, s.db.deliveries) && LinkInv(s.db) && DraftInv(s.db.reviews, s.db.revisions)
    requires Enabled(s, step)
    ensures CallsAsWritten(Next(s, step).sends, Next(s, step).db.deliveries)
  {
    hide LinkInv, DraftInv, Enqueue, Webhook, DbAfter, PcAfter, Operated, RecoverDeliveries, RecoverStale;
    StepLinks(s, step);
    var s' := Next(s, step);
    forall i | 0 <= i < |s'.sends|
      ensures s'.sends[i].delivery < |s'.db.deliveries|
      ensures var t := s'.db.deliveries[s'.sends[i].delivery].intent;
        s'.sends[i] == SendCall(s'.sends[i].delivery, t.account, t.customer, t.text)
    {
      if i == |s.sends| {
        assert s'.sends[i] == CallOf(s.db, s.workers[step.w].delivery);
      } else {
        assert s'.sends[i] == s.sends[i];
      }
    }
  }

  // --------------------------------------------------------------- every step

  /** The invariant is inductive: every enabled step of the system keeps it. */
  lemma StepKeepsInv(s: Sys, step: Step)
    requires Inv(s) && Enabled(s, step)
    ensures Inv(Next(s, step)) && Grows(s.db, Next(s, step).db)
  {
    hide ConvInv, JobRows, LinkInv, DraftInv, AnswerInv, DoneInv, AuditInv, PcInv, Protocol, CallsAsWritten, Grows,
      Acted, Enqueue, Webhook, Operated, RecoverDeliveries, RecoverStale;
    StepConvs(s, step);
    StepJobs(s, step);
    StepLinks(s, step);
    StepAnswers(s, step);
    StepDone(s, step);
    StepLogged(s, step);
    StepPcs(s, step);
    StepProtocol(s, step);
    StepCalls(s, step);
    assert Next(s, step).cfg == s.cfg by { SameConfig(s, step); }
  }

  lemma SameConfig(s: Sys, step: Step)
    requires Enabled(s, step)
    ensures Next(s, step).cfg == s.cfg && |Next(s, step).workers| == |s.workers|
  {
    hide DbAfter, PcAfter, Operated, Enqueue, Webhook;
  }

  /** Every state of every run satisfies the invariant. */
  lemma {:induction false} RunsAreSafe(ss: seq<Sys>, steps: seq<Step>, i: nat)
    requires IsRun(ss, steps) && i < |ss|
    ensures Inv(ss[i])
  {
    hide Inv, Initial, Next, Enabled;
    if i == 0 {
      InitialInv(ss[0]);
    } else {
      RunsAreSafe(ss, steps, i - 1);
      assert Enabled(ss[i - 1], steps[i - 1]) && ss[i - 1 + 1] == Next(ss[i - 1], steps[i - 1]);
      StepKeepsInv(ss[i - 1], steps[i - 1]);
    }
  }
}
