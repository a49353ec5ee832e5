/** How a delivery's status may move, what a failure stops, and in which order a conversation is answered. */
module Outcomes {
  import opened Types
  import opened WorkspaceModel
  import opened QueueModel
  import opened DeliveryModel
  import opened WorkerModel
  import opened System
  import opened QueueInvariant
  import opened LinkInvariant
  import opened AnswerInvariant
  import opened AuditInvariant
  import opened Safety
  import ProtocolInvariant

  // ------------------------------------------------------- status transitions

  /** Nothing returns to waiting, a settled delivery stays as it is, and the only way out of unknown is a late
      worker's refusal to send. */
  predicate Moves(a: Delivery, b: Delivery) {
    && b.intent == a.intent
    && match a.status
       case Waiting => b == a || b.status.Sending?
       case Sending => !b.status.Waiting?
       case Unknown => b == a || b.status.Withheld?
       case _ => b == a
  }

  lemma {:induction false} RecoverAllRow(db: Db, ids: seq<nat>, d: nat)
    requires d < |db.deliveries| && forall k :: 0 <= k < |ids| ==> ids[k] < |db.deliveries|
    ensures RecoverAll(db, ids).deliveries[d]
         == if d in ids then Settled(db.deliveries[d], Unknown) else db.deliveries[d]
  {
    hide RecoverDelivery;
    if ids != [] {
      var n := |ids| - 1;
      assert ids == ids[..n] + [ids[n]];
      RecoverAllRow(db, ids[..n], d);
    }
  }

  lemma RecoverRow(db: Db, now: nat, d: nat)
    requires d < |db.deliveries|
    ensures RecoverDeliveries(db, now).deliveries[d]
         == if Expired(db.deliveries[d], now) then Settled(db.deliveries[d], Unknown) else db.deliveries[d]
  {
    var ids := ExpiredDeliveries(db.deliveries, now, |db.deliveries|);
    RecoverAllRow(db, ids, d);
  }

  lemma ActMoves(s: Sys, w: nat, a: Act, d: nat)
    requires Protocol(s) && LinkInv(s.db) && Aligned(s.db) && CanAct(s, w, a) && d < |s.db.deliveries|
    ensures |DbAfter(s, w, a).deliveries| >= |s.db.deliveries|
    ensures Moves(s.db.deliveries[d], DbAfter(s, w, a).deliveries[d])
  {
    hide ProtocolInvariant.ProtocolInv, LinkInv, CanAct, DbAfter, PcAfter, Moves;
    StaysPut(s.db.deliveries[d]);
    if OnJobs(a) {
      JobFrame(s, w, a);
    } else if a.CommitAnswer? {
      DecidingMoves(s, w, a, d);
    } else {
      LegMoves(s, w, a, d);
    }
  }

  lemma DecidingMoves(s: Sys, w: nat, a: Act, d: nat)
    requires LinkInv(s.db) && Aligned(s.db) && CanAct(s, w, a) && a.CommitAnswer? && d < |s.db.deliveries|
    ensures |DbAfter(s, w, a).deliveries| >= |s.db.deliveries|
    ensures DbAfter(s, w, a).deliveries[d] == s.db.deliveries[d]
  {
    hide LinkInv, CommitDecision, PolicyOutcome;
    var p, db := s.workers[w], s.db;
    var outcome := PolicyOutcome(db, p, a.facts);
    if CommitDecision(db, s.cfg, p.job, p.stage.decision, outcome, p.stage.mode, a.now).Some? {
      CommitDeliveries(db, s.cfg, p.job, p.stage.decision, outcome, p.stage.mode, a.now);
    }
  }

  /** The steps on deliveries. */
  lemma LegMoves(s: Sys, w: nat, a: Act, d: nat)
    requires Protocol(s) && Aligned(s.db) && CanAct(s, w, a) && !OnJobs(a) && !a.CommitAnswer?
    requires d < |s.db.deliveries|
    ensures |DbAfter(s, w, a).deliveries| == |s.db.deliveries|
    ensures Moves(s.db.deliveries[d], DbAfter(s, w, a).deliveries[d])
  {
    hide Protocol, CanAct, DbAfter, Moves;
    if a.Withhold? || a.RecordSent? || a.RecordError? {
      SettlingMoves(s, w, a, d);
    } else if a.TakeDelivery? {
      TakeMoves(s, w, a, d);
    } else {
      FlightKeeps(s, w, a);
      StaysPut(s.db.deliveries[d]);
    }
  }

  lemma SettlingMoves(s: Sys, w: nat, a: Act, d: nat)
    requires Protocol(s) && Aligned(s.db) && CanAct(s, w, a) && d < |s.db.deliveries|
    requires a.Withhold? || a.RecordSent? || a.RecordError?
    ensures |DbAfter(s, w, a).deliveries| == |s.db.deliveries|
    ensures Moves(s.db.deliveries[d], DbAfter(s, w, a).deliveries[d])
  {
    hide Protocol, Suppress, FinishError;
    HolderRow(s, w);
  }

  lemma TakeMoves(s: Sys, w: nat, a: Act, d: nat)
    requires Aligned(s.db) && CanAct(s, w, a) && d < |s.db.deliveries| && a.TakeDelivery?
    ensures |DbAfter(s, w, a).deliveries| == |s.db.deliveries|
    ensures Moves(s.db.deliveries[d], DbAfter(s, w, a).deliveries[d])
  {}

  lemma FlightKeeps(s: Sys, w: nat, a: Act)
    requires Aligned(s.db) && CanAct(s, w, a) && (a.FetchDelivery? || a.CheckPermission? || a.Send?)
    ensures DbAfter(s, w, a) == s.db
  {}

  lemma StaysPut(row: Delivery)
    ensures Moves(row, row)
  {}

  /** What a worker on a delivery may count on, whatever has happened since it claimed. */
  lemma HolderRow(s: Sys, w: nat)
    requires Protocol(s) && w < |s.workers|
    ensures var p := s.workers[w];
      p.OnDelivery? ==>
        && p.delivery < |s.db.deliveries| && p.attempt == 1
        && var status := s.db.deliveries[p.delivery].status;
           && (status.Sending? || (status.Unknown? && (p.delivery, 1) in s.db.attempts))
  {
    var q := ProtocolInvariant.ProtocolOf(s);
    assert ProtocolInvariant.HeldTrue(q, s.workers[w]);
    if s.workers[w].OnDelivery? {
      var d := s.workers[w].delivery;
      assert ProtocolInvariant.StatusTrue(q.rows[d], ProtocolInvariant.Recorded(q.attempts, d),
                                          ProtocolInvariant.Called(q.sends, d), d in q.accepted);
    }
  }

  /** Every step moves every delivery only as `Moves` allows. */
  lemma StepMoves(s: Sys, step: Step, d: nat)
    requires Inv(s) && Enabled(s, step) && d < |s.db.deliveries|
    ensures |Next(s, step).db.deliveries| >= |s.db.deliveries|
    ensures Moves(s.db.deliveries[d], Next(s, step).db.deliveries[d])
  {
    hide ConvInv, JobRows, LinkInv, DraftInv, AnswerInv, AuditInv, PcInv, Protocol, CallsAsWritten, DbAfter, PcAfter,
      Enqueue, Webhook, RecoverDeliveries, RecoverStale, Operated, CanAct, FromInstagram, Moves;
    assert Moves(s.db.deliveries[d], s.db.deliveries[d]) by { StaysPut(s.db.deliveries[d]); }
    match step
    case RecoverSends(now) => RecoveryMoves(s.db, now, d);
    case Work(w, a) => ActMoves(s, w, a, d);
    case Operate(op) => OperationMoves(s.db, op, d);
    case _ =>
  }

  lemma RecoveryMoves(db: Db, now: nat, d: nat)
    requires d < |db.deliveries|
    ensures Moves(db.deliveries[d], RecoverDeliveries(db, now).deliveries[d])
  {
    hide RecoverDeliveries;
    RecoverRow(db, now, d);
  }

  lemma OperationMoves(db: Db, op: Operation, d: nat)
    requires LinkInv(db) && Aligned(db) && CanOperate(op) && d < |db.deliveries|
    ensures |Operated(db, op).deliveries| >= |db.deliveries|
    ensures Moves(db.deliveries[d], Operated(db, op).deliveries[d])
  {
    hide Retry, Dismiss, EditReview, TransitionReview, SetBotPaused, SetConversationStatus, CreateHumanReply, Moves,
      LinkInv;
    StaysPut(db.deliveries[d]);
    match op
    case Reply(c, text, now) =>
      if CreateHumanReply(db, c, text, now).Some? { ReplyDeliveries(db, c, text, now); }
    case Edit(_, _) =>
    case Transition(_, _) =>
    case RetryJob(_, _) =>
    case DismissJob(_) =>
    case _ =>
  }

  // ------------------------------------------------------- failure containment

  ghost predicate Resumes(step: Step, c: nat) {
    step == Operate(SetPaused(c, false))
  }

  lemma ActPauses(s: Sys, w: nat, a: Act)
    requires Aligned(s.db) && CanAct(s, w, a)
    ensures PausesKept(s.db.convs, DbAfter(s, w, a).convs)
  {
    hide CommitDecision, Suppress, FinishSent, FinishError, LogJobs, PermissionReason, PolicyOutcome;
    var p, db := s.workers[w], s.db;
    match a
    case CommitAnswer(f, now) =>
      var outcome := PolicyOutcome(db, p, f);
      if CommitDecision(db, s.cfg, p.job, p.stage.decision, outcome, p.stage.mode, now).Some? {
        CommitConvs(db, s.cfg, p.job, p.stage.decision, outcome, p.stage.mode, now);
      }
    case Withhold => if Suppress(db, p.delivery).Some? { SuppressConvs(db, p.delivery); }
    case RecordSent => if FinishSent(db, p.delivery, p.attempt).Some? { SentConvs(db, p.delivery, p.attempt); }
    case RecordError =>
      if FinishError(db, p.delivery, p.attempt, p.leg.ambiguous).Some? {
        ErrorConvs(db, p.delivery, p.attempt, p.leg.ambiguous);
      }
    case _ =>
  }

  lemma OperationPauses(db: Db, op: Operation, c: nat)
    requires Aligned(db) && CanOperate(op) && c < |db.convs| && db.convs[c].paused && op != SetPaused(c, false)
    ensures c < |Operated(db, op).convs| && Operated(db, op).convs[c].paused
  {
    hide CreateHumanReply, TransitionReview, EditReview, Retry, Dismiss, SetConversationStatus;
    match op
    case Reply(k, text, now) => if CreateHumanReply(db, k, text, now).Some? { ReplyConvs(db, k, text, now); }
    case Transition(r, target) => if TransitionReview(db, r, target).Moved? { TransitionConvs(db, r, target); }
    case SetConvStatus(k, status) => StatusConvs(db, k, status);
    case _ =>
  }

  lemma WebhookPauses(db: Db, digest: string, msgs: seq<Inbound>, ignored: nat, now: nat, debounce: nat)
    requires Convs(db) && forall i :: 0 <= i < |msgs| ==> Keyed(msgs[i])
    ensures PausesKept(db.convs, OrElse(Webhook(db, digest, msgs, ignored, now, debounce), db).convs)
  {
    hide Convs, EnqueueAll, Keyed;
    if EnqueueAll(db, msgs, now, debounce).Some? {
      EnqueueAllConvs(db, msgs, now, debounce);
    }
  }

  /** A paused conversation stays paused under every step except its own resumption by an operator. */
  lemma PauseLasts(s: Sys, step: Step, c: nat)
    requires Inv(s) && Enabled(s, step) && c < |s.db.convs| && s.db.convs[c].paused && !Resumes(step, c)
    ensures c < |Next(s, step).db.convs| && Next(s, step).db.convs[c].paused
  {
    hide JobRows, LinkInv, DraftInv, AnswerInv, AuditInv, PcInv, Protocol, CallsAsWritten, DbAfter, PcAfter,
      Enqueue, Webhook, RecoverAll, RecoverStale, Operated, ConvInv, Keyed;
    match step
    case Ingest(m, now, debounce) =>
      if Enqueue(s.db, m, now, debounce).Some? { EnqueueKeepsConvs(s.db, m, now, debounce); }
    case Post(digest, msgs, ignored, now, debounce) =>
      AllKeyed(msgs, s.cfg.accounts);
      WebhookPauses(s.db, digest, msgs, ignored, now, debounce);
    case RecoverJobs(now) =>
    case RecoverSends(now) => RecoverAllConvs(s.db, ExpiredDeliveries(s.db.deliveries, now, |s.db.deliveries|));
    case Work(w, a) => ActPauses(s, w, a);
    case Operate(op) => OperationPauses(s.db, op, c);
  }

  predicate WentWrong(status: DeliveryStatus) {
    status.Failed? || status.Unknown?
  }

  lemma {:induction false} RecoverAllPauses(db: Db, ids: seq<nat>, d: nat)
    requires LinkInv(db) && DraftInv(db.reviews, db.revisions) && Convs(db)
    requires forall k :: 0 <= k < |ids| ==> ids[k] < |db.deliveries|
    requires d in ids && d < |db.deliveries|
    ensures var c := db.deliveries[d].intent.conv;
      c < |RecoverAll(db, ids).convs| && RecoverAll(db, ids).convs[c].paused
  {
    hide LinkInv, DraftInv, RecoverDelivery, Convs;
    var n := |ids| - 1;
    assert ids == ids[..n] + [ids[n]];
    var mid := RecoverAll(db, ids[..n]);
    RecoverAllConvs(db, ids[..n]);
    RecoverAllRow(db, ids[..n], d);
    IntentConv(db, d);
    RecoverPauses(mid, ids[n]);
    if ids[n] != d {
      RecoverAllPauses(db, ids[..n], d);
    }
  }

  lemma RecoverPauses(db: Db, d: nat)
    requires d < |db.deliveries|
    ensures var c := db.deliveries[d].intent.conv; c < |db.convs| ==> RecoverDelivery(db, d).convs[c].paused
    ensures PausesKept(db.convs, RecoverDelivery(db, d).convs)
  {}

  lemma ErrorPauses(db: Db, d: nat, n: nat, ambiguous: bool)
    requires d < |db.deliveries| && FinishError(db, d, n, ambiguous).Some?
    ensures var c := db.deliveries[d].intent.conv;
      c < |db.convs| ==> FinishError(db, d, n, ambiguous).value.convs[c].paused
  {}

  /** A delivery speaks in an existing conversation. */
  lemma IntentConv(db: Db, d: nat)
    requires LinkInv(db) && Convs(db) && d < |db.deliveries|
    ensures db.deliveries[d].intent.conv < |db.convs|
  {
    assert IntentOk(db.events, db.actions, db.policies, db.deliveries[d].intent);
  }

  lemma ActContains(s: Sys, w: nat, a: Act, d: nat)
    requires Protocol(s) && LinkInv(s.db) && Convs(s.db) && Aligned(s.db) && CanAct(s, w, a) && d < |s.db.deliveries|
    requires |DbAfter(s, w, a).deliveries| >= |s.db.deliveries|
    requires !WentWrong(s.db.deliveries[d].status) && WentWrong(DbAfter(s, w, a).deliveries[d].status)
    ensures a.RecordError? && s.workers[w].delivery == d
    ensures DbAfter(s, w, a).convs[s.db.deliveries[d].intent.conv].paused
  {
    hide ProtocolInvariant.ProtocolInv, LinkInv, ConvInv, CommitDecision, LogJobs, PermissionReason, PolicyOutcome;
    var p, db := s.workers[w], s.db;
    HolderRow(s, w);
    IntentConv(db, d);
    match a
    case CommitAnswer(f, now) =>
      var outcome := PolicyOutcome(db, p, f);
      if CommitDecision(db, s.cfg, p.job, p.stage.decision, outcome, p.stage.mode, now).Some? {
        CommitDeliveries(db, s.cfg, p.job, p.stage.decision, outcome, p.stage.mode, now);
      }
    case RecordError => ErrorPauses(db, p.delivery, p.attempt, p.leg.ambiguous);
    case _ =>
  }

  lemma OperationSpares(db: Db, op: Operation, d: nat)
    requires LinkInv(db) && Aligned(db) && CanOperate(op) && d < |db.deliveries|
    ensures d < |Operated(db, op).deliveries| && Operated(db, op).deliveries[d] == db.deliveries[d]
  {
    hide Retry, Dismiss, EditReview, TransitionReview, SetBotPaused, SetConversationStatus, CreateHumanReply, LinkInv;
    if op.Reply? && CreateHumanReply(db, op.conv, op.text, op.now).Some? {
      ReplyDeliveries(db, op.conv, op.text, op.now);
    }
  }

  /** The step by which a delivery becomes failed or unknown pauses its conversation. */
  lemma FailurePauses(s: Sys, step: Step, d: nat)
    requires Inv(s) && Enabled(s, step) && d < |s.db.deliveries| && !WentWrong(s.db.deliveries[d].status)
    requires d < |Next(s, step).db.deliveries| && WentWrong(Next(s, step).db.deliveries[d].status)
    ensures var c := s.db.deliveries[d].intent.conv;
      c < |Next(s, step).db.convs| && Next(s, step).db.convs[c].paused
  {
    hide ConvInv, JobRows, LinkInv, DraftInv, AnswerInv, AuditInv, PcInv, Protocol, CallsAsWritten, DbAfter, PcAfter,
      Enqueue, Webhook, RecoverAll, RecoverStale, Operated, CanAct, WentWrong, FromInstagram;
    IntentConv(s.db, d);
    match step
    case RecoverSends(now) =>
      var ids := ExpiredDeliveries(s.db.deliveries, now, |s.db.deliveries|);
      RecoverRow(s.db, now, d);
      RecoverAllPauses(s.db, ids, d);
      RecoverAllConvs(s.db, ids);
    case Work(w, a) =>
      ActMoves(s, w, a, d);
      ActContains(s, w, a, d);
      ActPauses(s, w, a);
    case Operate(op) => OperationSpares(s.db, op, d);
    case _ =>
  }
}
