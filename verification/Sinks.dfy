/** An action leaves the bridge in one way at most: what has a delivery is never executed by the simulated sink, nor is
    what policy lets the bridge ignore. */
module Sinks {
  import opened Types
  import opened WorkspaceModel
  import opened QueueModel
  import opened DeliveryModel
  import opened WorkerModel
  import opened System
  import opened QueueInvariant
  import opened LinkInvariant
  import opened AnswerInvariant
  import opened AuditInvariant
  import opened Safety
  import opened DecisionRules
  import opened Provenance
  import DeliveryRules
  import Outcomes

  /** Action `k` is for the simulated sink. */
  ghost predicate ForSink(db: Db, k: nat) {
    k < |db.actions| && !db.actions[k].kind.NoAction? && !HasDelivery(db.deliveries, k)
  }

  /** Recorded as executed only what the policy allows, in a mode that lets it out. */
  ghost predicate RightlyExecuted(db: Db, k: nat, executed: bool, mode: Mode) {
    executed ==> k in db.policies && db.policies[k].Allowed? && (mode.Live? || mode.Canary?)
  }

  ghost predicate StageSinks(db: Db, p: Pc) {
    p.OnJob? ==>
      match p.stage
      case Ready(a, queued) => a < |db.actions| && (queued <==> HasDelivery(db.deliveries, a))
      case Executing(a, _) => ForSink(db, a)
      case Recording(a, f) => ForSink(db, a) && RightlyExecuted(db, a, f.executed, f.mode)
      case _ => true
  }

  ghost predicate SinkInv(s: Sys) {
    && (forall k :: k in s.db.executions ==>
          ForSink(s.db, k) && RightlyExecuted(s.db, k, s.db.executions[k].executed, s.db.executions[k].mode))
    && (forall w :: 0 <= w < |s.workers| ==> StageSinks(s.db, s.workers[w]))
  }

  /** Actions, policies and deliveries of old actions stay. */
  ghost predicate Stays(a: Db, b: Db) {
    && a.actions <= b.actions && PoliciesKept(a.policies, b.policies)
    && forall k: nat :: k < |a.actions| ==> (HasDelivery(b.deliveries, k) <==> HasDelivery(a.deliveries, k))
  }

  lemma SinkStays(a: Db, b: Db, p: Pc)
    requires Stays(a, b) && StageSinks(a, p)
    ensures StageSinks(b, p)
  {
    hide HasDelivery;
  }

  lemma ExecutionsStay(a: Db, b: Db, k: nat, executed: bool, mode: Mode)
    requires Stays(a, b) && ForSink(a, k) && RightlyExecuted(a, k, executed, mode)
    ensures ForSink(b, k) && RightlyExecuted(b, k, executed, mode)
  {
    hide HasDelivery;
  }

  lemma SameActions(a: seq<Delivery>, b: seq<Delivery>, k: nat)
    requires IntentsKept(a, b) && |a| <= |b|
    requires forall d :: |a| <= d < |b| ==> b[d].intent.action != k
    ensures HasDelivery(b, k) <==> HasDelivery(a, k)
  {
    if d :| 0 <= d < |a| && a[d].intent.action == k {
      assert b[d].intent.action == k;
    }
    if d :| 0 <= d < |b| && b[d].intent.action == k {
      assert a[d].intent.action == k;
    }
  }

  /** New deliveries belong to new actions. */
  lemma NewForNew(s: Sys, step: Step)
    requires Inv(s) && Enabled(s, step)
    ensures var db := Next(s, step).db;
      |s.db.deliveries| <= |db.deliveries|
      && forall d :: |s.db.deliveries| <= d < |db.deliveries| ==> db.deliveries[d].intent.action == |s.db.actions|
  {
    hide Inv, Next, Enabled, OutcomeOf, GoesOut, Decided;
    if step.Work? && step.act.CommitAnswer? {
      CommitDecided(s, step.w, step.act.facts, step.act.now);
      if Next(s, step).db != s.db { DecidedForNew(s, Next(s, step), step); }
    } else if step.Operate? && step.op.Reply? {
      ReplyForNew(s, step.op.conv, step.op.text, step.op.now);
    } else {
      OthersAddNone(s, step);
    }
  }

  lemma DecidedForNew(s: Sys, t: Sys, step: Step)
    requires Decided(s, t, step, |s.db.actions|)
    ensures |s.db.deliveries| <= |t.db.deliveries|
    ensures forall d :: |s.db.deliveries| <= d < |t.db.deliveries| ==>
      t.db.deliveries[d].intent.action == |s.db.actions|
  {
    hide OutcomeOf;
  }

  lemma ReplyForNew(s: Sys, c: nat, text: string, now: nat)
    requires Inv(s) && Enabled(s, Operate(Reply(c, text, now)))
    ensures var db := Next(s, Operate(Reply(c, text, now))).db;
      |s.db.deliveries| <= |db.deliveries|
      && forall d :: |s.db.deliveries| <= d < |db.deliveries| ==> db.deliveries[d].intent.action == |s.db.actions|
  {
    hide ConvInv, JobRows, LinkInv, DraftInv, AnswerInv, DoneInv, AuditInv, PcInv, Protocol, CallsAsWritten,
      CreateHumanReply, DeliveryRules.Replyable;
    if CreateHumanReply(s.db, c, text, now).Some? { DeliveryRules.CreatesReply(s.db, c, text, now); }
  }

  lemma StepStays(s: Sys, step: Step)
    requires Inv(s) && Enabled(s, step)
    ensures Stays(s.db, Next(s, step).db)
  {
    hide Inv, Next, Enabled, HasDelivery;
    StepKeepsInv(s, step);
    NewForNew(s, step);
    var a, b := s.db, Next(s, step).db;
    forall k: nat | k < |a.actions|
      ensures HasDelivery(b.deliveries, k) <==> HasDelivery(a.deliveries, k)
    {
      SameActions(a.deliveries, b.deliveries, k);
    }
  }

  /** The moving worker's own next position. */
  lemma OwnSinks(s: Sys, w: nat, a: Act)
    requires Inv(s) && Enabled(s, Work(w, a)) && w < |s.workers| && StageSinks(s.db, s.workers[w])
    ensures var t := Next(s, Work(w, a)); w < |t.workers| && StageSinks(t.db, t.workers[w])
  {
    hide Inv, Next, Enabled, StageSinks;
    StepStays(s, Work(w, a));
    if a.CommitAnswer? {
      CommitSinks(s, w, a);
    } else {
      InvParts(s, w, a);
      MoveSinks(s, w, a);
      SinkStays(s.db, Next(s, Work(w, a)).db, PcAfter(s, w, a));
      OwnPc(s, w, a);
    }
  }

  lemma InvParts(s: Sys, w: nat, a: Act)
    requires Inv(s) && Enabled(s, Work(w, a))
    ensures Aligned(s.db) && CanAct(s, w, a) && PcInv(s)
  {
    hide CanAct, PcInv;
  }

  lemma OwnPc(s: Sys, w: nat, a: Act)
    requires Enabled(s, Work(w, a)) && w < |s.workers|
    ensures |Next(s, Work(w, a)).workers| == |s.workers| && Next(s, Work(w, a)).workers[w] == PcAfter(s, w, a)
  {
    hide PcAfter, DbAfter;
  }

  lemma MoveSinks(s: Sys, w: nat, a: Act)
    requires Aligned(s.db) && CanAct(s, w, a) && PcInv(s) && StageSinks(s.db, s.workers[w]) && !a.CommitAnswer?
    ensures StageSinks(s.db, PcAfter(s, w, a))
  {
    hide HasDelivery, PermissionReason, IsFirstAction, NewerInbound;
    assert PcOk(s.db.events, s.db.actions, s.workers[w]);
    if a.LookUp? { FirstInRange(s.db.actions, s.workers[w].job, a.found); }
  }

  lemma FirstInRange(actions: seq<Action>, j: nat, found: Option<nat>)
    requires IsFirstAction(actions, j, found)
    ensures found.Some? ==> found.value < |actions|
  {}

  lemma CommitSinks(s: Sys, w: nat, a: Act)
    requires Inv(s) && Enabled(s, Work(w, a)) && w < |s.workers| && a.CommitAnswer?
    ensures var t := Next(s, Work(w, a)); w < |t.workers| && StageSinks(t.db, t.workers[w])
  {
    hide ConvInv, JobRows, LinkInv, DraftInv, AnswerInv, DoneInv, AuditInv, PcInv, Protocol, CallsAsWritten,
      CommitDecision, OutcomeOf, GoesOut, HasDelivery, Queues;
    JobInvAligned(s.db);
    var p := s.workers[w];
    var outcome := VerdictOf(s, w, a.facts);
    DecidesIfSound(s.db, s.cfg, p.job, p.stage.decision, outcome, p.stage.mode, a.now);
    if CommitDecision(s.db, s.cfg, p.job, p.stage.decision, outcome, p.stage.mode, a.now).Some? {
      var b := CommitDecision(s.db, s.cfg, p.job, p.stage.decision, outcome, p.stage.mode, a.now).value;
      DeliveryRules.Unanswered(s.db);
      QueuedHas(s.db, b, |s.db.actions|);
    }
  }

  lemma QueuedHas(a: Db, b: Db, k: nat)
    requires !HasDelivery(a.deliveries, k)
    ensures b.deliveries == a.deliveries ==> !HasDelivery(b.deliveries, k)
    ensures |b.deliveries| == |a.deliveries| + 1 && b.deliveries[|a.deliveries|].intent.action == k ==>
      HasDelivery(b.deliveries, k)
  {}

  lemma RecordsInSink(s: Sys, step: Step, k: nat)
    requires Inv(s) && Enabled(s, step) && SinkInv(s)
    requires k in Next(s, step).db.executions && k !in s.db.executions
    ensures var e := Next(s, step).db.executions[k]; ForSink(s.db, k) && RightlyExecuted(s.db, k, e.executed, e.mode)
  {
    hide Inv, Enqueue, Webhook, RecoverStale, RecoverDeliveries, CanAct, DbAfter, PcAfter, FromInstagram, Operated,
      ForSink, RightlyExecuted;
    OnlyRecording(s, step);
    assert StageSinks(s.db, s.workers[step.w]);
  }

  lemma OperatorsExecuteNothing(db: Db, op: Operation)
    requires Aligned(db) && CanOperate(op)
    ensures Operated(db, op).executions == db.executions
  {
    hide CreateHumanReply, TransitionReview, EditReview, Retry, Dismiss, SetBotPaused, SetConversationStatus;
  }

  /** What comes from outside, and recoveries, executes nothing. */
  lemma OthersExecuteNothing(s: Sys, step: Step)
    requires Enabled(s, step) && !step.Work?
    ensures Next(s, step).db.executions == s.db.executions
  {
    hide Enqueue, Webhook, RecoverStale, RecoverDeliveries, FromInstagram, Operated;
    if step.Operate? { OperatorsExecuteNothing(s.db, step.op); }
  }

  lemma OnlyRecording(s: Sys, step: Step)
    requires Enabled(s, step) && Next(s, step).db.executions != s.db.executions
    ensures step.Work? && step.act.Record? && step.w < |s.workers| && s.workers[step.w].OnJob?
    ensures s.workers[step.w].stage.Recording?
    ensures var a, f := s.workers[step.w].stage.action, s.workers[step.w].stage.finding;
      Next(s, step).db.executions == s.db.executions[a := Execution(f.executed, f.mode)]
  {
    hide CanAct, DbAfter, PcAfter, Operated, Enqueue, Webhook, RecoverStale, RecoverDeliveries, FromInstagram;
    if step.Work? {
      ActRecords(s, step.w, step.act);
    } else {
      OthersExecuteNothing(s, step);
    }
  }

  lemma ActRecords(s: Sys, w: nat, a: Act)
    requires Aligned(s.db) && CanAct(s, w, a)
    ensures DbAfter(s, w, a).executions == s.db.executions
            || (a.Record? && w < |s.workers| && s.workers[w].OnJob? && s.workers[w].stage.Recording?
                && var f := s.workers[w].stage.finding;
                   DbAfter(s, w, a).executions
                   == s.db.executions[s.workers[w].stage.action := Execution(f.executed, f.mode)])
  {
    hide Claim, Fail, Complete, Supersede, IsOldest, IsNewest, IsFirstAction, CommitDecision, PolicyOutcome, Suppress,
      FinishSent, FinishError;
  }

  lemma StepSinks(s: Sys, step: Step)
    requires Inv(s) && Enabled(s, step) && SinkInv(s)
    ensures SinkInv(Next(s, step))
  {
    hide Inv, Next, Enabled, StageSinks, ForSink, RightlyExecuted, Stays;
    var t := Next(s, step);
    StepStays(s, step);
    OnlyMover(s, step);
    forall w | 0 <= w < |t.workers|
      ensures StageSinks(t.db, t.workers[w])
    {
      if step.Work? && step.w == w {
        OwnSinks(s, w, step.act);
      } else {
        SinkStays(s.db, t.db, s.workers[w]);
      }
    }
    forall k | k in t.db.executions
      ensures ForSink(t.db, k) && RightlyExecuted(t.db, k, t.db.executions[k].executed, t.db.executions[k].mode)
    {
      if k !in s.db.executions {
        RecordsInSink(s, step, k);
      } else {
        OldExecution(s, step, k);
      }
      ExecutionsStay(s.db, t.db, k, t.db.executions[k].executed, t.db.executions[k].mode);
    }
  }

  lemma OnlyMover(s: Sys, step: Step)
    requires Enabled(s, step)
    ensures var t := Next(s, step);
      && |t.workers| == |s.workers| && (step.Work? ==> step.w < |s.workers|)
      && forall w :: 0 <= w < |s.workers| && !(step.Work? && step.w == w) ==> t.workers[w] == s.workers[w]
  {
    hide Enqueue, Webhook, RecoverStale, RecoverDeliveries, DbAfter, PcAfter, FromInstagram, Operated;
  }

  /** An execution is never rewritten. */
  lemma OldExecution(s: Sys, step: Step, k: nat)
    requires Enabled(s, step) && k in s.db.executions
    ensures k in Next(s, step).db.executions && Next(s, step).db.executions[k] == s.db.executions[k]
  {
    hide CanAct, DbAfter, PcAfter, Operated, Enqueue, Webhook, RecoverStale, RecoverDeliveries, FromInstagram;
    if step.Work? {
      OldStays(s, step.w, step.act, k);
    } else {
      OthersExecuteNothing(s, step);
    }
  }

  lemma OldStays(s: Sys, w: nat, a: Act, k: nat)
    requires Aligned(s.db) && CanAct(s, w, a) && k in s.db.executions
    ensures var x := DbAfter(s, w, a).executions; k in x && x[k] == s.db.executions[k]
  {
    hide Claim, Fail, Complete, Supersede, IsOldest, IsNewest, IsFirstAction, CommitDecision, PolicyOutcome, Suppress,
      FinishSent, FinishError;
  }

  lemma {:induction false} RunsSink(ss: seq<Sys>, steps: seq<Step>, i: nat)
    requires IsRun(ss, steps) && i < |ss|
    ensures SinkInv(ss[i])
  {
    hide Inv, Next, Enabled, SinkInv;
    if i == 0 {
      assert SinkInv(ss[0]) by { NothingExecuted(ss[0]); }
    } else {
      RunsSink(ss, steps, i - 1);
      RunsAreSafe(ss, steps, i - 1);
      assert Enabled(ss[i - 1], steps[i - 1]) && ss[i - 1 + 1] == Next(ss[i - 1], steps[i - 1]);
      StepSinks(ss[i - 1], steps[i - 1]);
    }
  }

  lemma NothingExecuted(s: Sys)
    requires Initial(s)
    ensures SinkInv(s)
  {}

  /** In every reachable state no action is both executed and delivered, none that is executed was to be ignored, and
      those recorded as executed were allowed, in live or canary mode. */
  lemma OneWayOut(ss: seq<Sys>, steps: seq<Step>, i: nat, k: nat)
    requires IsRun(ss, steps) && i < |ss| && k in ss[i].db.executions
    ensures var db := ss[i].db;
      && k < |db.actions| && !db.actions[k].kind.NoAction?
      && (forall d :: 0 <= d < |db.deliveries| ==> db.deliveries[d].intent.action != k)
      && (db.executions[k].executed ==>
            && k in db.policies && db.policies[k].Allowed?
            && (db.executions[k].mode.Live? || db.executions[k].mode.Canary?))
  {
    hide IsRun;
    RunsSink(ss, steps, i);
  }
}
