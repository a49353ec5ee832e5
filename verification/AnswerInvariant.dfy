/** No accepted message and no answer is lost: what completed jobs, agent actions and workers in mid-flight
    always have behind them. */
module AnswerInvariant {
  import opened Types
  import opened WorkspaceModel
  import opened QueueModel
  import opened DeliveryModel
  import opened WorkerModel
  import opened System
  import opened LinkInvariant
  import Text

  // ----------------------------------------------------------------- answers

  predicate Ongoing(row: Delivery) {
    row.status.Waiting? || row.status.Sending? || row.status.Sent?
  }

  ghost predicate HasLive(deliveries: seq<Delivery>, a: nat) {
    exists d :: 0 <= d < |deliveries| && deliveries[d].intent.action == a && Ongoing(deliveries[d])
  }

  /** An agent's action is on its way or sent, is under human review, or was ignored by policy. */
  ghost predicate Accounted(a: nat, kind: ActionKind, policies: map<nat, Outcome>, reviews: map<nat, Review>,
                            deliveries: seq<Delivery>) {
    || a in reviews
    || (kind.NoAction? && a in policies && policies[a].Ignored?)
    || HasLive(deliveries, a)
  }

  ghost predicate AnswerInv(actions: seq<Action>, policies: map<nat, Outcome>, reviews: map<nat, Review>,
                            deliveries: seq<Delivery>) {
    forall a :: 0 <= a < |actions| && actions[a].author.Agent? ==>
      Accounted(a, actions[a].kind, policies, reviews, deliveries)
  }

  ghost predicate Answers(db: Db) {
    AnswerInv(db.actions, db.policies, db.reviews, db.deliveries)
  }

  /** A bot delivery may only stop being live once its action has a review. */
  lemma SettlingKeeps(before: Db, after: Db)
    requires Answers(before) && LinkInv(before)
    requires after.actions == before.actions && after.policies == before.policies
    requires ReviewsKept(before.reviews, after.reviews) && IntentsKept(before.deliveries, after.deliveries)
    requires forall d :: 0 <= d < |before.deliveries| && before.deliveries[d].intent.author.Agent?
                         && Ongoing(before.deliveries[d]) ==>
      Ongoing(after.deliveries[d]) || before.deliveries[d].intent.action in after.reviews
    ensures Answers(after)
  {
    forall a | 0 <= a < |after.actions| && after.actions[a].author.Agent?
      ensures Accounted(a, after.actions[a].kind, after.policies, after.reviews, after.deliveries)
    {
      assert Accounted(a, before.actions[a].kind, before.policies, before.reviews, before.deliveries);
      if HasLive(before.deliveries, a) {
        var d :| 0 <= d < |before.deliveries| && before.deliveries[d].intent.action == a && Ongoing(before.deliveries[d]);
        assert IntentOk(before.events, before.actions, before.policies, before.deliveries[d].intent);
        assert after.deliveries[d].intent.action == a;
      }
    }
  }

  /** Adding an action that is the human's, or that is accounted for. */
  lemma NewActionAccounted(before: Db, after: Db, action: Action)
    requires Answers(before) && LinkInv(before)
    requires after.actions == before.actions + [action] && PoliciesKept(before.policies, after.policies)
    requires ReviewsKept(before.reviews, after.reviews) && before.deliveries <= after.deliveries
    requires action.author.Agent? ==>
      Accounted(|before.actions|, action.kind, after.policies, after.reviews, after.deliveries)
    ensures Answers(after)
  {
    forall a | 0 <= a < |before.actions| && before.actions[a].author.Agent?
      ensures Accounted(a, before.actions[a].kind, after.policies, after.reviews, after.deliveries)
    {
      assert Accounted(a, before.actions[a].kind, before.policies, before.reviews, before.deliveries);
      if HasLive(before.deliveries, a) {
        var d :| 0 <= d < |before.deliveries| && before.deliveries[d].intent.action == a && Ongoing(before.deliveries[d]);
        assert after.deliveries[d] == before.deliveries[d];
      }
    }
  }

  lemma CommitAnswers(db: Db, cfg: Config, j: nat, d: Decision, outcome: Outcome, mode: Mode, now: nat)
    requires Answers(db) && LinkInv(db) && DraftInv(db.reviews, db.revisions) && Aligned(db) && j < |db.jobs|
    requires CommitDecision(db, cfg, j, d, outcome, mode, now).Some?
    ensures Answers(CommitDecision(db, cfg, j, d, outcome, mode, now).value)
  {
    hide CommitDecision, DraftInv, AnswerInv, DeliveryRows;
    var after := CommitDecision(db, cfg, j, d, outcome, mode, now).value;
    var e, a := db.events[j], |db.actions|;
    var db1 := RecordDecision(db, j, Intended(d), outcome, now);
    CommitShape(db, cfg, j, d, outcome, mode, now);
    CommitKeeps(db, cfg, j, d, outcome, mode, now);
    NewActionKeeps(db, Action(j, j, Intended(d), Agent, now), outcome);
    if Queues(db, cfg, j, outcome, mode) {
      var t := Intent(a, e.conv, e.msg.recipient, e.msg.sender, d.text, Agent);
      EnqueueDeliveryKeeps(db1, t, now);
      assert after.deliveries[|db.deliveries|] == NewDelivery(t.(text := Text.Strip(t.text)), now);
      assert HasLive(after.deliveries, a);
    } else if !(Intended(d).NoAction? && outcome.Ignored?) {
      assert a in after.reviews;
    }
    NewActionAccounted(db, after, Action(j, j, Intended(d), Agent, now));
  }

  lemma ReplyAnswers(db: Db, c: nat, text: string, now: nat)
    requires Answers(db) && LinkInv(db) && DraftInv(db.reviews, db.revisions)
    requires CreateHumanReply(db, c, text, now).Some?
    ensures Answers(CreateHumanReply(db, c, text, now).value)
  {
    hide EnqueueDelivery, AnswerInv;
    ReplyKeeps(db, c, text, now);
    var e := LatestEvent(db.events, c).value;
    var a := |db.actions|;
    var action := Action(e, e, HumanReply, Human, now);
    NewActionKeeps(db, action, Allowed);
    var db1 := db.(actions := db.actions + [action], actionStates := db.actionStates[a := AwaitingDelivery],
                   policies := db.policies[a := Allowed]);
    EnqueueDeliveryKeeps(db1, Intent(a, c, db.accounts[db.convs[c].account].external, db.convs[c].customer,
                                     Text.Strip(text), Human), now);
    NewActionAccounted(db, CreateHumanReply(db, c, text, now).value, action);
  }

  lemma {:induction false} RecoverAllAnswers(db: Db, ids: seq<nat>)
    requires Answers(db) && LinkInv(db) && DraftInv(db.reviews, db.revisions)
    requires forall k :: 0 <= k < |ids| ==> ids[k] < |db.deliveries|
    ensures Answers(RecoverAll(db, ids))
  {
    if ids != [] {
      var n := |ids| - 1;
      RecoverAllAnswers(db, ids[..n]);
      RecoverAllLinks(db, ids[..n]);
      RecoverAnswers(RecoverAll(db, ids[..n]), ids[n]);
    }
  }

  lemma RecoverAnswers(db: Db, d: nat)
    requires Answers(db) && LinkInv(db) && DraftInv(db.reviews, db.revisions) && d < |db.deliveries|
    ensures Answers(RecoverDelivery(db, d))
  {
    hide AnswerInv;
    RecoverLinks(db, d);
    assert db.deliveries[d].intent.action in RecoverDelivery(db, d).reviews;
    SettlingKeeps(db, RecoverDelivery(db, d));
  }

  lemma ActAnswers(s: Sys, w: nat, a: Act)
    requires Answers(s.db) && LinkInv(s.db) && DraftInv(s.db.reviews, s.db.revisions) && Aligned(s.db)
    requires CanAct(s, w, a) && (a.TakeDelivery? ==> s.db.deliveries[a.next].status.Waiting?)
    ensures Answers(DbAfter(s, w, a))
  {
    hide AnswerInv, LinkInv, DraftInv, CommitDecision, FinishError, EnsureEscalation, PermissionReason, PolicyOutcome,
      Claim, Fail, Complete, Supersede, IsOldest, IsNewest, IsFirstAction, Suppress, FinishSent,
      ClaimDelivery;
    var p, db := s.workers[w], s.db;
    match a
    case CommitAnswer(f, now) =>
      var outcome := PolicyOutcome(db, p, f);
      if CommitDecision(db, s.cfg, p.job, p.stage.decision, outcome, p.stage.mode, now).Some? {
        CommitAnswers(db, s.cfg, p.job, p.stage.decision, outcome, p.stage.mode, now);
      }
    case TakeDelivery(next, now, until) => TakeAnswers(db, next, until, w);
    case Withhold =>
      if Suppress(db, p.delivery).Some? { SuppressAnswers(db, p.delivery); }
    case RecordSent =>
      if FinishSent(db, p.delivery, p.attempt).Some? { SentAnswers(db, p.delivery, p.attempt); }
    case RecordError =>
      if FinishError(db, p.delivery, p.attempt, p.leg.ambiguous).Some? {
        ErrorAnswers(db, p.delivery, p.attempt, p.leg.ambiguous);
      }
    case _ =>
  }

  lemma TakeAnswers(db: Db, d: nat, until: nat, w: nat)
    requires Answers(db) && LinkInv(db) && d < |db.deliveries|
    ensures Answers(ClaimDelivery(db, d, until, w))
    ensures ClaimDelivery(db, d, until, w) == db.(deliveries := ClaimDelivery(db, d, until, w).deliveries)
  {
    hide AnswerInv, LinkInv;
    SettlingKeeps(db, ClaimDelivery(db, d, until, w));
  }

  lemma SuppressAnswers(db: Db, d: nat)
    requires Answers(db) && LinkInv(db) && d < |db.deliveries| && Suppress(db, d).Some?
    ensures Answers(Suppress(db, d).value)
  {
    hide AnswerInv, LinkInv, Suppress;
    SettlingKeeps(db, Suppress(db, d).value);
  }

  lemma SentAnswers(db: Db, d: nat, n: nat)
    requires Answers(db) && LinkInv(db) && d < |db.deliveries| && FinishSent(db, d, n).Some?
    ensures Answers(FinishSent(db, d, n).value)
  {
    hide AnswerInv, LinkInv, FinishSent;
    SettlingKeeps(db, FinishSent(db, d, n).value);
  }

  lemma ErrorAnswers(db: Db, d: nat, n: nat, ambiguous: bool)
    requires Answers(db) && LinkInv(db) && DraftInv(db.reviews, db.revisions) && d < |db.deliveries|
    requires FinishError(db, d, n, ambiguous).Some?
    ensures Answers(FinishError(db, d, n, ambiguous).value)
  {
    hide AnswerInv;
    FinishErrorLinks(db, d, n, ambiguous);
    assert db.deliveries[d].intent.action in FinishError(db, d, n, ambiguous).value.reviews;
    SettlingKeeps(db, FinishError(db, d, n, ambiguous).value);
  }

  lemma OperationAnswers(db: Db, op: Operation)
    requires Answers(db) && LinkInv(db) && DraftInv(db.reviews, db.revisions) && Aligned(db) && CanOperate(op)
    ensures Answers(Operated(db, op))
  {
    hide AnswerInv, LinkInv, DraftInv, CreateHumanReply, EditReview, TransitionReview;
    match op
    case Reply(c, text, now) => if CreateHumanReply(db, c, text, now).Some? { ReplyAnswers(db, c, text, now); }
    case Edit(r, text) =>
      if EditReview(db, r, text).Edited? { EditKeeps(db, r, text); SettlingKeeps(db, EditReview(db, r, text).db); }
    case Transition(r, target) =>
      if TransitionReview(db, r, target).Moved? {
        TransitionKeeps(db, r, target);
        SettlingKeeps(db, TransitionReview(db, r, target).db);
      }
    case _ =>
  }

  lemma StepAnswers(s: Sys, step: Step)
    requires Answers(s.db) && LinkInv(s.db) && DraftInv(s.db.reviews, s.db.revisions) && Enabled(s, step)
    ensures Answers(Next(s, step).db)
  {
    hide AnswerInv, LinkInv, DraftInv, Enqueue, Webhook, DbAfter, PcAfter, Operated, LogJobs, RecoverAll;
    match step
    case Ingest(m, now, debounce) =>
    case Post(digest, msgs, ignored, now, debounce) =>
    case RecoverJobs(now) =>
    case RecoverSends(now) =>
      RecoverAllAnswers(s.db, ExpiredDeliveries(s.db.deliveries, now, |s.db.deliveries|));
    case Work(w, a) => ActAnswers(s, w, a);
    case Operate(op) => OperationAnswers(s.db, op);
  }

  // ------------------------------------------------------------ completed jobs

  ghost predicate HasAction(actions: seq<Action>, j: nat) {
    exists a :: 0 <= a < |actions| && actions[a].job == j
  }

  /** A completed job has at least one action. */
  ghost predicate DoneInv(jobs: seq<Job>, actions: seq<Action>) {
    forall j :: 0 <= j < |jobs| && jobs[j].state.Completed? ==> HasAction(actions, j)
  }

  lemma MoreActions(jobs: seq<Job>, before: seq<Action>, after: seq<Action>)
    requires DoneInv(jobs, before) && before <= after
    ensures DoneInv(jobs, after)
  {
    forall j | 0 <= j < |jobs| && jobs[j].state.Completed?
      ensures HasAction(after, j)
    {
      var a :| 0 <= a < |before| && before[a].job == j;
      assert after[a] == before[a];
    }
  }

  lemma {:induction false} WritesNotDone(db: Db, ws: seq<JobWrite>)
    requires DoneInv(db.jobs, db.actions) && WritesFit(db, ws)
    requires forall k :: 0 <= k < |ws| ==> !ws[k].row.state.Completed?
    ensures DoneInv(LogJobs(db, ws).jobs, db.actions)
  {
    if ws != [] {
      WritesNotDone(db, ws[..|ws| - 1]);
    }
  }

  // --------------------------------------------------- workers in mid-flight

  ghost predicate StageOk(events: seq<Event>, actions: seq<Action>, j: nat, stage: Stage)
    requires j < |events|
  {
    match stage
    case Overtaken => NewerEvent(events, events[j].conv, j)
    case Superseding(n) => n.Some? && j < n.value < |events| && events[n.value].conv == events[j].conv
    case Ready(a, _) => a < |actions| && actions[a].job == j
    case Executing(a, _) => a < |actions| && actions[a].job == j
    case Recording(a, _) => a < |actions| && actions[a].job == j
    case Finishing(a) => a < |actions| && actions[a].job == j
    case _ => true
  }

  ghost predicate PcOk(events: seq<Event>, actions: seq<Action>, p: Pc) {
    p.OnJob? ==> p.job < |events| && StageOk(events, actions, p.job, p.stage)
  }

  ghost predicate PcInv(s: Sys) {
    forall w :: 0 <= w < |s.workers| ==> PcOk(s.db.events, s.db.actions, s.workers[w])
  }

  lemma PcGrows(before: Db, after: Db, p: Pc)
    requires Grows(before, after) && PcOk(before.events, before.actions, p)
    ensures PcOk(after.events, after.actions, p)
  {
    if p.OnJob? && p.stage.Overtaken? {
      var i :| p.job < i < |before.events| && before.events[i].conv == before.events[p.job].conv;
      assert after.events[i] == before.events[i];
    }
  }

  /** The worker's own next position. */
  lemma OwnPcOk(s: Sys, w: nat, a: Act)
    requires PcInv(s) && LinkInv(s.db) && Aligned(s.db) && CanAct(s, w, a)
    ensures PcOk(DbAfter(s, w, a).events, DbAfter(s, w, a).actions, PcAfter(s, w, a))
  {
    hide CanAct, DbAfter, PcAfter, PcOk, LinkInv;
    if a.CommitAnswer? {
      DecidingPcOk(s, w, a);
    } else if a.FindSuccessor? {
      OvertakenPcOk(s, w);
    } else {
      MovingPcOk(s, w, a);
    }
  }

  lemma DecidingPcOk(s: Sys, w: nat, a: Act)
    requires LinkInv(s.db) && Aligned(s.db) && CanAct(s, w, a) && a.CommitAnswer?
    ensures PcOk(DbAfter(s, w, a).events, DbAfter(s, w, a).actions, PcAfter(s, w, a))
  {
    hide LinkInv, CommitDecision, PolicyOutcome, Queues;
    var p, db := s.workers[w], s.db;
    var outcome := PolicyOutcome(db, p, a.facts);
    if CommitDecision(db, s.cfg, p.job, p.stage.decision, outcome, p.stage.mode, a.now).Some? {
      CommitShape(db, s.cfg, p.job, p.stage.decision, outcome, p.stage.mode, a.now);
    }
  }

  lemma OvertakenPcOk(s: Sys, w: nat)
    requires PcInv(s) && Aligned(s.db) && CanAct(s, w, FindSuccessor)
    ensures PcOk(s.db.events, s.db.actions, PcAfter(s, w, FindSuccessor)) && DbAfter(s, w, FindSuccessor) == s.db
  {
    assert PcOk(s.db.events, s.db.actions, s.workers[w]);
    LatestIsLater(s.db.events, s.workers[w].job);
  }

  lemma MovingPcOk(s: Sys, w: nat, a: Act)
    requires PcInv(s) && Aligned(s.db) && CanAct(s, w, a) && !a.CommitAnswer? && !a.FindSuccessor?
    ensures PcOk(DbAfter(s, w, a).events, DbAfter(s, w, a).actions, PcAfter(s, w, a))
  {
    hide Suppress, FinishSent, FinishError, ClaimDelivery, PermissionReason, Find, Claim, Fail, Complete, Supersede,
      IsOldest, IsNext;
    assert PcOk(s.db.events, s.db.actions, s.workers[w]);
  }

  lemma LatestIsLater(events: seq<Event>, e: nat)
    requires e < |events| && NewerEvent(events, events[e].conv, e)
    ensures var n := LatestOther(events, e, |events|);
      n.Some? && e < n.value < |events| && events[n.value].conv == events[e].conv
  {
    var i :| e < i < |events| && events[i].conv == events[e].conv;
  }
}
