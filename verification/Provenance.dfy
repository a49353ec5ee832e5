/** Where actions and deliveries come from: on every run, a message that was dropped had been found to be spam, and a
    text that the bot sends is that of a vetted decision. */
module Provenance {
  import opened Types
  import opened Text
  import opened WorkspaceModel
  import opened QueueModel
  import opened DeliveryModel
  import opened WorkerModel
  import opened System
  import opened QueueInvariant
  import opened LinkInvariant
  import opened AnswerInvariant
  import opened AuditInvariant
  import opened Safety
  import opened DecisionRules
  import DeliveryRules
  import Policy

  /** The verdict on the decision that worker `w` is about to commit. */
  function VerdictOf(s: Sys, w: nat, f: Policy.Facts): Outcome
    requires w < |s.workers| && s.workers[w].OnJob? && s.workers[w].stage.Deciding?
    requires s.workers[w].job < |s.db.events|
  {
    var p := s.workers[w];
    OutcomeOf(p.stage.decision, s.db.events[p.job].msg.channel, p.stage.paused, f)
  }

  /** The step commits a worker's decision, as action `a`. */
  ghost predicate Decided(s: Sys, t: Sys, step: Step, a: nat) {
    && step.Work? && step.act.CommitAnswer? && step.w < |s.workers| && s.workers[step.w].OnJob?
    && s.workers[step.w].stage.Deciding? && s.workers[step.w].job < |s.db.events| && a == |s.db.actions| < |t.db.actions|
    && var p := s.workers[step.w];
       DecisionOk(s.db, t.db, s.cfg, p.job, p.stage.decision, VerdictOf(s, step.w, step.act.facts), p.stage.mode,
                  step.act.now, t.db.actions[a].kind)
  }

  lemma CommitDecided(s: Sys, w: nat, f: Policy.Facts, now: nat)
    requires Inv(s) && Enabled(s, Work(w, CommitAnswer(f, now)))
    ensures var step := Work(w, CommitAnswer(f, now));
      var t := Next(s, step);
      t.db == s.db || Decided(s, t, step, |s.db.actions|)
  {
    hide ConvInv, JobRows, LinkInv, DraftInv, AnswerInv, DoneInv, AuditInv, PcInv, Protocol, CallsAsWritten,
      CommitDecision, OutcomeOf, GoesOut, Strip;
    JobInvAligned(s.db);
    var p := s.workers[w];
    Decides(s.db, s.cfg, p.job, p.stage.decision, VerdictOf(s, w, f), p.stage.mode, now);
  }

  /** The other steps, short of an operator's reply, add neither actions nor deliveries. */
  lemma OthersAddNone(s: Sys, step: Step)
    requires Inv(s) && Enabled(s, step)
    requires !(step.Work? && step.act.CommitAnswer?) && !(step.Operate? && step.op.Reply?)
    ensures Next(s, step).db.actions == s.db.actions
    ensures |Next(s, step).db.deliveries| == |s.db.deliveries|
  {
    hide Inv, Enqueue, Webhook, RecoverStale, RecoverDeliveries, CanAct, DbAfter, PcAfter, FromInstagram, Operated;
    if step.Work? { ActAddsNone(s, step.w, step.act); }
    if step.Operate? { OperatorAddsNone(s.db, step.op); }
  }

  lemma OperatorAddsNone(db: Db, op: Operation)
    requires Aligned(db) && CanOperate(op) && !op.Reply?
    ensures Operated(db, op).actions == db.actions && Operated(db, op).deliveries == db.deliveries
  {
    hide TransitionReview, EditReview, Retry, Dismiss, SetBotPaused, SetConversationStatus;
  }

  lemma ActAddsNone(s: Sys, w: nat, a: Act)
    requires Aligned(s.db) && CanAct(s, w, a) && !a.CommitAnswer?
    ensures DbAfter(s, w, a).actions == s.db.actions && |DbAfter(s, w, a).deliveries| == |s.db.deliveries|
  {
    hide Claim, Fail, Complete, Supersede, Find, IsOldest, IsNewest, IsFirstAction;
  }

  /** An operator's reply adds a human action and a human delivery. */
  lemma RepliesAreHuman(s: Sys, c: nat, text: string, now: nat)
    requires Inv(s) && Enabled(s, Operate(Reply(c, text, now)))
    ensures var db := Next(s, Operate(Reply(c, text, now))).db;
      && |s.db.actions| <= |db.actions| && |s.db.deliveries| <= |db.deliveries|
      && (forall a :: |s.db.actions| <= a < |db.actions| ==> db.actions[a].author.Human?)
      && (forall d :: |s.db.deliveries| <= d < |db.deliveries| ==> db.deliveries[d].intent.author.Human?)
  {
    hide ConvInv, JobRows, LinkInv, DraftInv, AnswerInv, DoneInv, AuditInv, PcInv, Protocol, CallsAsWritten,
      CreateHumanReply, DeliveryRules.Replyable, Strip;
    if CreateHumanReply(s.db, c, text, now).Some? { DeliveryRules.CreatesReply(s.db, c, text, now); }
  }

  /** A new action of the agent comes of a decision, and so does a new delivery of the bot. */
  lemma NewFromDecision(s: Sys, step: Step)
    requires Inv(s) && Enabled(s, step)
    ensures var db := Next(s, step).db;
      && |s.db.actions| <= |db.actions| && |s.db.deliveries| <= |db.deliveries|
      && (forall a: nat :: |s.db.actions| <= a < |db.actions| && db.actions[a].author.Agent? ==>
            Decided(s, Next(s, step), step, a))
      && (forall d: nat :: |s.db.deliveries| <= d < |db.deliveries| && db.deliveries[d].intent.author.Agent? ==>
            Decided(s, Next(s, step), step, |s.db.actions|) && d == |s.db.deliveries|)
  {
    hide Inv, Next, Enabled, OutcomeOf, GoesOut, Strip;
    if step.Work? && step.act.CommitAnswer? {
      CommitDecided(s, step.w, step.act.facts, step.act.now);
    } else if step.Operate? && step.op.Reply? {
      RepliesAreHuman(s, step.op.conv, step.op.text, step.op.now);
    } else {
      OthersAddNone(s, step);
    }
  }

  lemma GrowsKeeps(a: Db, b: Db, k: nat)
    requires Grows(a, b) && k < |a.actions| && k in a.policies
    ensures k < |b.actions| && b.actions[k] == a.actions[k] && k in b.policies && b.policies[k] == a.policies[k]
  {}

  lemma HasPolicy(s: Sys, k: nat)
    requires Inv(s) && k < |s.db.actions|
    ensures k in s.db.policies
  {
    hide ConvInv, JobRows, DraftInv, AnswerInv, DoneInv, AuditInv, PcInv, Protocol, CallsAsWritten;
  }

  /** Every action of the agent was once decided, and stands as it was. */
  lemma {:induction false} DecidedBefore(ss: seq<Sys>, steps: seq<Step>, i: nat, a: nat) returns (k: nat)
    requires IsRun(ss, steps) && i < |ss| && a < |ss[i].db.actions| && ss[i].db.actions[a].author.Agent?
    ensures k < i && Decided(ss[k], ss[k + 1], steps[k], a)
    ensures ss[i].db.actions[a] == ss[k + 1].db.actions[a]
    ensures a in ss[k + 1].db.policies && a in ss[i].db.policies
    ensures ss[i].db.policies[a] == ss[k + 1].db.policies[a]
  {
    hide Inv, Next, Enabled, Grows, Decided;
    if i == 0 {
      assert false;
    }
    RunsAreSafe(ss, steps, i - 1);
    RunsAreSafe(ss, steps, i);
    assert Enabled(ss[i - 1], steps[i - 1]) && ss[i - 1 + 1] == Next(ss[i - 1], steps[i - 1]);
    StepKeepsInv(ss[i - 1], steps[i - 1]);
    HasPolicy(ss[i], a);
    if a < |ss[i - 1].db.actions| {
      HasPolicy(ss[i - 1], a);
      GrowsKeeps(ss[i - 1].db, ss[i].db, a);
      k := DecidedBefore(ss, steps, i - 1, a);
    } else {
      NewFromDecision(ss[i - 1], steps[i - 1]);
      k := i - 1;
    }
  }

  /** The step drops a message, as action `a`: nothing about message or conversation calls for a human, and the decision
      is a complete one that the message is spam. */
  ghost predicate DropsSpam(s: Sys, step: Step, a: nat) {
    && step.Work? && step.act.CommitAnswer? && step.w < |s.workers| && s.workers[step.w].OnJob?
    && s.workers[step.w].stage.Deciding? && a == |s.db.actions|
    && Policy.Unremarkable(s.workers[step.w].stage.paused, step.act.facts)
    && Droppable(s.workers[step.w].stage.decision, step.act.facts)
  }

  lemma IgnoredWasSpam(ss: seq<Sys>, steps: seq<Step>, i: nat, a: nat) returns (k: nat)
    requires IsRun(ss, steps) && i < |ss| && a < |ss[i].db.actions| && ss[i].db.actions[a].author.Agent?
    requires a in ss[i].db.policies && ss[i].db.policies[a].Ignored?
    ensures k < i && DropsSpam(ss[k], steps[k], a)
    ensures ss[i].db.actions[a].job == ss[k].workers[steps[k].w].job
  {
    hide Next, Enabled, Initial, OutcomeOf, GoesOut, Droppable, Policy.Unremarkable;
    k := DecidedBefore(ss, steps, i, a);
    var s, w, f := ss[k], steps[k].w, steps[k].act.facts;
    var p := s.workers[w];
    DecisionsExactly(p.stage.decision, s.db.events[p.job].msg.channel, p.stage.paused, f);
  }

  /** The step queues a reply, as delivery `d`: the decision is vetted, nothing about message or conversation calls for a
      human, the mode lets it out, and it says what was decided, to the customer and from the account of the message. */
  ghost predicate QueuesVetted(s: Sys, step: Step, t: Intent) {
    && step.Work? && step.act.CommitAnswer? && step.w < |s.workers| && s.workers[step.w].OnJob?
    && s.workers[step.w].stage.Deciding? && s.workers[step.w].job < |s.db.events|
    && var p := s.workers[step.w];
       var m := s.db.events[p.job].msg;
       && m.channel.Instagram? && Policy.Unremarkable(p.stage.paused, step.act.facts)
       && Vetted(p.stage.decision, step.act.facts)
       && (p.stage.mode.Live? || (p.stage.mode.Canary? && m.sender in s.cfg.canary)) && m.recipient in s.cfg.senders
       && t == Intent(|s.db.actions|, s.db.events[p.job].conv, m.recipient, m.sender, Strip(p.stage.decision.text), Agent)
  }

  /** Of the three things that can become of a decision, only the first adds a delivery. */
  lemma DecidedDelivery(a: Db, b: Db, cfg: Config, j: nat, d: Decision, outcome: Outcome, mode: Mode, now: nat,
                        kind: ActionKind)
    requires DecisionOk(a, b, cfg, j, d, outcome, mode, now, kind) && |b.deliveries| > |a.deliveries|
    ensures var e := a.events[a.jobs[j].event];
      && GoesOut(cfg, e.msg, outcome, mode)
      && b.deliveries[|a.deliveries|].intent
         == Intent(|a.actions|, e.conv, e.msg.recipient, e.msg.sender, Strip(d.text), Agent)
  {
    hide Strip, GoesOut, KindFits, ActionAdded;
  }

  lemma QueuedVetted(s: Sys, step: Step)
    requires Inv(s) && Enabled(s, step) && Decided(s, Next(s, step), step, |s.db.actions|)
    requires |Next(s, step).db.deliveries| > |s.db.deliveries|
    ensures QueuesVetted(s, step, Next(s, step).db.deliveries[|s.db.deliveries|].intent)
  {
    hide Inv, Next, OutcomeOf, Strip, Vetted, Droppable, Policy.Unremarkable, Enabled, DecisionOk;
    var p, t := s.workers[step.w], Next(s, step);
    var outcome := VerdictOf(s, step.w, step.act.facts);
    DecidedDelivery(s.db, t.db, s.cfg, p.job, p.stage.decision, outcome, p.stage.mode, step.act.now,
                    t.db.actions[|s.db.actions|].kind);
    DecidedJob(s.db, t.db, s.cfg, p.job, p.stage.decision, outcome, p.stage.mode, step.act.now,
               t.db.actions[|s.db.actions|].kind);
    OwnEvent(s, p.job);
    DecisionsExactly(p.stage.decision, s.db.events[p.job].msg.channel, p.stage.paused, step.act.facts);
  }

  lemma DecidedJob(a: Db, b: Db, cfg: Config, j: nat, d: Decision, outcome: Outcome, mode: Mode, now: nat,
                   kind: ActionKind)
    requires DecisionOk(a, b, cfg, j, d, outcome, mode, now, kind)
    ensures j < |a.jobs|
  {}

  lemma OwnEvent(s: Sys, j: nat)
    requires Inv(s) && j < |s.db.jobs|
    ensures s.db.jobs[j].event == j
  {
    hide ConvInv, LinkInv, DraftInv, AnswerInv, DoneInv, AuditInv, PcInv, Protocol, CallsAsWritten;
  }

  lemma GrowsIntents(a: Db, b: Db, d: nat)
    requires Grows(a, b) && d < |a.deliveries|
    ensures d < |b.deliveries| && b.deliveries[d].intent == a.deliveries[d].intent
  {}

  /** Every text that the bot has queued, sent or not, is that of a vetted decision on an unremarkable message. */
  lemma {:induction false} QueuedWasVetted(ss: seq<Sys>, steps: seq<Step>, i: nat, d: nat) returns (k: nat)
    requires IsRun(ss, steps) && i < |ss| && d < |ss[i].db.deliveries| && ss[i].db.deliveries[d].intent.author.Agent?
    ensures k < i && QueuesVetted(ss[k], steps[k], ss[i].db.deliveries[d].intent)
  {
    hide Inv, Next, Enabled, Grows, Decided, QueuesVetted;
    if i == 0 {
      assert false;
    }
    RunsAreSafe(ss, steps, i - 1);
    assert Enabled(ss[i - 1], steps[i - 1]) && ss[i - 1 + 1] == Next(ss[i - 1], steps[i - 1]);
    StepKeepsInv(ss[i - 1], steps[i - 1]);
    if d < |ss[i - 1].db.deliveries| {
      GrowsIntents(ss[i - 1].db, ss[i].db, d);
      k := QueuedWasVetted(ss, steps, i - 1, d);
    } else {
      NewFromDecision(ss[i - 1], steps[i - 1]);
      QueuedVetted(ss[i - 1], steps[i - 1]);
      k := i - 1;
    }
  }

  // ----------------------------------------------------- what a worker knows

  /** The worker is between its lookup and the end of its decision, having read this pause flag. */
  predicate Considering(p: Pc, paused: bool) {
    && p.OnJob?
    && match p.stage
       case Asking(x) => x == paused
       case Answered(x, _) => x == paused
       case UpToDate(x, _) => x == paused
       case Deciding(x, _, _) => x == paused
       case _ => false
  }

  /** At step `r` the worker read the context of job `j`: its conversation was paused or not, as `paused` says. */
  ghost predicate ReadAt(ss: seq<Sys>, steps: seq<Step>, r: nat, w: nat, j: nat, paused: bool)
    requires |ss| == |steps| + 1
  {
    && r < |steps| && steps[r] == Work(w, ReadContext)
    && w < |ss[r].workers| && ss[r].workers[w].OnJob? && ss[r].workers[w].job == j < |ss[r].db.events|
    && var c := ss[r].db.events[j].conv; c < |ss[r].db.convs| && ss[r].db.convs[c].paused == paused
  }

  /** At step `c` it looked for a newer message of the conversation, and there was none. */
  ghost predicate NewestAt(ss: seq<Sys>, steps: seq<Step>, c: nat, w: nat, j: nat)
    requires |ss| == |steps| + 1
  {
    && c < |steps| && steps[c] == Work(w, CheckNewer) && j < |ss[c].db.events|
    && forall i :: j < i < |ss[c].db.events| ==> ss[c].db.events[i].conv != ss[c].db.events[j].conv
  }

  ghost predicate ModeAt(ss: seq<Sys>, steps: seq<Step>, m: nat, w: nat, mode: Mode)
    requires |ss| == |steps| + 1
  {
    m < |steps| && steps[m] == Work(w, ReadMode) && ss[m].db.mode == mode
  }

  /** How a worker comes to consider a job: it reads the context, or goes on from having read it. */
  lemma ConsideredFrom(s: Sys, w: nat, a: Act, paused: bool)
    requires Aligned(s.db) && CanAct(s, w, a) && Considering(PcAfter(s, w, a), paused)
    ensures w < |s.workers| && s.workers[w].OnJob? && PcAfter(s, w, a).job == s.workers[w].job
    ensures !a.ReadContext? ==> Considering(s.workers[w], paused)
    ensures a.ReadContext? ==>
      && s.workers[w].job < |s.db.events| && s.db.events[s.workers[w].job].conv < |s.db.convs|
      && s.db.convs[s.db.events[s.workers[w].job].conv].paused == paused
  {
    hide PermissionReason, CommitDecision, PolicyOutcome, Queues, Find, IsFirstAction, IsOldest, IsNewest, NewerInbound;
  }

  lemma Unmoved(s: Sys, step: Step, w: nat)
    requires Enabled(s, step) && w < |s.workers| && !(step.Work? && step.w == w)
    ensures w < |Next(s, step).workers| && Next(s, step).workers[w] == s.workers[w]
  {
    hide Enqueue, Webhook, RecoverStale, RecoverDeliveries, DbAfter, PcAfter, FromInstagram, Operated;
  }

  lemma Moved(s: Sys, w: nat, a: Act)
    requires Enabled(s, Work(w, a))
    ensures Aligned(s.db) && CanAct(s, w, a) && w < |s.workers|
    ensures |Next(s, Work(w, a)).workers| == |s.workers| && Next(s, Work(w, a)).workers[w] == PcAfter(s, w, a)
  {
    hide DbAfter, PcAfter;
  }

  lemma {:induction false} ContextWasRead(ss: seq<Sys>, steps: seq<Step>, k: nat, w: nat, paused: bool) returns (r: nat)
    requires IsRun(ss, steps) && k < |ss| && w < |ss[k].workers| && Considering(ss[k].workers[w], paused)
    ensures r < k && ReadAt(ss, steps, r, w, ss[k].workers[w].job, paused)
  {
    hide Inv, Next, Enabled;
    if k == 0 {
      assert false;
    }
    var s, step := ss[k - 1], steps[k - 1];
    assert Enabled(s, step) && ss[k - 1 + 1] == Next(s, step);
    if step.Work? && step.w == w {
      Moved(s, w, step.act);
      ConsideredFrom(s, w, step.act, paused);
      if step.act.ReadContext? {
        r := k - 1;
      } else {
        r := ContextWasRead(ss, steps, k - 1, w, paused);
      }
    } else {
      SameConfig(s, step);
      Unmoved(s, step, w);
      r := ContextWasRead(ss, steps, k - 1, w, paused);
    }
  }

  predicate Settling(p: Pc) {
    p.OnJob? && (p.stage.UpToDate? || p.stage.Deciding?)
  }

  lemma SettlingFrom(s: Sys, w: nat, a: Act)
    requires Aligned(s.db) && CanAct(s, w, a) && Settling(PcAfter(s, w, a))
    ensures w < |s.workers| && s.workers[w].OnJob? && PcAfter(s, w, a).job == s.workers[w].job
    ensures !a.CheckNewer? ==> Settling(s.workers[w])
    ensures forall paused :: Considering(PcAfter(s, w, a), paused) ==> Considering(s.workers[w], paused)
    ensures a.CheckNewer? ==>
      forall i :: s.workers[w].job < i < |s.db.events| ==>
        s.workers[w].job < |s.db.events| && s.db.events[i].conv != s.db.events[s.workers[w].job].conv
  {
    hide PermissionReason, CommitDecision, PolicyOutcome, Queues, Find, IsFirstAction, IsOldest, IsNewest;
  }

  /** The worker is the same one on the same job, with the same flag. */
  ghost predicate StillOn(ss: seq<Sys>, c: nat, w: nat, j: nat, paused: bool) {
    c < |ss| && w < |ss[c].workers| && Considering(ss[c].workers[w], paused) && ss[c].workers[w].job == j
  }

  lemma {:induction false} NewerWasSought(ss: seq<Sys>, steps: seq<Step>, k: nat, w: nat, paused: bool)
    returns (c: nat)
    requires IsRun(ss, steps) && k < |ss| && w < |ss[k].workers| && Settling(ss[k].workers[w])
    requires Considering(ss[k].workers[w], paused)
    ensures c < k && NewestAt(ss, steps, c, w, ss[k].workers[w].job)
    ensures StillOn(ss, c, w, ss[k].workers[w].job, paused)
  {
    hide Inv, Next, Enabled;
    if k == 0 {
      assert false;
    }
    var s, step := ss[k - 1], steps[k - 1];
    assert Enabled(s, step) && ss[k - 1 + 1] == Next(s, step);
    if step.Work? && step.w == w {
      Moved(s, w, step.act);
      SettlingFrom(s, w, step.act);
      if step.act.CheckNewer? {
        RunsAreSafe(ss, steps, k - 1);
        JobInRange(s, w);
        c := k - 1;
      } else {
        c := NewerWasSought(ss, steps, k - 1, w, paused);
      }
    } else {
      SameConfig(s, step);
      Unmoved(s, step, w);
      c := NewerWasSought(ss, steps, k - 1, w, paused);
    }
  }

  lemma JobInRange(s: Sys, w: nat)
    requires Inv(s) && w < |s.workers| && s.workers[w].OnJob?
    ensures s.workers[w].job < |s.db.events|
  {
    hide ConvInv, JobRows, LinkInv, DraftInv, AnswerInv, DoneInv, AuditInv, Protocol, CallsAsWritten;
    assert PcOk(s.db.events, s.db.actions, s.workers[w]);
  }

  lemma DecidingFrom(s: Sys, w: nat, a: Act)
    requires Aligned(s.db) && CanAct(s, w, a) && PcAfter(s, w, a).OnJob? && PcAfter(s, w, a).stage.Deciding?
    ensures a.ReadMode? && PcAfter(s, w, a).stage.mode == s.db.mode && w < |s.workers| && Settling(s.workers[w])
    ensures PcAfter(s, w, a).job == s.workers[w].job
    ensures forall paused :: Considering(PcAfter(s, w, a), paused) ==> Considering(s.workers[w], paused)
  {
    hide PermissionReason, CommitDecision, PolicyOutcome, Queues, Find, IsFirstAction, IsOldest, IsNewest, NewerInbound;
  }

  lemma {:induction false} ModeWasRead(ss: seq<Sys>, steps: seq<Step>, k: nat, w: nat, paused: bool) returns (m: nat)
    requires IsRun(ss, steps) && k < |ss| && w < |ss[k].workers|
    requires ss[k].workers[w].OnJob? && ss[k].workers[w].stage.Deciding? && Considering(ss[k].workers[w], paused)
    ensures m < k && ModeAt(ss, steps, m, w, ss[k].workers[w].stage.mode)
    ensures StillOn(ss, m, w, ss[k].workers[w].job, paused) && Settling(ss[m].workers[w])
  {
    hide Inv, Next, Enabled;
    if k == 0 {
      assert false;
    }
    var s, step := ss[k - 1], steps[k - 1];
    assert Enabled(s, step) && ss[k - 1 + 1] == Next(s, step);
    if step.Work? && step.w == w {
      Moved(s, w, step.act);
      DecidingFrom(s, w, step.act);
      m := k - 1;
    } else {
      SameConfig(s, step);
      Unmoved(s, step, w);
      m := ModeWasRead(ss, steps, k - 1, w, paused);
    }
  }

  /** Every text the bot has queued was decided by a worker that had read, of the message it answers, that its
      conversation was not paused, had then found no newer message of the conversation, and had read a mode that lets it
      out; and the decision was vetted. */
  lemma AnswersWereConsidered(ss: seq<Sys>, steps: seq<Step>, i: nat, d: nat)
    returns (r: nat, c: nat, m: nat, k: nat)
    requires IsRun(ss, steps) && i < |ss| && d < |ss[i].db.deliveries| && ss[i].db.deliveries[d].intent.author.Agent?
    ensures k < i && QueuesVetted(ss[k], steps[k], ss[i].db.deliveries[d].intent)
    ensures var w, j := steps[k].w, ss[k].workers[steps[k].w].job;
      && r < c < m < k && ReadAt(ss, steps, r, w, j, false) && NewestAt(ss, steps, c, w, j)
      && ModeAt(ss, steps, m, w, ss[k].workers[w].stage.mode)
  {
    hide Inv, Next, Enabled, Vetted, Initial;
    k := QueuedWasVetted(ss, steps, i, d);
    var w := steps[k].w;
    m := ModeWasRead(ss, steps, k, w, false);
    c := NewerWasSought(ss, steps, m, w, false);
    r := ContextWasRead(ss, steps, c, w, false);
  }
}
