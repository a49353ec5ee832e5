/** What one earlier permission check is worth at the call: exactly when a bot message is stale, exactly when two of
    them go out in the wrong order, and how far a failure can still be overtaken.

    Nothing here assumes that check and call are one step, or that leases are respected. */
module Checks {
  import opened Types
  import opened WorkspaceModel
  import opened QueueModel
  import opened DeliveryModel
  import opened WorkerModel
  import opened System
  import opened QueueInvariant
  import opened LinkInvariant
  import opened AnswerInvariant
  import opened AuditInvariant
  import opened Safety
  import opened Outcomes
  import opened Replies
  import opened Lease
  import opened Trace
  import opened Solo
  import ProtocolInvariant

  predicate StepOf(step: Step, w: nat) {
    step.Work? && step.w == w
  }

  /** Step `c` is the permission check that its worker made last before the call of step `k`. */
  ghost predicate IsCheckOf(steps: seq<Step>, c: nat, k: nat) {
    && c < k < |steps| && IsSend(steps[k]) && steps[c] == Work(steps[k].w, CheckPermission)
    && forall m :: c < m < k ==> !StepOf(steps[m], steps[k].w)
  }

  /** Step `k` is the call for delivery `d`. */
  ghost predicate Sends(ss: seq<Sys>, steps: seq<Step>, k: nat, d: nat) {
    && k < |steps| && k < |ss| && IsSend(steps[k]) && steps[k].w < |ss[k].workers|
    && ss[k].workers[steps[k].w].OnDelivery? && ss[k].workers[steps[k].w].delivery == d
  }

  /** Worker `w` holds delivery `d`, and nothing speaks against sending it. */
  ghost predicate Passes(s: Sys, w: nat, d: nat) {
    && w < |s.workers| && s.workers[w].OnDelivery? && s.workers[w].delivery == d < |s.db.deliveries|
    && PermissionReason(s.db, s.cfg, d).None?
  }

  // ------------------------------------------------------- the last check

  lemma OthersStay(s: Sys, step: Step, w: nat)
    requires Enabled(s, step) && !StepOf(step, w) && w < |s.workers|
    ensures w < |Next(s, step).workers| && Next(s, step).workers[w] == s.workers[w]
  {
    hide CanAct, DbAfter, PcAfter, Operated, Enqueue, Webhook, RecoverStale, RecoverDeliveries, FromInstagram;
    if step.Work? { InRange(s, step.w, step.act); }
  }

  /** Only a check that passes clears a worker for the call. */
  lemma ClearedByCheck(s: Sys, w: nat, a: Act)
    requires Aligned(s.db) && CanAct(s, w, a)
    requires var q := PcAfter(s, w, a); q.OnDelivery? && q.leg.Cleared?
    ensures a == CheckPermission && Passes(s, w, PcAfter(s, w, a).delivery)
  {
    hide PermissionReason, CommitDecision, PolicyOutcome, Find;
  }

  lemma OwnStep(s: Sys, w: nat, a: Act)
    requires Enabled(s, Work(w, a))
    ensures Aligned(s.db) && CanAct(s, w, a) && w < |s.workers|
    ensures Next(s, Work(w, a)).workers == s.workers[w := PcAfter(s, w, a)]
  {
    hide DbAfter, PcAfter;
  }

  lemma {:induction false} LastCheck(ss: seq<Sys>, steps: seq<Step>, k: nat, j: nat, d: nat) returns (c: nat)
    requires IsRun(ss, steps) && Sends(ss, steps, k, d) && j <= k
    requires forall m :: j <= m < k ==> !StepOf(steps[m], steps[k].w)
    requires steps[k].w < |ss[j].workers| && ss[j].workers[steps[k].w] == ss[k].workers[steps[k].w]
    requires ss[k].workers[steps[k].w].leg.Cleared?
    ensures IsCheckOf(steps, c, k) && Passes(ss[c], steps[k].w, d)
    decreases j
  {
    hide Next, Enabled, CanAct, PcAfter;
    var w := steps[k].w;
    assert j > 0;
    var s, step := ss[j - 1], steps[j - 1];
    assert Enabled(s, step) && ss[j - 1 + 1] == Next(s, step);
    if StepOf(step, w) {
      OwnStep(s, w, step.act);
      ClearedByCheck(s, w, step.act);
      c := j - 1;
    } else {
      SameWorkers(ss, steps, j - 1);
      OthersStay(s, step, w);
      c := LastCheck(ss, steps, k, j - 1, d);
    }
  }

  lemma SameWorkers(ss: seq<Sys>, steps: seq<Step>, i: nat)
    requires IsRun(ss, steps) && i < |steps|
    ensures |ss[i + 1].workers| == |ss[i].workers| && ss[i + 1].cfg == ss[i].cfg
  {
    hide Next, Enabled;
    assert Enabled(ss[i], steps[i]) && ss[i + 1] == Next(ss[i], steps[i]);
    SameConfig(ss[i], steps[i]);
  }

  lemma SendIsCleared(s: Sys, w: nat, a: Act)
    requires Enabled(s, Work(w, a)) && a.Send?
    ensures w < |s.workers| && s.workers[w].OnDelivery? && s.workers[w].leg.Cleared?
  {}

  /** Every call was preceded by a check of its own worker and delivery that found nothing, with no step of that
      worker in between. */
  lemma EverySendIsChecked(ss: seq<Sys>, steps: seq<Step>, k: nat) returns (c: nat, d: nat)
    requires IsRun(ss, steps) && k < |steps| && IsSend(steps[k])
    ensures IsCheckOf(steps, c, k) && Sends(ss, steps, k, d) && Passes(ss[c], steps[k].w, d)
  {
    hide Next, Enabled;
    assert Enabled(ss[k], steps[k]);
    SendIsCleared(ss[k], steps[k].w, steps[k].act);
    d := ss[k].workers[steps[k].w].delivery;
    c := LastCheck(ss, steps, k, k, d);
  }

  /** There is only one such check. */
  lemma CheckPassed(ss: seq<Sys>, steps: seq<Step>, c: nat, k: nat, d: nat)
    requires IsRun(ss, steps) && IsCheckOf(steps, c, k) && Sends(ss, steps, k, d)
    ensures Passes(ss[c], steps[k].w, d)
  {
    hide IsRun, Passes;
    var b, e := EverySendIsChecked(ss, steps, k);
    assert StepOf(steps[b], steps[k].w) && StepOf(steps[c], steps[k].w);
    assert b == c;
  }

  // ----------------------------------------------------------------- growth

  lemma GrowsTransitive(a: Db, b: Db, c: Db)
    requires Grows(a, b) && Grows(b, c)
    ensures Grows(a, c)
  {}

  lemma GrowsReflexive(a: Db)
    ensures Grows(a, a)
  {}

  /** Along a run tables only grow, and so does the list of calls. */
  lemma {:induction false} RunsGrow(ss: seq<Sys>, steps: seq<Step>, i: nat, k: nat)
    requires IsRun(ss, steps) && i <= k < |ss|
    ensures Grows(ss[i].db, ss[k].db) && ss[i].sends <= ss[k].sends && ss[i].cfg == ss[k].cfg
    ensures |ss[i].workers| == |ss[k].workers|
  {
    hide Inv, Next, Enabled, Grows;
    if i == k {
      GrowsReflexive(ss[i].db);
    } else {
      RunsGrow(ss, steps, i, k - 1);
      RunsAreSafe(ss, steps, k - 1);
      assert Enabled(ss[k - 1], steps[k - 1]) && ss[k - 1 + 1] == Next(ss[k - 1], steps[k - 1]);
      StepKeepsInv(ss[k - 1], steps[k - 1]);
      GrowsTransitive(ss[i].db, ss[k - 1].db, ss[k].db);
      SameWorkers(ss, steps, k - 1);
      MoreCalls(ss[k - 1], steps[k - 1]);
    }
  }

  lemma MoreCalls(s: Sys, step: Step)
    requires Enabled(s, step)
    ensures s.sends <= Next(s, step).sends
  {
    hide CanAct, DbAfter, PcAfter, Operated, Enqueue, Webhook, RecoverStale, RecoverDeliveries, FromInstagram;
  }

  /** A reply of the agent keeps its conversation and the event it answers. */
  lemma RepliesKept(a: Db, b: Db, d: nat)
    requires Grows(a, b) && LinkInv(a) && d < |a.deliveries|
    ensures d < |b.deliveries| && b.deliveries[d].intent == a.deliveries[d].intent
    ensures BotReply(a, d) <==> BotReply(b, d)
    ensures BotReply(a, d) ==> AnswersEvent(a, d) == AnswersEvent(b, d) < |a.events|
  {
    assert IntentOk(a.events, a.actions, a.policies, a.deliveries[d].intent);
  }

  lemma InvLinks(s: Sys)
    requires Inv(s)
    ensures LinkInv(s.db)
  {}

  // -------------------------------------------------------------- staleness

  /** The bot message sent at step `k` answers an event that is no longer the last one of its conversation. */
  ghost predicate Outdated(db: Db, d: nat)
    requires BotReply(db, d)
  {
    NewerEvent(db.events, db.deliveries[d].intent.conv, AnswersEvent(db, d))
  }

  /** What was known of delivery `d` when it passed its check, in the tables of any later moment. */
  lemma FreshAtCheck(ss: seq<Sys>, steps: seq<Step>, c: nat, k: nat, d: nat, n: nat)
    requires IsRun(ss, steps) && IsCheckOf(steps, c, k) && Sends(ss, steps, k, d) && c <= n < |ss|
    requires d < |ss[n].db.deliveries| && ss[n].db.deliveries[d].intent.author.Agent?
    ensures BotReply(ss[n].db, d) && ss[c].db.events <= ss[n].db.events
    ensures var e, conv := AnswersEvent(ss[n].db, d), ss[n].db.deliveries[d].intent.conv;
      && e < |ss[c].db.events| && ss[c].db.events[e].conv == conv && !NewerEvent(ss[c].db.events, conv, e)
      && conv < |ss[c].db.convs| && !ss[c].db.convs[conv].paused
  {
    hide Inv, Next, Enabled, PermissionReason, IsCheckOf, LinkInv, NewerEvent;
    CheckPassed(ss, steps, c, k, d);
    RunsAreSafe(ss, steps, c);
    RunsGrow(ss, steps, c, n);
    InvLinks(ss[c]);
    RepliesKept(ss[c].db, ss[n].db, d);
    assert d < |ss[c].db.deliveries| && BotReply(ss[c].db, d) by { BotReplies(ss[c], d); }
    PermittedIsFresh(ss[c], d);
  }

  lemma BotReplies(s: Sys, d: nat)
    requires Inv(s) && d < |s.db.deliveries| && s.db.deliveries[d].intent.author.Agent?
    ensures BotReply(s.db, d)
  {
    InvLinks(s);
    assert IntentOk(s.db.events, s.db.actions, s.db.policies, s.db.deliveries[d].intent);
  }

  /** A bot message is stale when it is sent exactly when a message of its conversation was accepted after its
      check. */
  lemma StaleExactly(ss: seq<Sys>, steps: seq<Step>, c: nat, k: nat, d: nat)
    requires IsRun(ss, steps) && IsCheckOf(steps, c, k) && Sends(ss, steps, k, d)
    requires d < |ss[k].db.deliveries| && ss[k].db.deliveries[d].intent.author.Agent?
    ensures BotReply(ss[k].db, d)
    ensures Outdated(ss[k].db, d) <==>
      exists i :: |ss[c].db.events| <= i < |ss[k].db.events|
                  && ss[k].db.events[i].conv == ss[k].db.deliveries[d].intent.conv
  {
    hide IsRun, IsCheckOf, Sends;
    assert c <= k < |ss| by { InBounds(ss, steps, c, k); }
    FreshAtCheck(ss, steps, c, k, d, k);
    var before, after := ss[c].db.events, ss[k].db.events;
    var e, conv := AnswersEvent(ss[k].db, d), ss[k].db.deliveries[d].intent.conv;
    if i :| e < i < |after| && after[i].conv == conv {
      assert forall m :: 0 <= m < |before| ==> before[m] == after[m];
      assert i >= |before|;
    }
  }

  lemma InBounds(ss: seq<Sys>, steps: seq<Step>, c: nat, k: nat)
    requires IsRun(ss, steps) && IsCheckOf(steps, c, k)
    ensures c < k < |ss| == |steps| + 1
  {}

  // ------------------------------------------------------------------ order

  /** Two bot messages of one conversation, checked at `a` and `b`, sent at `k` and `l`, in the final tables `db`. */
  ghost predicate Pair(ss: seq<Sys>, steps: seq<Step>, a: nat, k: nat, c: nat, b: nat, l: nat, d: nat) {
    && IsRun(ss, steps) && IsCheckOf(steps, a, k) && IsCheckOf(steps, b, l)
    && Sends(ss, steps, k, c) && Sends(ss, steps, l, d)
    && var db := ss[|ss| - 1].db;
       && BotReply(db, c) && BotReply(db, d) && db.deliveries[c].intent.conv == db.deliveries[d].intent.conv
       && db.deliveries[c].intent.author.Agent? && db.deliveries[d].intent.author.Agent?
  }

  /** The one that was checked first answers no later event. */
  lemma CheckedInOrder(ss: seq<Sys>, steps: seq<Step>, a: nat, k: nat, c: nat, b: nat, l: nat, d: nat)
    requires Pair(ss, steps, a, k, c, b, l, d) && a < b
    ensures AnswersEvent(ss[|ss| - 1].db, c) <= AnswersEvent(ss[|ss| - 1].db, d)
  {
    hide IsRun, IsCheckOf, Sends;
    var n := |ss| - 1;
    InBounds(ss, steps, a, k);
    InBounds(ss, steps, b, l);
    FreshAtCheck(ss, steps, a, k, c, n);
    FreshAtCheck(ss, steps, b, l, d, n);
    RunsGrow(ss, steps, a, b);
  }

  /** Different calls have different checks. */
  lemma ChecksDiffer(steps: seq<Step>, a: nat, k: nat, b: nat, l: nat)
    requires IsCheckOf(steps, a, k) && IsCheckOf(steps, b, l) && k < l
    ensures a != b
    ensures steps[k].w == steps[l].w ==> a < b
  {
    assert StepOf(steps[k], steps[k].w);
    assert StepOf(steps[a], steps[k].w) && StepOf(steps[b], steps[l].w);
  }

  /** Two calls never concern the same delivery. */
  lemma CallsDiffer(ss: seq<Sys>, steps: seq<Step>, k: nat, c: nat, l: nat, d: nat)
    requires IsRun(ss, steps) && Sends(ss, steps, k, c) && Sends(ss, steps, l, d) && k < l
    ensures c != d
  {
    hide Inv, Next, Enabled;
    assert Enabled(ss[k], steps[k]) && ss[k + 1] == Next(ss[k], steps[k]);
    assert Enabled(ss[l], steps[l]);
    CallRecorded(ss[k], steps[k].w, steps[k].act);
    RunsGrow(ss, steps, k + 1, l);
    RunsAreSafe(ss, steps, l);
    SendIsCleared(ss[l], steps[l].w, steps[l].act);
    NotYetCalled(ss[l], steps[l].w);
    var i := |ss[k].sends|;
    assert ss[l].sends[i] == ss[k + 1].sends[i];
  }

  lemma CallRecorded(s: Sys, w: nat, a: Act)
    requires Enabled(s, Work(w, a)) && a.Send?
    ensures w < |s.workers| && s.workers[w].OnDelivery?
    ensures var t := Next(s, Work(w, a));
      |t.sends| == |s.sends| + 1 && t.sends[|s.sends|].delivery == s.workers[w].delivery
  {}

  lemma NotYetCalled(s: Sys, w: nat)
    requires Inv(s) && w < |s.workers| && s.workers[w].OnDelivery? && s.workers[w].leg.Cleared?
    ensures forall i :: 0 <= i < |s.sends| ==> s.sends[i].delivery != s.workers[w].delivery
  {
    hide ConvInv, JobRows, LinkInv, DraftInv, AnswerInv, DoneInv, AuditInv, PcInv, CallsAsWritten;
    var p := ProtocolInvariant.ProtocolOf(s);
    assert ProtocolInvariant.HeldTrue(p, p.workers[w]);
    assert !ProtocolInvariant.Called(s.sends, s.workers[w].delivery);
  }

  /** Of two bot messages of a conversation that answer different events, the later call answers the earlier event
      exactly when the checks were made in the other order than the calls. */
  lemma OutOfOrderExactly(ss: seq<Sys>, steps: seq<Step>, a: nat, k: nat, c: nat, b: nat, l: nat, d: nat)
    requires Pair(ss, steps, a, k, c, b, l, d) && k < l
    requires AnswersEvent(ss[|ss| - 1].db, c) != AnswersEvent(ss[|ss| - 1].db, d)
    ensures AnswersEvent(ss[|ss| - 1].db, d) < AnswersEvent(ss[|ss| - 1].db, c) <==> b < a
  {
    ChecksDiffer(steps, a, k, b, l);
    if a < b {
      CheckedInOrder(ss, steps, a, k, c, b, l, d);
    } else {
      CheckedInOrder(ss, steps, b, l, d, a, k, c);
    }
  }

  /** And that takes a message that was accepted between the check and the call of the later one. */
  lemma OutOfOrderIsStale(ss: seq<Sys>, steps: seq<Step>, a: nat, k: nat, c: nat, b: nat, l: nat, d: nat)
    requires Pair(ss, steps, a, k, c, b, l, d) && k < l
    requires AnswersEvent(ss[|ss| - 1].db, d) < AnswersEvent(ss[|ss| - 1].db, c)
    ensures BotReply(ss[l].db, d) && Outdated(ss[l].db, d)
  {
    hide IsRun, IsCheckOf, Sends, LinkInv;
    var n := |ss| - 1;
    InBounds(ss, steps, a, k);
    InBounds(ss, steps, b, l);
    FreshAtCheck(ss, steps, a, k, c, n);
    RunsGrow(ss, steps, a, l);
    RunsGrow(ss, steps, l, n);
    RunsAreSafe(ss, steps, l);
    InvLinks(ss[l]);
    SentExists(ss, steps, l, d);
    RepliesKept(ss[l].db, ss[n].db, d);
    var e := AnswersEvent(ss[n].db, c);
    assert ss[l].db.events[e] == ss[a].db.events[e];
  }

  lemma SentExists(ss: seq<Sys>, steps: seq<Step>, k: nat, d: nat)
    requires IsRun(ss, steps) && Sends(ss, steps, k, d)
    ensures d < |ss[k].db.deliveries|
  {
    hide Next, PcAfter, DbAfter;
    assert Enabled(ss[k], steps[k]);
  }

  /** When no job has two agent actions, the events answered follow the checks strictly. */
  lemma StrictByChecks(ss: seq<Sys>, steps: seq<Step>, a: nat, k: nat, c: nat, b: nat, l: nat, d: nat)
    requires Pair(ss, steps, a, k, c, b, l, d) && k < l && OneAnswer(ss[|ss| - 1].db.actions)
    ensures AnswersEvent(ss[|ss| - 1].db, c) < AnswersEvent(ss[|ss| - 1].db, d) <==> a < b
    ensures AnswersEvent(ss[|ss| - 1].db, c) != AnswersEvent(ss[|ss| - 1].db, d)
  {
    hide Inv, Next, Enabled, IsCheckOf;
    CallsDiffer(ss, steps, k, c, l, d);
    RunsAreSafe(ss, steps, |ss| - 1);
    if AnswersEvent(ss[|ss| - 1].db, c) == AnswersEvent(ss[|ss| - 1].db, d) {
      OneReplyEach(ss[|ss| - 1], c, d);
    }
    ChecksDiffer(steps, a, k, b, l);
    OutOfOrderExactly(ss, steps, a, k, c, b, l, d);
  }

  lemma OneReplyEach(s: Sys, c: nat, d: nat)
    requires Inv(s) && OneAnswer(s.db.actions) && BotReply(s.db, c) && BotReply(s.db, d)
    requires AnswersEvent(s.db, c) == AnswersEvent(s.db, d)
    ensures c == d
  {
    InvLinks(s);
    var db := s.db;
    assert IntentOk(db.events, db.actions, db.policies, db.deliveries[c].intent);
    assert IntentOk(db.events, db.actions, db.policies, db.deliveries[d].intent);
    assert db.actions[db.deliveries[c].intent.action].job == db.actions[db.deliveries[d].intent.action].job;
  }

  /** Several workers under lease discipline: the bot messages of a conversation answer strictly later events one
      after the other, exactly as far as their checks were made in the order of their calls. */
  lemma RepliesStrictlyInOrder(ss: seq<Sys>, steps: seq<Step>, a: nat, k: nat, c: nat, b: nat, l: nat, d: nat)
    requires Pair(ss, steps, a, k, c, b, l, d) && k < l && AllDisciplined(ss, steps)
    ensures AnswersEvent(ss[|ss| - 1].db, c) < AnswersEvent(ss[|ss| - 1].db, d) <==> a < b
  {
    hide IsRun, IsCheckOf, Sends, AllDisciplined;
    InBounds(ss, steps, a, k);
    DisciplinedRunsHold(ss, steps, |ss| - 1);
    StrictByChecks(ss, steps, a, k, c, b, l, d);
  }

  /** One worker: on every run the bot messages of a conversation answer strictly later events one after the other. */
  lemma AloneRepliesInOrder(ss: seq<Sys>, steps: seq<Step>, a: nat, k: nat, c: nat, b: nat, l: nat, d: nat)
    requires Pair(ss, steps, a, k, c, b, l, d) && k < l && |ss[0].workers| <= 1
    ensures AnswersEvent(ss[|ss| - 1].db, c) < AnswersEvent(ss[|ss| - 1].db, d)
  {
    hide Next, Enabled, IsCheckOf;
    var n := |ss| - 1;
    RunIsStretch(ss, steps, n);
    AloneAnswersOnce(ss[0], steps[..n]);
    RunsGrow(ss, steps, 0, k);
    RunsGrow(ss, steps, 0, l);
    ChecksDiffer(steps, a, k, b, l);
    StrictByChecks(ss, steps, a, k, c, b, l, d);
  }

  ghost predicate Rivals(db: Db, c: nat, d: nat) {
    && BotReply(db, c) && BotReply(db, d) && db.deliveries[c].intent.conv == db.deliveries[d].intent.conv
  }

  /** Among the calls made so far, those for bot messages of one conversation answer strictly later events one after
      the other. */
  ghost predicate InOrder(s: Sys) {
    forall i, k :: 0 <= i < k < |s.sends| && Rivals(s.db, s.sends[i].delivery, s.sends[k].delivery) ==>
      AnswersEvent(s.db, s.sends[i].delivery) < AnswersEvent(s.db, s.sends[k].delivery)
  }

  /** The step that made a call. */
  lemma {:induction false} CallMade(ss: seq<Sys>, steps: seq<Step>, n: nat, i: nat) returns (k: nat)
    requires IsRun(ss, steps) && n < |ss| && i < |ss[n].sends|
    ensures k < n && |ss[k].sends| == i && Sends(ss, steps, k, ss[n].sends[i].delivery)
  {
    hide Next, Enabled;
    assert n > 0;
    var s, step := ss[n - 1], steps[n - 1];
    assert Enabled(s, step) && ss[n - 1 + 1] == Next(s, step);
    MoreCalls(s, step);
    if i < |s.sends| {
      k := CallMade(ss, steps, n - 1, i);
    } else {
      OneCall(s, step);
      k := n - 1;
    }
  }

  lemma OneCall(s: Sys, step: Step)
    requires Enabled(s, step) && Next(s, step).sends != s.sends
    ensures IsSend(step) && step.w < |s.workers| && s.workers[step.w].OnDelivery?
    ensures var t := Next(s, step);
      |t.sends| == |s.sends| + 1 && t.sends[|s.sends|].delivery == s.workers[step.w].delivery
  {
    hide Operated, Enqueue, Webhook, RecoverStale, RecoverDeliveries, FromInstagram;
    if step.Work? && step.act.Send? { CallRecorded(s, step.w, step.act); }
  }

  /** With one worker every run keeps the order. */
  lemma AloneStaysInOrder(s0: Sys, steps: seq<Step>)
    requires Initial(s0) && |s0.workers| <= 1 && After(s0, steps).Some?
    ensures InOrder(After(s0, steps).value)
  {
    hide IsRun, IsCheckOf, Sends, Initial, After, BotReply;
    var ss := StretchIsRun(s0, steps);
    var s := ss[|ss| - 1];
    forall i, j | 0 <= i < j < |s.sends| && Rivals(s.db, s.sends[i].delivery, s.sends[j].delivery)
      ensures AnswersEvent(s.db, s.sends[i].delivery) < AnswersEvent(s.db, s.sends[j].delivery)
    {
      CallsInOrder(ss, steps, i, j);
    }
  }

  lemma CallsInOrder(ss: seq<Sys>, steps: seq<Step>, i: nat, j: nat)
    requires IsRun(ss, steps) && |ss[0].workers| <= 1
    requires i < j < |ss[|ss| - 1].sends|
    requires Rivals(ss[|ss| - 1].db, ss[|ss| - 1].sends[i].delivery, ss[|ss| - 1].sends[j].delivery)
    ensures var s := ss[|ss| - 1];
      AnswersEvent(s.db, s.sends[i].delivery) < AnswersEvent(s.db, s.sends[j].delivery)
  {
    hide Next, Enabled, IsCheckOf;
    var n := |ss| - 1;
    var k := CallMade(ss, steps, n, i);
    var l := CallMade(ss, steps, n, j);
    var a, c := EverySendIsChecked(ss, steps, k);
    var b, d := EverySendIsChecked(ss, steps, l);
    if l <= k { RunsGrow(ss, steps, l, k); }
    AloneRepliesInOrder(ss, steps, a, k, c, b, l, d);
  }

  // ------------------------------------------------------------ containment

  lemma {:induction false} PausedUntilResumed(ss: seq<Sys>, steps: seq<Step>, i: nat, k: nat, c: nat)
    requires IsRun(ss, steps) && i <= k < |ss|
    requires c < |ss[i].db.convs| && ss[i].db.convs[c].paused
    requires forall m :: i <= m < k ==> !Resumes(steps[m], c)
    ensures c < |ss[k].db.convs| && ss[k].db.convs[c].paused
  {
    hide Inv, Next, Enabled, Resumes;
    if i < k {
      PausedUntilResumed(ss, steps, i, k - 1, c);
      RunsAreSafe(ss, steps, k - 1);
      assert Enabled(ss[k - 1], steps[k - 1]) && ss[k - 1 + 1] == Next(ss[k - 1], steps[k - 1]);
      PauseLasts(ss[k - 1], steps[k - 1], c);
    }
  }

  /** From the step where a delivery becomes failed or unknown until an operator resumes its conversation, no bot
      message of that conversation passes a check: one that is still sent had passed its own before that step. */
  lemma FailureContained(ss: seq<Sys>, steps: seq<Step>, failed: nat, i: nat, c: nat, k: nat, d: nat)
    requires IsRun(ss, steps) && i < k && IsCheckOf(steps, c, k) && Sends(ss, steps, k, d)
    requires failed < |ss[i].db.deliveries| && !WentWrong(ss[i].db.deliveries[failed].status)
    requires failed < |ss[i + 1].db.deliveries| && WentWrong(ss[i + 1].db.deliveries[failed].status)
    requires forall m :: i < m < k ==> !Resumes(steps[m], ss[i].db.deliveries[failed].intent.conv)
    requires d < |ss[k].db.deliveries| && ss[k].db.deliveries[d].intent.author.Agent?
    requires ss[k].db.deliveries[d].intent.conv == ss[i].db.deliveries[failed].intent.conv
    ensures c < i
  {
    hide Inv, Next, Enabled, IsCheckOf, Resumes, WentWrong;
    var conv := ss[i].db.deliveries[failed].intent.conv;
    InBounds(ss, steps, c, k);
    RunsAreSafe(ss, steps, i);
    assert Enabled(ss[i], steps[i]) && ss[i + 1] == Next(ss[i], steps[i]);
    FailurePauses(ss[i], steps[i], failed);
    FreshAtCheck(ss, steps, c, k, d, k);
    if c > i {
      PausedUntilResumed(ss, steps, i + 1, c, conv);
    } else if c == i {
      assert IsCheckOf(steps, c, k) && steps[i] == Work(steps[k].w, CheckPermission) by { TheCheck(steps, c, k); }
      CheckChangesNothing(ss[i], steps[k].w);
    }
  }

  lemma TheCheck(steps: seq<Step>, c: nat, k: nat)
    requires IsCheckOf(steps, c, k)
    ensures steps[c] == Work(steps[k].w, CheckPermission)
  {}

  // --------------------------------------------------- check and call as one

  /** Each call directly follows its check. */
  ghost predicate CheckAndSend(steps: seq<Step>) {
    forall k :: 0 <= k < |steps| && IsSend(steps[k]) ==>
      k > 0 && steps[k - 1] == Work(steps[k].w, CheckPermission)
  }

  /** Then every bot message answers the last event of its conversation when it is sent, which leaves no way to be out
      of order, and none is sent in a conversation that a failure, or an operator, has paused. */
  lemma CheckAndSendSuffices(ss: seq<Sys>, steps: seq<Step>, k: nat, d: nat)
    requires IsRun(ss, steps) && CheckAndSend(steps) && Sends(ss, steps, k, d)
    ensures d < |ss[k].db.deliveries|
    ensures ss[k].db.deliveries[d].intent.author.Agent? ==>
      && BotReply(ss[k].db, d) && !Outdated(ss[k].db, d)
      && var conv := ss[k].db.deliveries[d].intent.conv;
         && conv < |ss[k].db.convs| && !ss[k].db.convs[conv].paused
  {
    hide Inv, Next, PermissionReason;
    SentExists(ss, steps, k, d);
    assert IsCheckOf(steps, k - 1, k);
    assert ss[k].db == ss[k - 1].db by {
      assert Enabled(ss[k - 1], steps[k - 1]) && ss[k - 1 + 1] == Next(ss[k - 1], steps[k - 1]);
      CheckChangesNothing(ss[k - 1], steps[k].w);
    }
    if ss[k].db.deliveries[d].intent.author.Agent? {
      FreshAtCheck(ss, steps, k - 1, k, d, k);
    }
  }

  lemma CheckChangesNothing(s: Sys, w: nat)
    requires Enabled(s, Work(w, CheckPermission))
    ensures Next(s, Work(w, CheckPermission)).db == s.db
  {
    hide PermissionReason;
  }
}
