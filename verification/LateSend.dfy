/** What can go wrong between a permission check and its call: a reply can be overtaken by the customer's next message,
    and with two workers even by the reply to it. */
module LateSend {
  import opened Types
  import opened Text
  import opened WorkspaceModel
  import opened QueueModel
  import opened DeliveryModel
  import opened WorkerModel
  import opened Gates
  import opened System
  import opened QueueInvariant
  import opened LinkInvariant
  import opened Safety
  import opened Outcomes
  import opened Replies
  import opened Trace
  import opened SendSteps
  import opened JobSteps
  import opened LateWorker
  import opened Checks
  import DeliveryRules
  import Policy

  /** The configuration lets this decision be sent as an answer to this message. */
  predicate Answerable(cfg: Config, m: Inbound, d: Decision, f: Policy.Facts) {
    && m.channel.Instagram? && OutcomeOf(d, Channel.Instagram, false, f).Allowed?
    && ValidPayload(m.recipient, m.sender, Strip(d.text)) && 1 <= |Strip(m.sender)| <= 200
    && cfg.sendEnabled && m.recipient in cfg.senders && m.recipient in cfg.tokens && cfg.tokens[m.recipient]
  }

  // ------------------------------------------------------------- one message

  lemma OnePost(db: Db, digest: string, m: Inbound)
    requires !HasReceipt(db.receipts, digest) && Enqueue(db, m, 0, 0).Some? && Enqueue(db, m, 0, 0).value.created
    ensures var after := Enqueue(db, m, 0, 0).value.db;
      Webhook(db, digest, [m], 0, 0, 0)
      == Some(after.(receipts := after.receipts + [Receipt(digest, 1, 0, 0)],
                     audit := after.audit + [WebhookEntry(digest, true)]))
  {
    hide Enqueue;
    var msgs := [m];
    assert msgs[..|msgs| - 1] == [] && msgs[|msgs| - 1] == m;
    assert EnqueueAll(db, [], 0, 0) == Some(Counted(db, 0, 0));
    assert EnqueueAll(db, msgs, 0, 0) == Some(Counted(Enqueue(db, m, 0, 0).value.db, 1, 0));
  }

  /** One conversation, that of `m`, and not paused. */
  ghost predicate OnlyConv(db: Db, m: Inbound) {
    && db.accounts == [Account(m.channel, Strip(m.recipient))]
    && |db.convs| == 1 && db.convs[0].channel == m.channel && db.convs[0].key == m.key && !db.convs[0].paused
    && db.mode.Live?
  }

  lemma FirstPost(db: Db, digest: string, m: Inbound)
    requires db == EMPTY.(mode := Live)
    ensures var r := Webhook(db, digest, [m], 0, 0, 0);
      && r.Some? && OnlyConv(r.value, m) && r.value.events == [Event(m, 0)]
      && r.value.jobs == [NewJob(0, m.key, 0, 0)] && r.value.receipts == [Receipt(digest, 1, 0, 0)]
      && r.value.actions == [] && r.value.deliveries == [] && r.value.policies == map[]
  {
    hide Webhook;
    var jobs := [NewJob(0, m.key, 0, 0)];
    assert db.jobs + jobs == jobs;
    OnePost(db, digest, m);
  }

  /** A second message of the same customer to the same account always gets in. */
  lemma SecondPost(db: Db, digest: string, m1: Inbound, m2: Inbound)
    requires OnlyConv(db, m1) && db.events == [Event(m1, 0)] && m2 == m1.(mid := m2.mid) && m2.mid != m1.mid
    requires db.receipts == [Receipt("first", 1, 0, 0)] && digest != "first"
    ensures var r := Webhook(db, digest, [m2], 0, 0, 0);
      && r.Some? && OnlyConv(r.value, m2) && r.value.events == [Event(m1, 0), Event(m2, 0)]
      && r.value.jobs == db.jobs + [NewJob(1, m2.key, 0, 0)]
      && r.value.actions == db.actions && r.value.deliveries == db.deliveries && r.value.policies == db.policies
  {
    hide Webhook;
    assert FindEvent(db.events, m2.channel, m2.mid).None?;
    assert FindConversation(db.convs, m2.channel, m2.key) == Some(0);
    assert FindAccount(db.accounts, m2.channel, Strip(m2.recipient)) == Some(0);
    OnePost(db, digest, m2);
  }

  lemma PostStep(s: Sys, digest: string, m: Inbound)
    requires Aligned(s.db) && FromInstagram(m, s.cfg.accounts) && Webhook(s.db, digest, [m], 0, 0, 0).Some?
    ensures Enabled(s, Post(digest, [m], 0, 0, 0))
    ensures Next(s, Post(digest, [m], 0, 0, 0)) == s.(db := Webhook(s.db, digest, [m], 0, 0, 0).value)
  {
    hide Webhook, FromInstagram;
  }

  lemma ModeChange(s: Sys)
    requires Aligned(s.db)
    ensures Enabled(s, Operate(SetMode(Live))) && Next(s, Operate(SetMode(Live))) == s.(db := s.db.(mode := Live))
  {}

  /** From any start an operator's change of mode and one message lead here. */
  lemma Opening(s0: Sys, m: Inbound) returns (steps: seq<Step>, t: Sys)
    requires Initial(s0) && FromInstagram(m, s0.cfg.accounts)
    ensures After(s0, steps) == Some(t) && Inv(t) && Aligned(t.db) && t.cfg == s0.cfg && t.sends == []
    ensures t.workers == s0.workers && OnlyConv(t.db, m) && t.db.events == [Event(m, 0)]
    ensures t.db.jobs == [NewJob(0, m.key, 0, 0)] && t.db.receipts == [Receipt("first", 1, 0, 0)]
    ensures t.db.actions == [] && t.db.deliveries == []
  {
    hide Inv, Next, Enabled, After, Webhook, Grows, FromInstagram, OnlyConv;
    InitialInv(s0);
    Begin(s0);
    ModeChange(s0);
    steps, t := Take(s0, [], s0, Operate(SetMode(Live)));
    FirstPost(t.db, "first", m);
    PostStep(t, "first", m);
    steps, t := Take(s0, steps, t, Post("first", [m], 0, 0, 0));
  }

  // -------------------------------------------------------------- one answer

  /** The only job that is queued or in progress is what `claim_next` picks. */
  lemma OnlyLive(jobs: seq<Job>, j: nat, now: nat)
    requires j < |jobs| && Due(jobs[j], now)
    requires forall i :: 0 <= i < |jobs| && i != j ==> !jobs[i].state.Queued? && !jobs[i].state.Processing?
    ensures IsOldest(jobs, now, j) && IsNewest(jobs, jobs[j].key, now, j)
  {
    assert Claimable(jobs, j, now);
    assert DueIn(jobs, jobs[j].key, now, j);
  }

  lemma AllowedIsReply(d: Decision, f: Policy.Facts)
    requires OutcomeOf(d, Channel.Instagram, false, f).Allowed?
    ensures Intended(d) == SendReply
  {
    Policy.AllowedExactly(Intended(d), PayloadOf(d), Channel.Instagram, false, f);
  }

  /** The reply that answers message `m` of event `j` as the next action. */
  function ReplyTo(db: Db, j: nat, m: Inbound, d: Decision): Intent
    requires j < |db.events|
  {
    Intent(|db.actions|, db.events[j].conv, m.recipient, m.sender, Strip(d.text), Agent)
  }

  lemma AnswerQueues(db: Db, cfg: Config, j: nat, m: Inbound, d: Decision, f: Policy.Facts)
    requires LinkInv(db) && Aligned(db) && j < |db.jobs| && db.events[j].msg == m && Answerable(cfg, m, d, f)
    ensures var outcome := OutcomeOf(d, Channel.Instagram, false, f);
      var r := CommitDecision(db, cfg, j, d, outcome, Live, 0);
      && Queues(db, cfg, j, outcome, Live) && r.Some?
      && r.value == db.(actionStates := r.value.actionStates, audit := r.value.audit,
                        actions := db.actions + [Action(j, j, SendReply, Agent, 0)],
                        policies := db.policies[|db.actions| := Allowed],
                        deliveries := db.deliveries + [NewDelivery(ReplyTo(db, j, m, d), 0)])
  {
    hide OutcomeOf, Strip, CommitDecision, FindDelivery, HasDelivery, LinkInv;
    AllowedIsReply(d, f);
    CommitBranches(db, cfg, j, d, OutcomeOf(d, Channel.Instagram, false, f), Live, 0);
    assert !HasDelivery(db.deliveries, |db.actions|) by { DeliveryRules.Unanswered(db); }
  }

  lemma CompleteRow(db: Db, j: nat)
    requires Aligned(db) && j < |db.jobs|
    ensures var r := Complete(db, j); |r.jobs| == |db.jobs| && r.jobs[j].state.Completed?
  {}

  lemma ClaimFrame(db: Db, j: nat, now: nat, until: nat, w: nat)
    requires Aligned(db) && j < |db.jobs|
    ensures |Claim(db, j, now, until, w).jobs| == |db.jobs|
  {}

  /** A job that nobody has answered, overtaken or paused, while the mode is live. */
  ghost predicate Answers(db: Db, j: nat, m: Inbound) {
    && Aligned(db) && j < |db.jobs| && db.events[j].msg == m && db.mode.Live?
    && IsFirstAction(db.actions, j, None) && !NewerInbound(db, j)
    && db.events[j].conv < |db.convs| && !db.convs[db.events[j].conv].paused
  }

  lemma AnswersStill(a: Db, b: Db, j: nat, m: Inbound)
    requires Answers(a, j, m) && Aligned(b) && |b.jobs| == |a.jobs|
    requires b == a.(jobs := b.jobs, status := b.status, audit := b.audit)
    ensures Answers(b, j, m)
  {}

  /** A free worker takes the only live job and comes as far as the deciding transaction. */
  lemma Considers(s0: Sys, steps0: seq<Step>, s: Sys, w: nat, j: nat, m: Inbound, d: Decision)
    returns (steps: seq<Step>, t: Sys, n: nat)
    requires After(s0, steps0) == Some(s) && Inv(s) && w < |s.workers| && s.workers[w].Idle?
    requires Answers(s.db, j, m) && Due(s.db.jobs[j], 0)
    requires forall i :: 0 <= i < |s.db.jobs| && i != j ==>
      !s.db.jobs[i].state.Queued? && !s.db.jobs[i].state.Processing?
    ensures After(s0, steps) == Some(t) && Inv(t) && t.cfg == s.cfg && t.sends == s.sends
    ensures HasStage(t, w, j, n, Deciding(false, d, Live)) && t.workers == s.workers[w := t.workers[w]]
    ensures t.db == s.db.(jobs := t.db.jobs, status := t.db.status, audit := t.db.audit)
    ensures |t.db.jobs| == |s.db.jobs| && Answers(t.db, j, m)
  {
    hide Inv, Next, Enabled, After, Claim, Grows, IsOldest, IsNewest, NewerInbound, IsFirstAction;
    OnlyLive(s.db.jobs, j, 0);
    ClaimFrame(s.db, j, 0, 1, w);
    ClaimStep(s, w, j, j, 0, 1);
    steps, t := Take(s0, steps0, s, Work(w, ClaimJob(j, j, 0, 1)));
    AnswersStill(s.db, t.db, j, m);
    JobSteps.FetchStep(t, w, j, s.db.jobs[j].attempts + 1);
    n := t.db.jobs[j].attempts;
    steps, t := Take(s0, steps, t, Work(w, FetchJob));
    LookUpStep(t, w, j, n, None);
    steps, t := Take(s0, steps, t, Work(w, LookUp(None)));
    var paused;
    steps, t, paused := Deliberates(s0, steps, t, w, j, n, d);
  }

  /** It queues the reply and completes the job. */
  lemma Concludes(s0: Sys, steps0: seq<Step>, s: Sys, w: nat, j: nat, n: nat, m: Inbound, d: Decision, f: Policy.Facts)
    returns (steps: seq<Step>, t: Sys)
    requires After(s0, steps0) == Some(s) && Inv(s) && HasStage(s, w, j, n, Deciding(false, d, Live))
    requires s.db.events[j].msg == m && Answerable(s.cfg, m, d, f)
    ensures After(s0, steps) == Some(t) && Inv(t) && Aligned(t.db) && t.cfg == s.cfg && t.sends == s.sends
    ensures t.workers == s.workers[w := Idle]
    ensures t.db == s.db.(jobs := t.db.jobs, status := t.db.status, audit := t.db.audit,
                          actionStates := t.db.actionStates,
                          actions := s.db.actions + [Action(j, j, SendReply, Agent, 0)],
                          policies := s.db.policies[|s.db.actions| := Allowed],
                          deliveries := s.db.deliveries + [NewDelivery(ReplyTo(s.db, j, m, d), 0)])
    ensures |t.db.jobs| == |s.db.jobs| && t.db.jobs[j].state.Completed?
  {
    hide Inv, Next, Enabled, After, Grows, CommitDecision, Queues, OutcomeOf, Strip, Complete, Answerable, ReplyTo;
    assert m.channel.Instagram? by { IsInstagram(s.cfg, m, d, f); }
    InvParts(s);
    AnswerQueues(s.db, s.cfg, j, m, d, f);
    CommitStep(s, w, j, n, false, d, Live, f, 0);
    steps, t := Take(s0, steps0, s, Work(w, CommitAnswer(f, 0)));
    InvParts(t);
    StartStep(t, w, j, n, |s.db.actions|, true);
    steps, t := Take(s0, steps, t, Work(w, StartExecution));
    CompleteRow(t.db, j);
    FinishStep(t, w, j, n, |s.db.actions|);
    steps, t := Take(s0, steps, t, Work(w, FinishJob));
  }

  /** A free worker takes the only live job and queues a reply to it. */
  lemma Serves(s0: Sys, steps0: seq<Step>, s: Sys, w: nat, j: nat, m: Inbound, d: Decision, f: Policy.Facts)
    returns (steps: seq<Step>, t: Sys)
    requires After(s0, steps0) == Some(s) && Inv(s) && w < |s.workers| && s.workers[w].Idle?
    requires Answers(s.db, j, m) && Due(s.db.jobs[j], 0) && Answerable(s.cfg, m, d, f)
    requires forall i :: 0 <= i < |s.db.jobs| && i != j ==>
      !s.db.jobs[i].state.Queued? && !s.db.jobs[i].state.Processing?
    ensures After(s0, steps) == Some(t) && Inv(t) && Aligned(t.db) && t.cfg == s.cfg && t.sends == s.sends
    ensures t.workers == s.workers
    ensures t.db == s.db.(jobs := t.db.jobs, status := t.db.status, audit := t.db.audit,
                          actionStates := t.db.actionStates,
                          actions := s.db.actions + [Action(j, j, SendReply, Agent, 0)],
                          policies := s.db.policies[|s.db.actions| := Allowed],
                          deliveries := s.db.deliveries + [NewDelivery(ReplyTo(s.db, j, m, d), 0)])
    ensures |t.db.jobs| == |s.db.jobs| && t.db.jobs[j].state.Completed?
  {
    hide Inv, Next, Enabled, After, Grows, OutcomeOf, Strip, Answerable, NewerInbound, IsFirstAction, ReplyTo, Due;
    var n, mid;
    steps, mid, n := Considers(s0, steps0, s, w, j, m, d);
    assert ReplyTo(mid.db, j, m, d) == ReplyTo(s.db, j, m, d) by { SameReply(s.db, mid.db, j, m, d); }
    steps, t := Concludes(s0, steps, mid, w, j, n, m, d, f);
    assert t.workers == s.workers;
  }

  lemma IsInstagram(cfg: Config, m: Inbound, d: Decision, f: Policy.Facts)
    requires Answerable(cfg, m, d, f)
    ensures m.channel.Instagram?
  {}

  lemma SameReply(a: Db, b: Db, j: nat, m: Inbound, d: Decision)
    requires a.events == b.events && a.actions == b.actions && j < |a.events|
    ensures ReplyTo(a, j, m, d) == ReplyTo(b, j, m, d)
  {}

  // --------------------------------------------------------------- one check

  lemma ReplyPermitted(db: Db, cfg: Config, k: nat, m: Inbound, d: Decision, f: Policy.Facts)
    requires Answerable(cfg, m, d, f) && OnlyConv(db, m) && k < |db.deliveries| && k < |db.actions|
    requires k in db.policies && db.policies[k].Allowed? && db.actions[k].event == k && |db.events| == k + 1
    requires db.deliveries[k].intent == Intent(k, 0, m.recipient, m.sender, Strip(d.text), Agent)
    ensures PermissionReason(db, cfg, k).None?
  {
    hide OutcomeOf, Strip, PermissionReason;
    PermittedExactly(db, cfg, k);
  }

  /** A free worker takes the only waiting delivery, and its check finds nothing. */
  lemma Clears(s0: Sys, steps0: seq<Step>, s: Sys, w: nat, k: nat) returns (steps: seq<Step>, t: Sys)
    requires After(s0, steps0) == Some(s) && Inv(s) && Aligned(s.db) && w < |s.workers| && s.workers[w].Idle?
    requires k < |s.db.deliveries| && IsNext(s.db.deliveries, 0, k)
    requires PermissionReason(ClaimDelivery(s.db, k, 1, w), s.cfg, k).None?
    ensures After(s0, steps) == Some(t) && Inv(t) && Aligned(t.db) && t.cfg == s.cfg && t.sends == s.sends
    ensures HasLeg(t, w, k, Cleared) && t.workers == s.workers[w := t.workers[w]]
    ensures t.db == ClaimDelivery(s.db, k, 1, w)
  {
    hide Inv, Next, Enabled, After, Grows, PermissionReason;
    TakeStep(s, w, k, 0, 1);
    steps, t := Take(s0, steps0, s, Work(w, TakeDelivery(k, 0, 1)));
    SendSteps.FetchStep(t, w, k);
    steps, t := Take(s0, steps, t, Work(w, FetchDelivery));
    CheckStep(t, w, k);
    steps, t := Take(s0, steps, t, Work(w, CheckPermission));
  }

  lemma Calls(s0: Sys, steps0: seq<Step>, s: Sys, w: nat, k: nat) returns (steps: seq<Step>, t: Sys)
    requires After(s0, steps0) == Some(s) && Inv(s) && HasLeg(s, w, k, Cleared)
    ensures steps == steps0 + [Work(w, Send(MessageId))] && After(s0, steps) == Some(t) && Inv(t) && t.db == s.db
    ensures t.sends == s.sends + [CallOf(s.db, k)] && t.workers == s.workers[w := t.workers[w]]
  {
    hide Inv, Next, Enabled, After, Grows;
    CallStep(s, w, k, MessageId);
    steps, t := Take(s0, steps0, s, Work(w, Send(MessageId)));
  }

  // ----------------------------------------------------------------- overtaken

  /** The first message is answered and checked by worker 0; then the second one is accepted. */
  lemma Overtaken(s0: Sys, m1: Inbound, m2: Inbound, d: Decision, f: Policy.Facts)
    returns (steps: seq<Step>, t: Sys)
    requires Initial(s0) && |s0.workers| >= 1 && Answerable(s0.cfg, m1, d, f)
    requires FromInstagram(m1, s0.cfg.accounts) && m2 == m1.(mid := m2.mid) && m2.mid != m1.mid
    ensures After(s0, steps) == Some(t) && Inv(t) && Aligned(t.db) && t.cfg == s0.cfg && t.sends == []
    ensures HasLeg(t, 0, 0, Cleared) && t.workers == s0.workers[0 := t.workers[0]]
    ensures OnlyConv(t.db, m2) && t.db.events == [Event(m1, 0), Event(m2, 0)]
    ensures t.db.actions == [Action(0, 0, SendReply, Agent, 0)]
    ensures |t.db.deliveries| == 1 && t.db.deliveries[0].intent.action == 0 && t.db.deliveries[0].intent.conv == 0
    ensures t.db.deliveries[0].intent.author.Agent?
    ensures |t.db.jobs| == 2 && t.db.jobs[0].state.Completed? && t.db.jobs[1] == NewJob(1, m2.key, 0, 0)
  {
    hide Inv, Next, Enabled, After, Webhook, Grows, FromInstagram, OutcomeOf, Strip, Answerable, PermissionReason;
    assert FromInstagram(m2, s0.cfg.accounts) by { SameSender(m1, m2, s0.cfg.accounts); }
    steps, t := Opening(s0, m1);
    OnlyEvent(t.db);
    steps, t := Serves(s0, steps, t, 0, 0, m1, d, f);
    ReplyPermitted(ClaimDelivery(t.db, 0, 1, 0), t.cfg, 0, m1, d, f);
    steps, t := Clears(s0, steps, t, 0, 0);
    SecondPost(t.db, "second", m1, m2);
    PostStep(t, "second", m2);
    steps, t := Take(s0, steps, t, Post("second", [m2], 0, 0, 0));
  }

  lemma SameSender(m1: Inbound, m2: Inbound, accounts: set<string>)
    requires FromInstagram(m1, accounts) && m2 == m1.(mid := m2.mid)
    ensures FromInstagram(m2, accounts)
  {}

  /** Freshness at the call is more than one earlier check can give: whenever the configuration lets a message be
      answered at all, some run from the start, in whatever mode, sends the answer after the customer's next message
      has been accepted. */
  lemma CheckCanGoStale(s0: Sys, m1: Inbound, m2: Inbound, d: Decision, f: Policy.Facts)
    returns (steps: seq<Step>)
    requires Initial(s0) && |s0.workers| >= 1 && Answerable(s0.cfg, m1, d, f)
    requires FromInstagram(m1, s0.cfg.accounts) && m2 == m1.(mid := m2.mid) && m2.mid != m1.mid
    ensures After(s0, steps).Some? && steps != [] && IsSend(steps[|steps| - 1])
    ensures var t := After(s0, steps).value;
      |t.sends| == 1 && BotReply(t.db, t.sends[0].delivery) && Outdated(t.db, t.sends[0].delivery)
  {
    hide Inv, After, FromInstagram, Answerable, OnlyConv;
    var t;
    steps, t := Overtaken(s0, m1, m2, d, f);
    steps, t := Calls(s0, steps, t, 0, 0);
    assert t.db.events[1].conv == 0;
  }

  /** With two workers the second message can even be answered before that call is made. */
  lemma RepliesCanCross(s0: Sys, m1: Inbound, m2: Inbound, d: Decision, f: Policy.Facts)
    returns (steps: seq<Step>)
    requires Initial(s0) && |s0.workers| >= 2 && Answerable(s0.cfg, m1, d, f)
    requires FromInstagram(m1, s0.cfg.accounts) && m2 == m1.(mid := m2.mid) && m2.mid != m1.mid
    ensures After(s0, steps).Some? && !InOrder(After(s0, steps).value)
  {
    hide Inv, After, FromInstagram, OutcomeOf, Strip, PermissionReason, ValidPayload;
    var t;
    steps, t := Overtaken(s0, m1, m2, d, f);
    steps, t := Serves(s0, steps, t, 1, 1, m2, d, f);
    ReplyPermitted(ClaimDelivery(t.db, 1, 1, 1), t.cfg, 1, m2, d, f);
    steps, t := Clears(s0, steps, t, 1, 1);
    steps, t := Calls(s0, steps, t, 1, 1);
    steps, t := Calls(s0, steps, t, 0, 0);
    assert t.sends[0].delivery == 1 && t.sends[1].delivery == 0;
    assert Rivals(t.db, 1, 0);
  }

  /** Where a message can be answered at all, bot messages of a conversation go out in strict order on every run
      precisely for at most one worker. */
  lemma InOrderExactly(s0: Sys, m1: Inbound, m2: Inbound, d: Decision, f: Policy.Facts)
    requires Initial(s0) && Answerable(s0.cfg, m1, d, f)
    requires FromInstagram(m1, s0.cfg.accounts) && m2 == m1.(mid := m2.mid) && m2.mid != m1.mid
    ensures (forall steps :: After(s0, steps).Some? ==> InOrder(After(s0, steps).value)) <==> |s0.workers| <= 1
  {
    hide After, InOrder, Initial, Answerable, FromInstagram;
    if |s0.workers| <= 1 {
      forall steps | After(s0, steps).Some?
        ensures InOrder(After(s0, steps).value)
      {
        AloneStaysInOrder(s0, steps);
      }
    } else {
      var steps := RepliesCanCross(s0, m1, m2, d, f);
    }
  }

  // ------------------------------------------------------------- after a failure

  lemma CrashInFlight(s: Sys, w: nat, d: nat, leg: Leg)
    requires Aligned(s.db) && HasLeg(s, w, d, leg)
    ensures Enabled(s, Work(w, Crash)) && Next(s, Work(w, Crash)) == Freed(s, w, s.db)
  {
    assert CanAct(s, w, Crash);
  }

  /** The reply to the first message is in flight, its worker has died, and the second message has come. */
  lemma Orphaned(s0: Sys, m1: Inbound, m2: Inbound, d: Decision, f: Policy.Facts)
    returns (steps: seq<Step>, t: Sys)
    requires Initial(s0) && |s0.workers| >= 1 && Answerable(s0.cfg, m1, d, f)
    requires FromInstagram(m1, s0.cfg.accounts) && m2 == m1.(mid := m2.mid) && m2.mid != m1.mid
    ensures After(s0, steps) == Some(t) && Inv(t) && Aligned(t.db) && t.cfg == s0.cfg && t.sends == []
    ensures t.workers == s0.workers && OnlyConv(t.db, m2) && t.db.events == [Event(m1, 0), Event(m2, 0)]
    ensures t.db.actions == [Action(0, 0, SendReply, Agent, 0)]
    ensures |t.db.deliveries| == 1 && t.db.deliveries[0].intent.action == 0 && t.db.deliveries[0].intent.conv == 0
    ensures t.db.deliveries[0].status.Sending? && t.db.deliveries[0].lease == Some(0)
    ensures |t.db.jobs| == 2 && t.db.jobs[0].state.Completed? && t.db.jobs[1] == NewJob(1, m2.key, 0, 0)
  {
    hide Inv, Next, Enabled, After, Webhook, Grows, FromInstagram, OutcomeOf, Strip, Answerable, PermissionReason;
    assert FromInstagram(m2, s0.cfg.accounts) by { SameSender(m1, m2, s0.cfg.accounts); }
    steps, t := Opening(s0, m1);
    OnlyEvent(t.db);
    steps, t := Serves(s0, steps, t, 0, 0, m1, d, f);
    TakeStep(t, 0, 0, 0, 0);
    steps, t := Take(s0, steps, t, Work(0, TakeDelivery(0, 0, 0)));
    CrashInFlight(t, 0, 0, Reloading);
    steps, t := Take(s0, steps, t, Work(0, Crash));
    SecondPost(t.db, "second", m1, m2);
    PostStep(t, "second", m2);
    steps, t := Take(s0, steps, t, Post("second", [m2], 0, 0, 0));
  }

  /** Of two deliveries in flight, only the first one's lease has run out. */
  lemma OnlyFirstExpires(db: Db)
    requires |db.deliveries| == 2 && Expired(db.deliveries[0], 0) && !Expired(db.deliveries[1], 0)
    ensures var rows := RecoverDeliveries(db, 0).deliveries;
      |rows| == 2 && rows[0].status.Unknown? && rows[0].intent == db.deliveries[0].intent && rows[1] == db.deliveries[1]
  {
    RecoverRow(db, 0, 0);
    RecoverRow(db, 0, 1);
  }

  /** The window that `FailureContained` leaves open is real, even for one worker: one reply turns out unknown, which
      pauses the conversation, and the worker that was cleared to send the next reply just before still sends it. */
  lemma ClearedOutlivesFailure(s0: Sys, m1: Inbound, m2: Inbound, d: Decision, f: Policy.Facts)
    returns (steps: seq<Step>, s: Sys, mid: Sys, t: Sys)
    requires Initial(s0) && |s0.workers| >= 1 && Answerable(s0.cfg, m1, d, f)
    requires FromInstagram(m1, s0.cfg.accounts) && m2 == m1.(mid := m2.mid) && m2.mid != m1.mid
    ensures After(s0, steps) == Some(s) && Enabled(s, RecoverSends(0)) && mid == Next(s, RecoverSends(0))
    ensures |s.db.deliveries| == |mid.db.deliveries| == 2 && s.db.deliveries[0].intent.conv == 0
    ensures !WentWrong(s.db.deliveries[0].status) && WentWrong(mid.db.deliveries[0].status)
    ensures |mid.db.convs| > 0 && mid.db.convs[0].paused
    ensures Enabled(mid, Work(0, Send(MessageId))) && t == Next(mid, Work(0, Send(MessageId))) && mid.sends == []
    ensures |t.sends| == 1 && t.sends[0].delivery == 1 && BotReply(t.db, 1) && t.db.deliveries[1].intent.conv == 0
  {
    hide Inv, Next, Enabled, After, FromInstagram, OutcomeOf, Strip, PermissionReason, ValidPayload, Grows,
      RecoverDeliveries;
    steps, s := Orphaned(s0, m1, m2, d, f);
    steps, s := Serves(s0, steps, s, 0, 1, m2, d, f);
    ReplyPermitted(ClaimDelivery(s.db, 1, 1, 0), s.cfg, 1, m2, d, f);
    steps, s := Clears(s0, steps, s, 0, 1);
    SendSteps.RecoverStep(s, 0);
    OnlyFirstExpires(s.db);
    FailurePauses(s, RecoverSends(0), 0);
    var more;
    more, mid := Take(s0, steps, s, RecoverSends(0));
    CallStep(mid, 0, 1, MessageId);
    t := Next(mid, Work(0, Send(MessageId)));
  }
}
