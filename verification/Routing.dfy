/** Replies leave from the account a customer wrote to, and go to that customer.

    The configuration guarantees that account ids are unique up to case.  The key format needs one thing more: that no
    id extends another one by a colon and what a customer's id may begin with, which ids without colons never do. */
module Routing {
  import opened Types
  import opened Text
  import opened WorkspaceModel
  import opened QueueModel
  import opened DeliveryModel
  import opened WorkerModel
  import opened System
  import opened QueueInvariant
  import opened LinkInvariant
  import opened AnswerInvariant
  import opened AuditInvariant
  import opened Safety
  import opened Outcomes
  import Policy
  import ProtocolInvariant

  ghost predicate UniqueIds(accounts: set<string>) {
    forall a, b :: a in accounts && b in accounts && Fold(a) == Fold(b) ==> a == b
  }

  /** Account id `a`, a colon and the beginning of a customer's id: this is how account id `b` reads. */
  predicate Extends(a: string, b: string) {
    a + ":" <= b && (|b| == |a| + 1 || !IsSpace(b[|a| + 1]))
  }

  ghost predicate Distinguishable(accounts: set<string>) {
    UniqueIds(accounts) && forall a, b :: a in accounts && b in accounts ==> !Extends(a, b)
  }

  function KeyOf(account: string, customer: string): string {
    "instagram:" + account + ":" + customer
  }

  /** Exactly when messages of customers to two accounts can have the same work key. */
  lemma KeysMeetExactly(a: string, b: string)
    ensures (exists x, y :: IsCustomer(x) && IsCustomer(y) && KeyOf(a, x) == KeyOf(b, y))
       <==> a == b || Extends(a, b) || Extends(b, a)
  {
    if x, y :| IsCustomer(x) && IsCustomer(y) && KeyOf(a, x) == KeyOf(b, y) {
      KeyEnds(a, b, x, y);
      SameStart(a, b, x, y);
      SameStart(b, a, y, x);
    }
    if a == b {
      assert IsCustomer("c") && KeyOf(a, "c") == KeyOf(b, "c");
    } else if Extends(a, b) {
      Meet(a, b, "c");
      assert IsCustomer(Rest(a, b) + ":" + "c") && IsCustomer("c");
    } else if Extends(b, a) {
      Meet(b, a, "c");
      assert IsCustomer(Rest(b, a) + ":" + "c") && IsCustomer("c");
    }
  }

  lemma KeyEnds(a: string, b: string, x: string, y: string)
    requires KeyOf(a, x) == KeyOf(b, y)
    ensures a + ":" + x == b + ":" + y
  {
    assert KeyOf(a, x) == "instagram:" + (a + ":" + x) && KeyOf(b, y) == "instagram:" + (b + ":" + y);
    assert a + ":" + x == KeyOf(a, x)[|"instagram:"|..] == b + ":" + y;
  }

  /** Of two ids that start the same text, the shorter one starts the longer, and its customer makes up the rest. */
  lemma SameStart(a: string, b: string, x: string, y: string)
    requires a + ":" + x == b + ":" + y && IsCustomer(x)
    ensures |a| == |b| ==> a == b && x == y
    ensures |a| < |b| ==> Extends(a, b)
  {
    var l, r := a + ":" + x, b + ":" + y;
    assert a == l[..|a|] && a + ":" == l[..|a| + 1] && b == r[..|b|];
    assert x == l[|a| + 1..] && y == r[|b| + 1..];
    assert |a| < |b| ==> b[..|a| + 1] == r[..|a| + 1];
    assert |a| + 1 < |b| ==> b[|a| + 1] == r[|a| + 1] == l[|a| + 1] == x[0];
  }

  /** What account id `b` adds to account id `a` and its colon. */
  function Rest(a: string, b: string): string
    requires Extends(a, b)
  {
    b[|a| + 1..]
  }

  /** Every customer of the longer id has a namesake at the shorter one. */
  lemma Meet(a: string, b: string, y: string)
    requires Extends(a, b) && IsCustomer(y)
    ensures var x := Rest(a, b) + ":" + y; IsCustomer(x) && KeyOf(a, x) == KeyOf(b, y)
  {
    var x := Rest(a, b) + ":" + y;
    assert b == a + ":" + Rest(a, b);
    assert KeyOf(a, x) == KeyOf(b, y);
    assert x[|x| - 1] == y[|y| - 1];
    assert |b| == |a| + 1 ==> x[0] == ':';
    assert |b| > |a| + 1 ==> x[0] == b[|a| + 1];
  }

  /** Both halves of an Instagram work key can be read back. */
  lemma KeyFixesRoute(a: Inbound, b: Inbound, accounts: set<string>)
    requires FromInstagram(a, accounts) && FromInstagram(b, accounts) && Distinguishable(accounts) && a.key == b.key
    ensures a.recipient == b.recipient && a.sender == b.sender
  {
    KeyEnds(a.recipient, b.recipient, a.sender, b.sender);
    SameStart(a.recipient, b.recipient, a.sender, b.sender);
    SameStart(b.recipient, a.recipient, b.sender, a.sender);
  }

  // --------------------------------------------------------------- invariant

  ghost predicate EventsRouted(events: seq<Event>, accounts: set<string>) {
    forall e :: 0 <= e < |events| && events[e].msg.channel.Instagram? ==> FromInstagram(events[e].msg, accounts)
  }

  ghost predicate AccountsKnown(rows: seq<Account>, accounts: set<string>) {
    forall a :: 0 <= a < |rows| && rows[a].channel.Instagram? ==> rows[a].external in accounts
  }

  /** A conversation's current account and customer are those of each of its Instagram events. */
  ghost predicate ConvsRouted(events: seq<Event>, convs: seq<Conversation>, rows: seq<Account>) {
    forall e :: 0 <= e < |events| && events[e].msg.channel.Instagram? && events[e].conv < |convs| ==>
      && convs[events[e].conv].account < |rows|
      && rows[convs[events[e].conv].account].external == events[e].msg.recipient
      && convs[events[e].conv].customer == events[e].msg.sender
  }

  predicate IntentRouted(events: seq<Event>, actions: seq<Action>, t: Intent) {
    && t.action < |actions| && actions[t.action].event < |events|
    && var m := events[actions[t.action].event].msg;
       m.channel.Instagram? && t.account == m.recipient && t.customer == m.sender
  }

  ghost predicate DeliveriesRouted(events: seq<Event>, actions: seq<Action>, deliveries: seq<Delivery>) {
    forall d :: 0 <= d < |deliveries| ==> IntentRouted(events, actions, deliveries[d].intent)
  }

  ghost predicate RouteInv(db: Db, accounts: set<string>) {
    && EventsRouted(db.events, accounts) && AccountsKnown(db.accounts, accounts)
    && ConvsRouted(db.events, db.convs, db.accounts)
    && DeliveriesRouted(db.events, db.actions, db.deliveries)
  }

  // ------------------------------------------------------------------ ingress

  lemma IngressKeepsConvs(db: Db, m: Inbound, accounts: set<string>)
    requires Convs(db) && RouteInv(db, accounts) && Distinguishable(accounts)
    requires m.channel.Instagram? ==> FromInstagram(m, accounts)
    requires Keyed(m) && EnsureConversation(db.accounts, db.convs, m).Some?
    ensures var r := EnsureConversation(db.accounts, db.convs, m).value;
      && AccountsKnown(r.accounts, accounts)
      && ConvsRouted(db.events + [Event(m, r.conv)], r.convs, r.accounts)
  {
    var r := EnsureConversation(db.accounts, db.convs, m).value;
    var events := db.events + [Event(m, r.conv)];
    assert forall a :: 0 <= a < |db.accounts| ==> r.accounts[a] == db.accounts[a];
    if m.channel.Instagram? {
      assert r.accounts[r.convs[r.conv].account].external == m.recipient by {
        var known := FindAccount(db.accounts, m.channel, Strip(m.recipient));
        assert Strip(m.recipient) == m.recipient;
      }
    }
    forall e | 0 <= e < |events| && events[e].msg.channel.Instagram? && events[e].conv < |r.convs|
      ensures r.convs[events[e].conv].account < |r.accounts|
      ensures r.accounts[r.convs[events[e].conv].account].external == events[e].msg.recipient
      ensures r.convs[events[e].conv].customer == events[e].msg.sender
    {
      if e < |db.events| && events[e].conv == r.conv {
        assert db.convs[events[e].conv].key == events[e].msg.key == m.key;
        KeyFixesRoute(events[e].msg, m, accounts);
      }
    }
  }

  lemma NewEventKeepsDeliveries(db: Db, event: Event)
    requires DeliveriesRouted(db.events, db.actions, db.deliveries)
    ensures DeliveriesRouted(db.events + [event], db.actions, db.deliveries)
  {
    forall d | 0 <= d < |db.deliveries|
      ensures IntentRouted(db.events + [event], db.actions, db.deliveries[d].intent)
    {
      assert IntentRouted(db.events, db.actions, db.deliveries[d].intent);
    }
  }

  lemma EnqueueRoutes(db: Db, m: Inbound, now: nat, debounce: nat, accounts: set<string>)
    requires Convs(db) && RouteInv(db, accounts) && Distinguishable(accounts)
    requires (m.channel.Instagram? ==> FromInstagram(m, accounts)) && Keyed(m)
    requires Enqueue(db, m, now, debounce).Some?
    ensures RouteInv(Enqueue(db, m, now, debounce).value.db, accounts)
  {
    hide EnsureConversation, ConvInv, ConvsRouted, DeliveriesRouted, AccountsKnown, FromInstagram, Keyed;
    if FindEvent(db.events, m.channel, m.mid).None? {
      IngressKeepsConvs(db, m, accounts);
      NewEventKeepsDeliveries(db, Event(m, EnsureConversation(db.accounts, db.convs, m).value.conv));
    }
  }

  lemma {:induction false} EnqueueAllRoutes(db: Db, msgs: seq<Inbound>, now: nat, debounce: nat, accounts: set<string>)
    requires Convs(db) && RouteInv(db, accounts) && Distinguishable(accounts)
    requires forall i :: 0 <= i < |msgs| ==> FromInstagram(msgs[i], accounts)
    requires EnqueueAll(db, msgs, now, debounce).Some?
    ensures RouteInv(EnqueueAll(db, msgs, now, debounce).value.db, accounts)
  {
    hide Convs, RouteInv, Enqueue, FromInstagram, Keyed, Distinguishable;
    if msgs != [] {
      var n := |msgs| - 1;
      EnqueueAllRoutes(db, msgs[..n], now, debounce, accounts);
      AllKeyed(msgs, accounts);
      EnqueueAllConvs(db, msgs[..n], now, debounce);
      EnqueueRoutes(EnqueueAll(db, msgs[..n], now, debounce).value.db, msgs[n], now, debounce, accounts);
    }
  }

  // --------------------------------------------------------------- deliveries

  lemma SameIntentsRouted(before: Db, after: Db)
    requires DeliveriesRouted(before.events, before.actions, before.deliveries)
    requires before.events == after.events && before.actions <= after.actions
    requires |after.deliveries| == |before.deliveries| && IntentsKept(before.deliveries, after.deliveries)
    ensures DeliveriesRouted(after.events, after.actions, after.deliveries)
  {
    forall d | 0 <= d < |after.deliveries|
      ensures IntentRouted(after.events, after.actions, after.deliveries[d].intent)
    {
      assert IntentRouted(before.events, before.actions, before.deliveries[d].intent);
    }
  }

  /** One more delivery, routed like the event it answers. */
  lemma MoreRouted(before: Db, after: Db)
    requires DeliveriesRouted(before.events, before.actions, before.deliveries)
    requires before.events == after.events && before.actions <= after.actions
    requires |after.deliveries| == |before.deliveries| + 1
    requires forall d :: 0 <= d < |before.deliveries| ==> after.deliveries[d] == before.deliveries[d]
    requires IntentRouted(after.events, after.actions, after.deliveries[|before.deliveries|].intent)
    ensures DeliveriesRouted(after.events, after.actions, after.deliveries)
  {
    forall d | 0 <= d < |before.deliveries|
      ensures IntentRouted(after.events, after.actions, after.deliveries[d].intent)
    {
      assert IntentRouted(before.events, before.actions, before.deliveries[d].intent);
    }
  }

  /** Rewriting status and pause flags does not reroute a conversation. */
  lemma SameConvsRouted(before: Db, after: Db)
    requires ConvsRouted(before.events, before.convs, before.accounts)
    requires after.events == before.events && after.accounts == before.accounts && SameConvs(before.convs, after.convs)
    ensures ConvsRouted(after.events, after.convs, after.accounts)
  {
    assert forall c :: 0 <= c < |after.convs| ==> SameIdentity(before.convs[c], after.convs[c]);
  }

  lemma CommitRoutes(db: Db, cfg: Config, j: nat, d: Decision, outcome: Outcome, mode: Mode, now: nat)
    requires LinkInv(db) && Aligned(db) && j < |db.jobs|
    requires outcome.Allowed? ==> db.events[j].msg.channel.Instagram?
    requires DeliveriesRouted(db.events, db.actions, db.deliveries)
    requires CommitDecision(db, cfg, j, d, outcome, mode, now).Some?
    ensures var after := CommitDecision(db, cfg, j, d, outcome, mode, now).value;
      DeliveriesRouted(db.events, after.actions, after.deliveries)
  {
    hide CommitDecision, EnqueueDelivery, DeliveriesRouted, CreateReview;
    var after := CommitDecision(db, cfg, j, d, outcome, mode, now).value;
    var e, a := db.events[j], |db.actions|;
    var db1 := RecordDecision(db, j, Intended(d), outcome, now);
    CommitShape(db, cfg, j, d, outcome, mode, now);
    NewActionKeeps(db, Action(j, j, Intended(d), Agent, now), outcome);
    if Queues(db, cfg, j, outcome, mode) {
      EnqueueDeliveryKeeps(db1, Intent(a, e.conv, e.msg.recipient, e.msg.sender, d.text, Agent), now);
      MoreRouted(db, after);
    } else {
      SameIntentsRouted(db, after);
    }
  }

  lemma ReplyRoutes(db: Db, c: nat, text: string, now: nat)
    requires LinkInv(db) && Convs(db) && ConvsRouted(db.events, db.convs, db.accounts)
    requires DeliveriesRouted(db.events, db.actions, db.deliveries)
    requires CreateHumanReply(db, c, text, now).Some?
    ensures var after := CreateHumanReply(db, c, text, now).value;
      DeliveriesRouted(db.events, after.actions, after.deliveries)
  {
    hide EnqueueDelivery, DeliveriesRouted;
    var after := CreateHumanReply(db, c, text, now).value;
    var e := LatestEvent(db.events, c).value;
    var a := |db.actions|;
    NewActionKeeps(db, Action(e, e, HumanReply, Human, now), Allowed);
    var db1 := db.(actions := db.actions + [Action(e, e, HumanReply, Human, now)],
                   actionStates := db.actionStates[a := AwaitingDelivery], policies := db.policies[a := Allowed]);
    var t := Intent(a, c, db.accounts[db.convs[c].account].external, db.convs[c].customer, Strip(text), Human);
    EnqueueDeliveryKeeps(db1, t, now);
    assert IntentRouted(db.events, db1.actions, t);
    MoreRouted(db, after);
  }

  lemma OutcomeIsInstagram(db: Db, p: Pc, f: Policy.Facts)
    requires p.OnJob? && p.stage.Deciding? && p.job < |db.events| && PolicyOutcome(db, p, f).Allowed?
    ensures db.events[p.job].msg.channel.Instagram?
  {
    var d := p.stage.decision;
    Policy.AllowedExactly(Intended(d), PayloadOf(d), db.events[p.job].msg.channel, p.stage.paused, f);
  }

  // ------------------------------------------------------------- every step

  lemma QuietRoutes(before: Db, after: Db, accounts: set<string>)
    requires RouteInv(before, accounts) && LinkInv(before)
    requires after.events == before.events && after.accounts == before.accounts && after.actions == before.actions
    requires SameConvs(before.convs, after.convs)
    requires |after.deliveries| == |before.deliveries| && IntentsKept(before.deliveries, after.deliveries)
    ensures RouteInv(after, accounts)
  {
    SameConvsRouted(before, after);
    SameIntentsRouted(before, after);
  }

  lemma ActRoutes(s: Sys, w: nat, a: Act)
    requires RouteInv(s.db, s.cfg.accounts) && LinkInv(s.db) && Aligned(s.db) && CanAct(s, w, a)
    ensures RouteInv(DbAfter(s, w, a), s.cfg.accounts)
  {
    hide RouteInv, LinkInv, CanAct, DbAfter;
    if a.CommitAnswer? {
      CommitRoute(s, w, a.facts, a.now);
    } else if a.Withhold? || a.RecordSent? || a.RecordError? {
      SettlingRoutes(s, w, a);
    } else {
      OtherTables(s, w, a);
      QuietRoutes(s.db, DbAfter(s, w, a), s.cfg.accounts);
    }
  }

  /** The other steps of a worker leave alone what routing is about. */
  lemma OtherTables(s: Sys, w: nat, a: Act)
    requires Aligned(s.db) && CanAct(s, w, a) && !a.CommitAnswer? && !a.Withhold? && !a.RecordSent? && !a.RecordError?
    ensures var db := DbAfter(s, w, a);
      && db.events == s.db.events && db.accounts == s.db.accounts && db.actions == s.db.actions
      && SameConvs(s.db.convs, db.convs)
      && |db.deliveries| == |s.db.deliveries| && IntentsKept(s.db.deliveries, db.deliveries)
  {
    hide Claim, Fail, Complete, Supersede, IsOldest, IsNewest, IsFirstAction;
  }

  lemma SettlingRoutes(s: Sys, w: nat, a: Act)
    requires RouteInv(s.db, s.cfg.accounts) && LinkInv(s.db) && Aligned(s.db) && CanAct(s, w, a)
    requires a.Withhold? || a.RecordSent? || a.RecordError?
    ensures RouteInv(DbAfter(s, w, a), s.cfg.accounts)
  {
    hide RouteInv, LinkInv, Suppress, FinishSent, FinishError;
    var p, db := s.workers[w], s.db;
    match a
    case Withhold =>
      if Suppress(db, p.delivery).Some? { SuppressRoutes(db, p.delivery, s.cfg.accounts); }
    case RecordSent =>
      if FinishSent(db, p.delivery, p.attempt).Some? { SentRoutes(db, p.delivery, p.attempt, s.cfg.accounts); }
    case RecordError =>
      if FinishError(db, p.delivery, p.attempt, p.leg.ambiguous).Some? {
        ErrorRoutes(db, p.delivery, p.attempt, p.leg.ambiguous, s.cfg.accounts);
      }
  }

  lemma SuppressRoutes(db: Db, d: nat, accounts: set<string>)
    requires RouteInv(db, accounts) && LinkInv(db) && d < |db.deliveries| && Suppress(db, d).Some?
    ensures RouteInv(Suppress(db, d).value, accounts)
  {
    hide RouteInv, LinkInv, Suppress;
    SuppressConvs(db, d);
    QuietRoutes(db, Suppress(db, d).value, accounts);
  }

  lemma SentRoutes(db: Db, d: nat, n: nat, accounts: set<string>)
    requires RouteInv(db, accounts) && LinkInv(db) && d < |db.deliveries| && FinishSent(db, d, n).Some?
    ensures RouteInv(FinishSent(db, d, n).value, accounts)
  {
    hide RouteInv, LinkInv, FinishSent;
    SentConvs(db, d, n);
    QuietRoutes(db, FinishSent(db, d, n).value, accounts);
  }

  lemma ErrorRoutes(db: Db, d: nat, n: nat, ambiguous: bool, accounts: set<string>)
    requires RouteInv(db, accounts) && LinkInv(db) && d < |db.deliveries| && FinishError(db, d, n, ambiguous).Some?
    ensures RouteInv(FinishError(db, d, n, ambiguous).value, accounts)
  {
    hide RouteInv, LinkInv, FinishError;
    ErrorConvs(db, d, n, ambiguous);
    QuietRoutes(db, FinishError(db, d, n, ambiguous).value, accounts);
  }

  lemma CommitRoute(s: Sys, w: nat, f: Policy.Facts, now: nat)
    requires RouteInv(s.db, s.cfg.accounts) && LinkInv(s.db) && Aligned(s.db) && CanAct(s, w, CommitAnswer(f, now))
    ensures RouteInv(DbAfter(s, w, CommitAnswer(f, now)), s.cfg.accounts)
  {
    hide LinkInv, CommitDecision, PolicyOutcome, EventsRouted, AccountsKnown, ConvsRouted, DeliveriesRouted;
    var p, db := s.workers[w], s.db;
    var outcome := PolicyOutcome(db, p, f);
    if outcome.Allowed? { OutcomeIsInstagram(db, p, f); }
    if CommitDecision(db, s.cfg, p.job, p.stage.decision, outcome, p.stage.mode, now).Some? {
      CommitRoutes(db, s.cfg, p.job, p.stage.decision, outcome, p.stage.mode, now);
      CommitConvs(db, s.cfg, p.job, p.stage.decision, outcome, p.stage.mode, now);
      SameConvsRouted(db, CommitDecision(db, s.cfg, p.job, p.stage.decision, outcome, p.stage.mode, now).value);
    }
  }

  lemma ReplyRoute(db: Db, c: nat, text: string, now: nat, accounts: set<string>)
    requires RouteInv(db, accounts) && LinkInv(db) && Convs(db) && CreateHumanReply(db, c, text, now).Some?
    ensures RouteInv(CreateHumanReply(db, c, text, now).value, accounts)
  {
    hide LinkInv, Convs, CreateHumanReply, EventsRouted, AccountsKnown, ConvsRouted, DeliveriesRouted;
    ReplyRoutes(db, c, text, now);
    ReplyConvs(db, c, text, now);
    SameConvsRouted(db, CreateHumanReply(db, c, text, now).value);
  }

  lemma OperationRoutes(db: Db, op: Operation, accounts: set<string>)
    requires RouteInv(db, accounts) && LinkInv(db) && Convs(db) && Aligned(db) && CanOperate(op)
    ensures RouteInv(Operated(db, op), accounts)
  {
    hide RouteInv, LinkInv, Convs, CreateHumanReply, TransitionReview, EditReview, SetBotPaused, SetConversationStatus,
      Retry, Dismiss;
    match op
    case Reply(c, text, now) =>
      if CreateHumanReply(db, c, text, now).Some? { ReplyRoute(db, c, text, now, accounts); }
    case Transition(r, target) =>
      if TransitionReview(db, r, target).Moved? {
        TransitionConvs(db, r, target);
        QuietRoutes(db, Operated(db, op), accounts);
      }
    case SetPaused(c, paused) => PauseConvs(db, c, paused); QuietRoutes(db, Operated(db, op), accounts);
    case SetConvStatus(c, status) => StatusConvs(db, c, status); QuietRoutes(db, Operated(db, op), accounts);
    case _ => QuietRoutes(db, Operated(db, op), accounts);
  }

  lemma WebhookRoutes(db: Db, digest: string, msgs: seq<Inbound>, ignored: nat, now: nat, debounce: nat,
                      accounts: set<string>)
    requires RouteInv(db, accounts) && Convs(db) && Distinguishable(accounts)
    requires forall i :: 0 <= i < |msgs| ==> FromInstagram(msgs[i], accounts)
    ensures RouteInv(OrElse(Webhook(db, digest, msgs, ignored, now, debounce), db), accounts)
  {
    hide EnqueueAll, Convs, FromInstagram, Distinguishable, EventsRouted, AccountsKnown, ConvsRouted, DeliveriesRouted;
    if !HasReceipt(db.receipts, digest) && EnqueueAll(db, msgs, now, debounce).Some? {
      EnqueueAllRoutes(db, msgs, now, debounce, accounts);
    }
  }

  lemma StepRoutes(s: Sys, step: Step)
    requires Inv(s) && RouteInv(s.db, s.cfg.accounts) && Distinguishable(s.cfg.accounts) && Enabled(s, step)
    ensures RouteInv(Next(s, step).db, s.cfg.accounts)
  {
    hide RouteInv, ConvInv, JobRows, LinkInv, DraftInv, AnswerInv, DoneInv, AuditInv, PcInv, Protocol, CallsAsWritten,
      DbAfter, PcAfter, Enqueue, Webhook, RecoverAll, RecoverStale, Operated, FromInstagram, Distinguishable;
    match step
    case Ingest(m, now, debounce) =>
      if Enqueue(s.db, m, now, debounce).Some? { EnqueueRoutes(s.db, m, now, debounce, s.cfg.accounts); }
    case Post(digest, msgs, ignored, now, debounce) =>
      WebhookRoutes(s.db, digest, msgs, ignored, now, debounce, s.cfg.accounts);
    case RecoverJobs(now) => QuietRoutes(s.db, Next(s, step).db, s.cfg.accounts);
    case RecoverSends(now) =>
      RecoverAllConvs(s.db, ExpiredDeliveries(s.db.deliveries, now, |s.db.deliveries|));
      RecoverIntents(s.db, now);
      QuietRoutes(s.db, Next(s, step).db, s.cfg.accounts);
    case Work(w, a) => ActRoutes(s, w, a);
    case Operate(op) => OperationRoutes(s.db, op, s.cfg.accounts);
  }

  lemma RecoverIntents(db: Db, now: nat)
    ensures IntentsKept(db.deliveries, RecoverDeliveries(db, now).deliveries)
  {
    forall d | 0 <= d < |db.deliveries|
      ensures RecoverDeliveries(db, now).deliveries[d].intent == db.deliveries[d].intent
    {
      RecoverRow(db, now, d);
    }
  }

  lemma {:induction false} RunsAreRouted(ss: seq<Sys>, steps: seq<Step>, i: nat)
    requires IsRun(ss, steps) && i < |ss| && Distinguishable(ss[0].cfg.accounts)
    ensures ss[i].cfg == ss[0].cfg && RouteInv(ss[i].db, ss[i].cfg.accounts)
  {
    hide RouteInv, Next, Distinguishable;
    if i == 0 {
      assert RouteInv(ss[0].db, ss[0].cfg.accounts) by { EmptyIsRouted(ss[0]); }
    } else {
      RunsAreRouted(ss, steps, i - 1);
      RunsAreSafe(ss, steps, i - 1);
      assert Enabled(ss[i - 1], steps[i - 1]) && ss[i - 1 + 1] == Next(ss[i - 1], steps[i - 1]);
      StepRoutes(ss[i - 1], steps[i - 1]);
      SameConfig(ss[i - 1], steps[i - 1]);
    }
  }

  lemma EmptyIsRouted(s: Sys)
    requires Initial(s)
    ensures RouteInv(s.db, s.cfg.accounts)
  {}

  // ---------------------------------------------------- only registered senders

  /** A cleared delivery, and every call made, used an account with a registered sender. */
  ghost predicate Registered(s: Sys) {
    && (forall w :: 0 <= w < |s.workers| && s.workers[w].OnDelivery? && s.workers[w].leg.Cleared? ==>
          s.workers[w].delivery < |s.db.deliveries|
          && s.db.deliveries[s.workers[w].delivery].intent.account in s.cfg.senders)
    && (forall i :: 0 <= i < |s.sends| ==> s.sends[i].account in s.cfg.senders)
  }

  lemma CheckRegisters(s: Sys, w: nat)
    requires Aligned(s.db) && CanAct(s, w, CheckPermission)
    ensures var q := PcAfter(s, w, CheckPermission);
      q.OnDelivery? && q.leg.Cleared? ==>
        q.delivery < |s.db.deliveries| && s.db.deliveries[q.delivery].intent.account in s.cfg.senders
  {}

  lemma OwnLeg(s: Sys, w: nat, a: Act)
    requires Aligned(s.db) && CanAct(s, w, a) && !a.CheckPermission?
    ensures var q := PcAfter(s, w, a); !(q.OnDelivery? && q.leg.Cleared?)
  {
    hide PermissionReason, CommitDecision, PolicyOutcome, Queues, Find;
  }

  lemma StepRegisters(s: Sys, step: Step)
    requires Inv(s) && Registered(s) && Enabled(s, step)
    ensures Registered(Next(s, step))
  {
    hide ConvInv, JobRows, LinkInv, DraftInv, AnswerInv, DoneInv, AuditInv, PcInv, Protocol, CallsAsWritten, DbAfter,
      PcAfter, Enqueue, Webhook, RecoverDeliveries, RecoverStale, Operated, Grows;
    StepKeepsInv(s, step);
    SameConfig(s, step);
    KeptIntents(s.db, Next(s, step).db);
    if step.Work? {
      if step.act.CheckPermission? { CheckRegisters(s, step.w); } else { OwnLeg(s, step.w, step.act); }
    }
  }

  lemma KeptIntents(before: Db, after: Db)
    requires Grows(before, after)
    ensures IntentsKept(before.deliveries, after.deliveries)
  {}

  lemma {:induction false} RunsAreRegistered(ss: seq<Sys>, steps: seq<Step>, i: nat)
    requires IsRun(ss, steps) && i < |ss|
    ensures Registered(ss[i])
  {
    hide Inv, Next, Enabled;
    if i > 0 {
      RunsAreRegistered(ss, steps, i - 1);
      RunsAreSafe(ss, steps, i - 1);
      assert Enabled(ss[i - 1], steps[i - 1]) && ss[i - 1 + 1] == Next(ss[i - 1], steps[i - 1]);
      StepRegisters(ss[i - 1], steps[i - 1]);
    } else {
      assert forall w :: 0 <= w < |ss[0].workers| ==> ss[0].workers[w] == Idle;
    }
  }

  // ---------------------------------------------------------------- theorem

  /** Every message sent, bot or human, left through a registered sender of the account that every inbound event of
      its conversation was addressed to, and went to the customer who wrote them. */
  lemma SendsAreRouted(ss: seq<Sys>, steps: seq<Step>, i: nat, k: nat, e: nat)
    requires IsRun(ss, steps) && Distinguishable(ss[0].cfg.accounts) && i < |ss|
    requires k < |ss[i].sends| && e < |ss[i].db.events|
    requires ss[i].sends[k].delivery < |ss[i].db.deliveries| ==>
      ss[i].db.events[e].conv == ss[i].db.deliveries[ss[i].sends[k].delivery].intent.conv
    ensures var m := ss[i].db.events[e].msg;
      && m.channel.Instagram?
      && ss[i].sends[k].account == m.recipient && ss[i].sends[k].customer == m.sender
      && ss[i].sends[k].account in ss[0].cfg.senders
  {
    hide JobRows, DraftInv, AnswerInv, DoneInv, AuditInv, PcInv, Protocol, Distinguishable, FromInstagram;
    RunsAreSafe(ss, steps, i);
    RunsAreRouted(ss, steps, i);
    RunsAreRegistered(ss, steps, i);
    var db, call := ss[i].db, ss[i].sends[k];
    var t := db.deliveries[call.delivery].intent;
    assert IntentRouted(db.events, db.actions, t);
    assert IntentOk(db.events, db.actions, db.policies, t);
    var own := db.actions[t.action].event;
    KeyIsConversation(db, own, e);
    KeyFixesChannel(db.events[own].msg, db.events[e].msg);
    KeyFixesRoute(db.events[own].msg, db.events[e].msg, ss[i].cfg.accounts);
  }
}
