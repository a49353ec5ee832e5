/** Webhook replay: whatever is posted, again, overlapping or reordered, each message becomes one event, and the
    receipts add up. */
module Ingress {
  import opened Types
  import opened Text
  import opened WorkspaceModel
  import opened QueueModel
  import opened DeliveryModel
  import opened WorkerModel
  import opened System
  import opened QueueInvariant
  import opened LinkInvariant
  import opened AnswerInvariant
  import opened AuditInvariant
  import opened Safety
  import opened Routing

  function CountInstagram(events: seq<Event>): nat {
    if events == [] then 0
    else CountInstagram(events[..|events| - 1]) + (if events[|events| - 1].msg.channel.Instagram? then 1 else 0)
  }

  function AcceptedTotal(receipts: seq<Receipt>): nat {
    if receipts == [] then 0 else AcceptedTotal(receipts[..|receipts| - 1]) + receipts[|receipts| - 1].accepted
  }

  ghost function Mids(events: seq<Event>): set<string> {
    set e | 0 <= e < |events| && events[e].msg.channel.Instagram? :: events[e].msg.mid
  }

  ghost function MidsOf(msgs: seq<Inbound>): set<string> {
    set i | 0 <= i < |msgs| :: msgs[i].mid
  }

  /** No two events of a channel have the same message id. */
  ghost predicate MidsDistinct(events: seq<Event>) {
    forall i, k :: 0 <= i < k < |events| && events[i].msg.channel == events[k].msg.channel ==>
      events[i].msg.mid != events[k].msg.mid
  }

  // ---------------------------------------------------------- one enqueueing

  /** What `enqueue_in_transaction` does to the events: nothing for a known id, one new event otherwise. */
  lemma EnqueueEvents(db: Db, m: Inbound, now: nat, debounce: nat)
    requires Enqueue(db, m, now, debounce).Some?
    ensures var r := Enqueue(db, m, now, debounce).value;
      && r.created == (forall e :: 0 <= e < |db.events| ==>
                         db.events[e].msg.channel != m.channel || db.events[e].msg.mid != m.mid)
      && (r.created ==> exists c: nat :: r.db.events == db.events + [Event(m, c)])
      && (!r.created ==> r.db.events == db.events)
      && r.db.receipts == db.receipts && |r.db.convs| <= |db.convs| + 1
  {
    if Enqueue(db, m, now, debounce).value.created {
      assert Enqueue(db, m, now, debounce).value.db.events
          == db.events + [Event(m, EnsureConversation(db.accounts, db.convs, m).value.conv)];
    }
  }

  lemma OneMore(events: seq<Event>, event: Event)
    ensures CountInstagram(events + [event])
         == CountInstagram(events) + (if event.msg.channel.Instagram? then 1 else 0)
    ensures Mids(events + [event])
         == Mids(events) + (if event.msg.channel.Instagram? then {event.msg.mid} else {})
  {
    var more := events + [event];
    assert more[..|events|] == events;
    forall mid | mid in Mids(events)
      ensures mid in Mids(more)
    {
      var e :| 0 <= e < |events| && events[e].msg.channel.Instagram? && events[e].msg.mid == mid;
      assert more[e].msg.mid == mid;
    }
    assert event.msg.channel.Instagram? ==> more[|events|].msg.mid in Mids(more);
  }

  lemma EnqueueCounts(db: Db, m: Inbound, now: nat, debounce: nat)
    requires Enqueue(db, m, now, debounce).Some? && MidsDistinct(db.events)
    ensures var r := Enqueue(db, m, now, debounce).value;
      && MidsDistinct(r.db.events)
      && CountInstagram(r.db.events)
         == CountInstagram(db.events) + (if r.created && m.channel.Instagram? then 1 else 0)
      && Mids(r.db.events) == Mids(db.events) + (if m.channel.Instagram? then {m.mid} else {})
  {
    hide Enqueue;
    EnqueueEvents(db, m, now, debounce);
    var r := Enqueue(db, m, now, debounce).value;
    if r.created {
      var c: nat :| r.db.events == db.events + [Event(m, c)];
      OneMore(db.events, Event(m, c));
    } else {
      var e :| 0 <= e < |db.events| && db.events[e].msg.channel == m.channel && db.events[e].msg.mid == m.mid;
      assert m.channel.Instagram? ==> m.mid in Mids(db.events);
    }
  }

  /** The loop of the webhook counts every normalized event once, as accepted or as duplicate. */
  lemma {:induction false} EnqueueAllCounts(db: Db, msgs: seq<Inbound>, now: nat, debounce: nat)
    requires EnqueueAll(db, msgs, now, debounce).Some? && MidsDistinct(db.events)
    requires forall i :: 0 <= i < |msgs| ==> msgs[i].channel.Instagram?
    ensures var r := EnqueueAll(db, msgs, now, debounce).value;
      && r.accepted + r.duplicates == |msgs|
      && MidsDistinct(r.db.events)
      && CountInstagram(r.db.events) == CountInstagram(db.events) + r.accepted
      && Mids(r.db.events) == Mids(db.events) + MidsOf(msgs)
  {
    hide Enqueue, MidsDistinct, CountInstagram, Mids;
    if msgs != [] {
      var n := |msgs| - 1;
      EnqueueAllCounts(db, msgs[..n], now, debounce);
      EnqueueCounts(EnqueueAll(db, msgs[..n], now, debounce).value.db, msgs[n], now, debounce);
      MidsOfMore(msgs);
    }
  }

  /** A body seen before is only noted; any other one adds its messages and one receipt, which says how many events they
      made and how many of them were known. */
  ghost predicate PostOk(a: Db, b: Db, digest: string, msgs: seq<Inbound>, ignored: nat) {
    if exists i :: 0 <= i < |a.receipts| && a.receipts[i].digest == digest then
      b == a.(audit := a.audit + [WebhookEntry(digest, false)])
    else
      && a.events <= b.events && |b.events| - |a.events| <= |msgs|
      && b.receipts == a.receipts + [Receipt(digest, |b.events| - |a.events|, |msgs| - (|b.events| - |a.events|), ignored)]
      && |b.audit| > 0 && b.audit[|b.audit| - 1] == WebhookEntry(digest, true)
  }

  lemma {:induction false} EnqueueAllAdds(db: Db, msgs: seq<Inbound>, now: nat, debounce: nat)
    requires EnqueueAll(db, msgs, now, debounce).Some?
    ensures var r := EnqueueAll(db, msgs, now, debounce).value;
      && db.events <= r.db.events && |r.db.events| == |db.events| + r.accepted && r.accepted + r.duplicates == |msgs|
      && r.db.receipts == db.receipts
  {
    hide Enqueue;
    if msgs != [] {
      var n := |msgs| - 1;
      EnqueueAllAdds(db, msgs[..n], now, debounce);
      EnqueueEvents(EnqueueAll(db, msgs[..n], now, debounce).value.db, msgs[n], now, debounce);
    }
  }

  lemma PostsBody(db: Db, digest: string, msgs: seq<Inbound>, ignored: nat, now: nat, debounce: nat)
    ensures var r := Webhook(db, digest, msgs, ignored, now, debounce);
      r.Some? ==> PostOk(db, r.value, digest, msgs, ignored)
  {
    hide EnqueueAll;
    if EnqueueAll(db, msgs, now, debounce).Some? { EnqueueAllAdds(db, msgs, now, debounce); }
  }

  lemma MidsOfMore(msgs: seq<Inbound>)
    requires msgs != []
    ensures var n := |msgs| - 1; MidsOf(msgs) == MidsOf(msgs[..n]) + {msgs[n].mid}
  {
    var n := |msgs| - 1;
    forall mid | mid in MidsOf(msgs)
      ensures mid in MidsOf(msgs[..n]) + {msgs[n].mid}
    {
      var i :| 0 <= i < |msgs| && msgs[i].mid == mid;
      assert i < n ==> msgs[..n][i].mid == mid;
    }
    assert forall i :: 0 <= i < n ==> msgs[..n][i].mid == msgs[i].mid;
  }

  // --------------------------------------------------------------- invariant

  /** What a request body holds once it is normalized: its events, and how many items it had besides. */
  datatype Body = Body(msgs: seq<Inbound>, ignored: nat)

  ghost function BodyMids(receipts: seq<Receipt>, body: string -> Body): set<string> {
    if receipts == [] then {}
    else BodyMids(receipts[..|receipts| - 1], body) + MidsOf(body(receipts[|receipts| - 1].digest).msgs)
  }

  /** The digest of a request body determines what is normalized from it. */
  ghost predicate DigestsAgree(step: Step, body: string -> Body) {
    step.Post? ==> body(step.digest) == Body(step.msgs, step.ignored)
  }

  /** A receipt counts every item of its body: as accepted, as a duplicate, or as ignored. */
  predicate Covers(r: Receipt, b: Body) {
    r.accepted + r.duplicates == |b.msgs| && r.ignored == b.ignored
  }

  ghost predicate ReceiptsFit(receipts: seq<Receipt>, body: string -> Body) {
    && (forall i :: 0 <= i < |receipts| ==> Covers(receipts[i], body(receipts[i].digest)))
    && (forall i, k :: 0 <= i < k < |receipts| ==> receipts[i].digest != receipts[k].digest)
  }

  /** The Instagram events are exactly the messages of the bodies that have a receipt, each once, and every receipt
      counts all of its body. */
  ghost predicate IngressInv(db: Db, body: string -> Body) {
    && MidsDistinct(db.events)
    && Mids(db.events) == BodyMids(db.receipts, body)
    && CountInstagram(db.events) == AcceptedTotal(db.receipts)
    && ReceiptsFit(db.receipts, body)
  }

  lemma OneReceipt(receipts: seq<Receipt>, r: Receipt, body: string -> Body)
    ensures BodyMids(receipts + [r], body) == BodyMids(receipts, body) + MidsOf(body(r.digest).msgs)
    ensures AcceptedTotal(receipts + [r]) == AcceptedTotal(receipts) + r.accepted
  {
    hide MidsOf;
    assert (receipts + [r])[..|receipts|] == receipts;
  }

  lemma NewReceiptFits(receipts: seq<Receipt>, r: Receipt, body: string -> Body)
    requires ReceiptsFit(receipts, body) && !HasReceipt(receipts, r.digest) && Covers(r, body(r.digest))
    ensures ReceiptsFit(receipts + [r], body)
  {}

  lemma WebhookKeepsIngress(db: Db, digest: string, now: nat, debounce: nat, accounts: set<string>,
                            body: string -> Body)
    requires IngressInv(db, body)
    requires forall i :: 0 <= i < |body(digest).msgs| ==> FromInstagram(body(digest).msgs[i], accounts)
    ensures var b := body(digest);
      IngressInv(OrElse(Webhook(db, digest, b.msgs, b.ignored, now, debounce), db), body)
  {
    hide EnqueueAll, HasReceipt, MidsDistinct, Mids, MidsOf, CountInstagram, BodyMids, AcceptedTotal, ReceiptsFit,
      FromInstagram;
    var b := body(digest);
    if !HasReceipt(db.receipts, digest) && EnqueueAll(db, b.msgs, now, debounce).Some? {
      AllInstagram(b.msgs, accounts);
      EnqueueAllCounts(db, b.msgs, now, debounce);
      var r := EnqueueAll(db, b.msgs, now, debounce).value;
      var receipt := Receipt(digest, r.accepted, r.duplicates, b.ignored);
      OneReceipt(db.receipts, receipt, body);
      NewReceiptFits(db.receipts, receipt, body);
    }
  }

  lemma AllInstagram(msgs: seq<Inbound>, accounts: set<string>)
    requires forall i :: 0 <= i < |msgs| ==> FromInstagram(msgs[i], accounts)
    ensures forall i :: 0 <= i < |msgs| ==> msgs[i].channel.Instagram?
  {
    forall i | 0 <= i < |msgs|
      ensures msgs[i].channel.Instagram?
    {
      assert FromInstagram(msgs[i], accounts);
    }
  }

  /** A local message is no Instagram event. */
  lemma LocalKeepsIngress(db: Db, m: Inbound, now: nat, debounce: nat, body: string -> Body)
    requires IngressInv(db, body) && m.channel.Local? && Enqueue(db, m, now, debounce).Some?
    ensures IngressInv(Enqueue(db, m, now, debounce).value.db, body)
  {
    hide Enqueue, MidsDistinct, Mids, CountInstagram;
    EnqueueCounts(db, m, now, debounce);
    EnqueueEvents(db, m, now, debounce);
  }

  /** Only an enqueueing touches events, receipts or accounts. */
  ghost predicate SameInputs(before: Db, after: Db) {
    after.events == before.events && after.receipts == before.receipts && after.accounts == before.accounts
  }

  /** Nor does an operator touch the timeline. */
  ghost predicate Quiet(before: Db, after: Db) {
    SameInputs(before, after) && after.messages == before.messages
  }

  lemma ActInputs(s: Sys, w: nat, a: Act)
    requires Aligned(s.db) && CanAct(s, w, a)
    ensures SameInputs(s.db, DbAfter(s, w, a))
  {
    hide CommitDecision, Suppress, FinishSent, FinishError, LogJobs, PolicyOutcome, Claim, Fail, Complete, Supersede,
      Aligned, IsOldest, IsNewest, IsNext, IsFirstAction;
  }

  lemma JobInputs(db: Db, j: nat, now: nat)
    requires Aligned(db)
    ensures Quiet(db, OrElse(Retry(db, j, now), db)) && Quiet(db, OrElse(Dismiss(db, j), db))
  {
    hide Retry, Dismiss;
  }

  lemma ReviewInputs(db: Db, op: Operation)
    requires Aligned(db) && CanOperate(op) && (op.Edit? || op.Transition?)
    ensures Quiet(db, Operated(db, op))
  {
    hide EditReview, TransitionReview, Aligned;
    if op.Edit? {
      assert EditReview(db, op.review, op.text).Edited? || Operated(db, op) == db;
    } else {
      assert TransitionReview(db, op.review, op.target).Moved? || Operated(db, op) == db;
    }
  }

  lemma ConvInputs(db: Db, op: Operation)
    requires Aligned(db) && CanOperate(op) && !op.RetryJob? && !op.DismissJob? && !op.Edit? && !op.Transition?
    ensures Quiet(db, Operated(db, op))
  {
    hide CreateHumanReply, SetBotPaused, SetConversationStatus, Aligned;
  }

  lemma OperateInputs(db: Db, op: Operation)
    requires Aligned(db) && CanOperate(op)
    ensures Quiet(db, Operated(db, op))
  {
    hide Retry, Dismiss, Quiet, Aligned, CreateHumanReply, SetBotPaused, SetConversationStatus, EditReview,
      TransitionReview;
    match op
    case RetryJob(j, now) => JobInputs(db, j, now);
    case DismissJob(j) => JobInputs(db, j, 0);
    case Edit(_, _) => ReviewInputs(db, op);
    case Transition(_, _) => ReviewInputs(db, op);
    case _ => ConvInputs(db, op);
  }

  lemma SameEvents(s: Sys, step: Step)
    requires Enabled(s, step) && !step.Ingest? && !step.Post?
    ensures SameInputs(s.db, Next(s, step).db)
  {
    hide Aligned, CanAct, DbAfter, PcAfter, Operated, RecoverDeliveries, RecoverStale;
    match step
    case Work(w, a) => ActInputs(s, w, a);
    case Operate(op) => OperateInputs(s.db, op);
    case _ =>
  }

  lemma StepKeepsIngress(s: Sys, step: Step, body: string -> Body)
    requires Inv(s) && IngressInv(s.db, body) && Enabled(s, step) && DigestsAgree(step, body)
    ensures IngressInv(Next(s, step).db, body)
  {
    hide Inv, IngressInv, Enqueue, Webhook, FromInstagram;
    match step
    case Ingest(m, now, debounce) =>
      if Enqueue(s.db, m, now, debounce).Some? { LocalKeepsIngress(s.db, m, now, debounce, body); }
    case Post(digest, msgs, ignored, now, debounce) =>
      WebhookKeepsIngress(s.db, digest, now, debounce, s.cfg.accounts, body);
    case _ =>
      SameEvents(s, step);
      SameIngress(s.db, Next(s, step).db, body);
  }

  lemma SameIngress(before: Db, after: Db, body: string -> Body)
    requires IngressInv(before, body) && after.events == before.events && after.receipts == before.receipts
    ensures IngressInv(after, body)
  {}

  lemma EmptyIngress(s: Sys, body: string -> Body)
    requires Initial(s)
    ensures IngressInv(s.db, body)
  {
    assert Mids([]) == {};
  }

  /** Webhook replay is idempotent and conserved: in every run whose digests determine their bodies, the Instagram
      events are exactly the distinct messages of the bodies received, each once; accepted counts add up to the number
      of Instagram events; and each receipt accounts for its whole body, ignored items included. */
  lemma {:induction false} ReplayIsConserved(ss: seq<Sys>, steps: seq<Step>, i: nat, body: string -> Body)
    requires IsRun(ss, steps) && i < |ss|
    requires forall k :: 0 <= k < |steps| ==> DigestsAgree(steps[k], body)
    ensures IngressInv(ss[i].db, body)
  {
    hide Inv, Next, Enabled, IngressInv, DigestsAgree;
    if i == 0 {
      assert IngressInv(ss[0].db, body) by { EmptyIngress(ss[0], body); }
    } else {
      ReplayIsConserved(ss, steps, i - 1, body);
      RunsAreSafe(ss, steps, i - 1);
      assert Enabled(ss[i - 1], steps[i - 1]) && ss[i - 1 + 1] == Next(ss[i - 1], steps[i - 1]);
      StepKeepsIngress(ss[i - 1], steps[i - 1], body);
    }
  }

  // ------------------------------------------------------ no constraint fails

  /** A conversation's key is made of its account's id and its customer, both as they stand now. */
  ghost predicate ConvsKeyed(convs: seq<Conversation>, rows: seq<Account>) {
    forall c :: 0 <= c < |convs| && convs[c].channel.Instagram? && convs[c].account < |rows| ==>
      convs[c].key == KeyOf(rows[convs[c].account].external, convs[c].customer)
  }

  ghost predicate KeyInv(db: Db, accounts: set<string>) {
    AccountsKnown(db.accounts, accounts) && ConvsKeyed(db.convs, db.accounts)
  }

  /** Which account row a message is taken to be for. */
  lemma OwnAccount(db: Db, m: Inbound, accounts: set<string>)
    requires AccountsKnown(db.accounts, accounts) && UniqueIds(accounts) && FromInstagram(m, accounts)
    ensures var known := FindAccount(db.accounts, m.channel, Strip(m.recipient));
      known.Some? ==> db.accounts[known.value].external == m.recipient
  {}

  lemma EnqueueKeys(db: Db, m: Inbound, now: nat, debounce: nat, accounts: set<string>)
    requires Convs(db) && KeyInv(db, accounts) && UniqueIds(accounts) && Keyed(m)
    requires m.channel.Instagram? ==> FromInstagram(m, accounts)
    requires Enqueue(db, m, now, debounce).Some?
    ensures KeyInv(Enqueue(db, m, now, debounce).value.db, accounts)
  {
    hide Postpone, Clashes, Keyed, Fold, Strip;
    if FindEvent(db.events, m.channel, m.mid).None? {
      var r := EnsureConversation(db.accounts, db.convs, m).value;
      assert forall a :: 0 <= a < |db.accounts| ==> r.accounts[a] == db.accounts[a];
      if m.channel.Instagram? { OwnAccount(db, m, accounts); }
    }
  }

  /** No other conversation can already have this account and customer, so the unique index never objects. */
  lemma EnqueueSucceeds(db: Db, m: Inbound, now: nat, debounce: nat, accounts: set<string>)
    requires Convs(db) && KeyInv(db, accounts) && UniqueIds(accounts) && FromInstagram(m, accounts)
    ensures Enqueue(db, m, now, debounce).Some?
  {
    hide Fold, Strip, FindAccount, FindConversation, Postpone, AccountsKnown, Keyed;
    OwnAccount(db, m, accounts);
    var known := FindAccount(db.accounts, m.channel, Strip(m.recipient));
    var account := if known.Some? then known.value else |db.accounts|;
    assert forall i ::
      0 <= i < |db.convs| && db.convs[i].channel == m.channel && db.convs[i].account == account
      && db.convs[i].customer == m.sender
      ==> db.convs[i].key == m.key;
  }

  lemma {:induction false} EnqueueAllSucceeds(db: Db, msgs: seq<Inbound>, now: nat, debounce: nat, accounts: set<string>)
    requires Convs(db) && KeyInv(db, accounts) && UniqueIds(accounts)
    requires forall i :: 0 <= i < |msgs| ==> FromInstagram(msgs[i], accounts)
    ensures EnqueueAll(db, msgs, now, debounce).Some?
    ensures KeyInv(EnqueueAll(db, msgs, now, debounce).value.db, accounts)
  {
    hide Convs, KeyInv, Enqueue, FromInstagram, Keyed, UniqueIds;
    if msgs != [] {
      var n := |msgs| - 1;
      EnqueueAllSucceeds(db, msgs[..n], now, debounce, accounts);
      AllKeyed(msgs, accounts);
      EnqueueAllConvs(db, msgs[..n], now, debounce);
      var mid := EnqueueAll(db, msgs[..n], now, debounce).value.db;
      EnqueueSucceeds(mid, msgs[n], now, debounce, accounts);
      EnqueueKeys(mid, msgs[n], now, debounce, accounts);
    }
  }

  lemma SameConvsStep(s: Sys, step: Step)
    requires Convs(s.db) && Enabled(s, step) && !step.Ingest? && !step.Post?
    ensures SameConvs(s.db.convs, Next(s, step).db.convs) && Next(s, step).db.accounts == s.db.accounts
  {
    hide ConvInv, CommitDecision, Suppress, FinishSent, FinishError, LogJobs, PermissionReason, PolicyOutcome, PcAfter,
      Claim, Fail, Complete, Supersede, CreateHumanReply, EditReview, TransitionReview, Retry, Dismiss, SetBotPaused,
      SetConversationStatus, RecoverAll, RecoverStale;
    match step
    case RecoverSends(now) => RecoverAllConvs(s.db, ExpiredDeliveries(s.db.deliveries, now, |s.db.deliveries|));
    case Work(w, a) => ActSameConvs(s, w, a);
    case Operate(op) =>
      if op.Reply? && CreateHumanReply(s.db, op.conv, op.text, op.now).Some? {
        ReplyConvs(s.db, op.conv, op.text, op.now);
      } else if op.Transition? && TransitionReview(s.db, op.review, op.target).Moved? {
        TransitionConvs(s.db, op.review, op.target);
      } else if op.SetPaused? {
        PauseConvs(s.db, op.conv, op.paused);
      } else if op.SetConvStatus? {
        StatusConvs(s.db, op.conv, op.status);
      }
    case _ =>
  }

  lemma ActSameConvs(s: Sys, w: nat, a: Act)
    requires Aligned(s.db) && CanAct(s, w, a)
    ensures SameConvs(s.db.convs, DbAfter(s, w, a).convs) && DbAfter(s, w, a).accounts == s.db.accounts
  {
    hide CommitDecision, Suppress, FinishSent, FinishError, LogJobs, PermissionReason, PolicyOutcome;
    var p, db := s.workers[w], s.db;
    match a
    case CommitAnswer(f, now) =>
      var outcome := PolicyOutcome(db, p, f);
      if CommitDecision(db, s.cfg, p.job, p.stage.decision, outcome, p.stage.mode, now).Some? {
        CommitConvs(db, s.cfg, p.job, p.stage.decision, outcome, p.stage.mode, now);
      }
    case Withhold => if Suppress(db, p.delivery).Some? { SuppressConvs(db, p.delivery); }
    case RecordSent => if FinishSent(db, p.delivery, p.attempt).Some? { SentConvs(db, p.delivery, p.attempt); }
    case RecordError =>
      if FinishError(db, p.delivery, p.attempt, p.leg.ambiguous).Some? {
        ErrorConvs(db, p.delivery, p.attempt, p.leg.ambiguous);
      }
    case _ =>
  }

  /** For account ids that are unique up to case, which the configuration guarantees, the webhook's transaction never
      fails: in every run, every post commits, and its messages are events afterwards. */
  lemma {:induction false} PostsCommit(ss: seq<Sys>, steps: seq<Step>, i: nat)
    requires IsRun(ss, steps) && UniqueIds(ss[0].cfg.accounts) && i < |ss|
    ensures ss[i].cfg == ss[0].cfg && KeyInv(ss[i].db, ss[i].cfg.accounts)
    ensures i < |steps| && steps[i].Post? ==>
      var p := steps[i]; Webhook(ss[i].db, p.digest, p.msgs, p.ignored, p.now, p.debounce).Some?
  {
    hide JobRows, LinkInv, DraftInv, AnswerInv, DoneInv, AuditInv, PcInv, Protocol, KeyInv, UniqueIds,
      Next, CallsAsWritten, ConvInv, FromInstagram;
    if i == 0 {
      assert KeyInv(ss[0].db, ss[0].cfg.accounts) by { EmptyKeyed(ss[0]); }
    } else {
      PostsCommit(ss, steps, i - 1);
      RunsAreSafe(ss, steps, i - 1);
      assert Enabled(ss[i - 1], steps[i - 1]) && ss[i - 1 + 1] == Next(ss[i - 1], steps[i - 1]);
      StepKeyed(ss[i - 1], steps[i - 1]);
      SameConfig(ss[i - 1], steps[i - 1]);
    }
    if i < |steps| && steps[i].Post? {
      RunsAreSafe(ss, steps, i);
      assert Enabled(ss[i], steps[i]);
      EnqueueAllSucceeds(ss[i].db, steps[i].msgs, steps[i].now, steps[i].debounce, ss[i].cfg.accounts);
    }
  }

  lemma EmptyKeyed(s: Sys)
    requires Initial(s)
    ensures KeyInv(s.db, s.cfg.accounts)
  {}

  lemma PostKeyed(db: Db, digest: string, msgs: seq<Inbound>, ignored: nat, now: nat, debounce: nat,
                  accounts: set<string>)
    requires Convs(db) && KeyInv(db, accounts) && UniqueIds(accounts)
    requires forall i :: 0 <= i < |msgs| ==> FromInstagram(msgs[i], accounts)
    ensures KeyInv(OrElse(Webhook(db, digest, msgs, ignored, now, debounce), db), accounts)
  {
    hide ConvInv, AccountsKnown, ConvsKeyed, EnqueueAll, FromInstagram, UniqueIds, HasReceipt;
    EnqueueAllSucceeds(db, msgs, now, debounce, accounts);
  }

  lemma SameIdentityKeyed(before: Db, after: Db, accounts: set<string>)
    requires KeyInv(before, accounts) && SameConvs(before.convs, after.convs) && after.accounts == before.accounts
    ensures KeyInv(after, accounts)
  {}

  lemma StepKeyed(s: Sys, step: Step)
    requires Inv(s) && KeyInv(s.db, s.cfg.accounts) && UniqueIds(s.cfg.accounts) && Enabled(s, step)
    ensures KeyInv(Next(s, step).db, s.cfg.accounts)
  {
    hide JobRows, LinkInv, DraftInv, AnswerInv, DoneInv, AuditInv, PcInv, Protocol, KeyInv, UniqueIds,
      CallsAsWritten, ConvInv, FromInstagram, Enqueue, Webhook, CanAct, Acted, Operated, RecoverStale,
      RecoverDeliveries;
    match step
    case Ingest(m, now, debounce) =>
      if Enqueue(s.db, m, now, debounce).Some? { EnqueueKeys(s.db, m, now, debounce, s.cfg.accounts); }
    case Post(digest, msgs, ignored, now, debounce) =>
      PostKeyed(s.db, digest, msgs, ignored, now, debounce, s.cfg.accounts);
    case _ =>
      SameConvsStep(s, step);
      SameIdentityKeyed(s.db, Next(s, step).db, s.cfg.accounts);
  }
}
