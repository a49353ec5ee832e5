/** The timeline operators read is exactly what was received, in order, and what was sent, as it was sent. */
module Timeline {
  import opened Types
  import opened WorkspaceModel
  import opened QueueModel
  import opened DeliveryModel
  import opened WorkerModel
  import opened System
  import opened QueueInvariant
  import opened LinkInvariant
  import opened AnswerInvariant
  import opened AuditInvariant
  import opened Safety
  import opened Ingress

  /** The inbound part of the timeline. */
  function Received(messages: seq<Message>): seq<Message> {
    if messages == [] then []
    else
      Received(messages[..|messages| - 1])
      + (if messages[|messages| - 1].source.FromEvent? then [messages[|messages| - 1]] else [])
  }

  /** What the events say should have been received. */
  function Expected(events: seq<Event>): (r: seq<Message>)
    ensures |r| == |events|
  {
    seq(|events|, e requires 0 <= e < |events| => Message(events[e].conv, FromEvent(e), events[e].msg.body))
  }

  /** An outbound message says what its delivery says, in the same conversation. */
  ghost predicate SentAsWritten(messages: seq<Message>, deliveries: seq<Delivery>) {
    forall i :: 0 <= i < |messages| && messages[i].source.FromDelivery? ==>
      && messages[i].source.delivery < |deliveries|
      && messages[i].conv == deliveries[messages[i].source.delivery].intent.conv
      && messages[i].text == deliveries[messages[i].source.delivery].intent.text
  }

  ghost predicate TimelineInv(db: Db) {
    Received(db.messages) == Expected(db.events) && SentAsWritten(db.messages, db.deliveries)
  }

  lemma ReceivedMore(messages: seq<Message>, m: Message)
    ensures Received(messages + [m]) == Received(messages) + (if m.source.FromEvent? then [m] else [])
  {
    assert (messages + [m])[..|messages|] == messages;
  }

  lemma ArrivalKeeps(db: Db, m: Inbound, now: nat, debounce: nat)
    requires TimelineInv(db) && Enqueue(db, m, now, debounce).Some?
    ensures TimelineInv(Enqueue(db, m, now, debounce).value.db)
  {
    hide EnsureConversation, FindEvent, Postpone, Received, Expected;
    if FindEvent(db.events, m.channel, m.mid).None? {
      var conv := EnsureConversation(db.accounts, db.convs, m).value.conv;
      ReceivedMore(db.messages, Message(conv, FromEvent(|db.events|), m.body));
      ExpectedMore(db.events, Event(m, conv));
    }
  }

  lemma ExpectedMore(events: seq<Event>, e: Event)
    ensures Expected(events + [e]) == Expected(events) + [Message(e.conv, FromEvent(|events|), e.msg.body)]
  {}

  lemma {:induction false} ArrivalsKeep(db: Db, msgs: seq<Inbound>, now: nat, debounce: nat)
    requires TimelineInv(db) && EnqueueAll(db, msgs, now, debounce).Some?
    ensures TimelineInv(EnqueueAll(db, msgs, now, debounce).value.db)
  {
    hide TimelineInv, Enqueue;
    if msgs != [] {
      var n := |msgs| - 1;
      ArrivalsKeep(db, msgs[..n], now, debounce);
      ArrivalKeeps(EnqueueAll(db, msgs[..n], now, debounce).value.db, msgs[n], now, debounce);
    }
  }

  lemma PostKeeps(db: Db, digest: string, msgs: seq<Inbound>, ignored: nat, now: nat, debounce: nat)
    requires TimelineInv(db)
    ensures TimelineInv(OrElse(Webhook(db, digest, msgs, ignored, now, debounce), db))
  {
    hide EnqueueAll, Received, Expected;
    if !HasReceipt(db.receipts, digest) && EnqueueAll(db, msgs, now, debounce).Some? {
      ArrivalsKeep(db, msgs, now, debounce);
    }
  }

  lemma SentKeeps(db: Db, d: nat, n: nat)
    requires TimelineInv(db) && d < |db.deliveries| && FinishSent(db, d, n).Some?
    ensures TimelineInv(FinishSent(db, d, n).value)
  {
    hide Received, Expected, HasOutbound;
    var t := db.deliveries[d].intent;
    ReceivedMore(db.messages, Message(t.conv, FromDelivery(d), t.text));
  }

  /** Whatever adds no message and changes no event keeps the timeline, since deliveries keep what they say. */
  lemma QuietKeeps(before: Db, after: Db)
    requires TimelineInv(before) && Grows(before, after)
    requires after.events == before.events && after.messages == before.messages
    ensures TimelineInv(after)
  {
    hide Received, Expected;
  }

  lemma QuietAct(s: Sys, w: nat, a: Act)
    requires Aligned(s.db) && CanAct(s, w, a) && !a.RecordSent?
    ensures DbAfter(s, w, a).events == s.db.events && DbAfter(s, w, a).messages == s.db.messages
  {
    hide CommitDecision, Suppress, FinishSent, FinishError, LogJobs, PolicyOutcome, Claim, Fail, Complete, Supersede,
      IsOldest, IsNewest, IsNext, IsFirstAction;
  }

  lemma StepKeepsTimeline(s: Sys, step: Step)
    requires Inv(s) && TimelineInv(s.db) && Enabled(s, step)
    ensures TimelineInv(Next(s, step).db)
  {
    hide Inv, TimelineInv, CanAct, DbAfter, PcAfter, Operated, Enqueue, Webhook, RecoverStale, RecoverDeliveries,
      FromInstagram;
    StepKeepsInv(s, step);
    match step
    case Ingest(m, now, debounce) =>
      if Enqueue(s.db, m, now, debounce).Some? { ArrivalKeeps(s.db, m, now, debounce); }
    case Post(digest, msgs, ignored, now, debounce) => PostKeeps(s.db, digest, msgs, ignored, now, debounce);
    case Work(w, a) =>
      if a.RecordSent? {
        RecordKeeps(s, w);
      } else {
        QuietAct(s, w, a);
        QuietKeeps(s.db, Next(s, step).db);
      }
    case Operate(op) =>
      OperateInputs(s.db, op);
      QuietKeeps(s.db, Next(s, step).db);
    case _ => QuietKeeps(s.db, Next(s, step).db);
  }

  lemma RecordKeeps(s: Sys, w: nat)
    requires TimelineInv(s.db) && Aligned(s.db) && CanAct(s, w, RecordSent)
    ensures TimelineInv(DbAfter(s, w, RecordSent))
  {
    hide TimelineInv, FinishSent;
    var p := s.workers[w];
    if FinishSent(s.db, p.delivery, p.attempt).Some? { SentKeeps(s.db, p.delivery, p.attempt); }
  }

  /** In every reachable state the inbound part of the timeline is the list of accepted events, each once, in order,
      with its own text and conversation; and every outbound message repeats its delivery. */
  lemma {:induction false} TimelineIsComplete(ss: seq<Sys>, steps: seq<Step>, i: nat)
    requires IsRun(ss, steps) && i < |ss|
    ensures Received(ss[i].db.messages) == Expected(ss[i].db.events)
    ensures SentAsWritten(ss[i].db.messages, ss[i].db.deliveries)
  {
    hide Inv, Next, Enabled;
    if i > 0 {
      TimelineIsComplete(ss, steps, i - 1);
      RunsAreSafe(ss, steps, i - 1);
      assert Enabled(ss[i - 1], steps[i - 1]) && ss[i - 1 + 1] == Next(ss[i - 1], steps[i - 1]);
      StepKeepsTimeline(ss[i - 1], steps[i - 1]);
    }
  }
}
