/** The send protocol: each delivery is sent at most once, and its status never lies about the remote service.

    This part of the state is the deliveries, their attempt rows, the timeline, the calls made, what the remote
    service took, and who is holding what.  Nothing here assumes that leases are respected. */
module ProtocolInvariant {
  import opened Types
  import opened DeliveryModel
  import opened System

  datatype Protocol = Protocol(rows: seq<Delivery>, attempts: map<(nat, nat), AttemptResult>, messages: seq<Message>,
                               sends: seq<SendCall>, accepted: set<nat>, workers: seq<Pc>)

  ghost function ProtocolOf(s: Sys): Protocol {
    Protocol(s.db.deliveries, s.db.attempts, s.db.messages, s.sends, s.accepted, s.workers)
  }

  ghost predicate Called(sends: seq<SendCall>, d: nat) {
    exists i :: 0 <= i < |sends| && sends[i].delivery == d
  }

  function Recorded(attempts: map<(nat, nat), AttemptResult>, d: nat): Option<AttemptResult> {
    if (d, 1) in attempts then Some(attempts[(d, 1)]) else None
  }

  /** What a status says about the attempt row, about `send_text` having been called and about the remote side. */
  predicate StatusTrue(row: Delivery, recorded: Option<AttemptResult>, called: bool, taken: bool) {
    && (taken ==> called)
    && row.attempts == (if row.status.Waiting? then 0 else 1)
    && (row.status.Sending? <==> row.lease.Some?) && (row.status.Sending? <==> row.worker.Some?)
    && match row.status
       case Waiting => !called && recorded.None?
       case Sending => recorded.None?
       case Sent => taken && recorded == Some(WasSent)
       case Failed => !taken && recorded == Some(WasRejected)
       case Unknown => recorded == Some(WasUnknown)
       case Withheld => !called && (recorded.None? || recorded == Some(WasUnknown))
  }

  /** What a worker in the middle of a delivery may rely on. */
  predicate LegTrue(leg: Leg, called: bool, taken: bool) {
    match leg
    case Reloading => !called
    case Holding => !called
    case Denied(_) => !called
    case Cleared => !called
    case Confirmed => taken
    case Errored(ambiguous) => called && (!ambiguous ==> !taken)
  }

  ghost predicate HeldTrue(p: Protocol, pc: Pc) {
    pc.OnDelivery? ==>
      && pc.delivery < |p.rows| && pc.attempt == 1
      && (p.rows[pc.delivery].status.Sending? || p.rows[pc.delivery].status.Unknown?)
      && LegTrue(pc.leg, Called(p.sends, pc.delivery), pc.delivery in p.accepted)
  }

  ghost predicate RowsTrue(p: Protocol) {
    && (forall d :: 0 <= d < |p.rows| ==>
          StatusTrue(p.rows[d], Recorded(p.attempts, d), Called(p.sends, d), d in p.accepted))
    && (forall k :: k in p.attempts ==> k.0 < |p.rows| && k.1 == 1)
  }

  ghost predicate HoldersTrue(p: Protocol) {
    && (forall w :: 0 <= w < |p.workers| ==> HeldTrue(p, p.workers[w]))
    && (forall v, w :: 0 <= v < w < |p.workers| && p.workers[v].OnDelivery? && p.workers[w].OnDelivery?
                       ==> p.workers[v].delivery != p.workers[w].delivery)
  }

  ghost predicate TimelineTrue(rows: seq<Delivery>, messages: seq<Message>) {
    && (forall i :: 0 <= i < |messages| && messages[i].source.FromDelivery? ==>
          messages[i].source.delivery < |rows| && rows[messages[i].source.delivery].status.Sent?)
    && (forall d :: 0 <= d < |rows| && rows[d].status.Sent? ==> HasOutbound(messages, d))
    && (forall i, k :: 0 <= i < k < |messages| && messages[i].source.FromDelivery? ==>
          messages[i].source != messages[k].source)
  }

  ghost predicate CallsTrue(p: Protocol) {
    && (forall i :: 0 <= i < |p.sends| ==> p.sends[i].delivery < |p.rows|)
    && (forall i, k :: 0 <= i < k < |p.sends| ==> p.sends[i].delivery != p.sends[k].delivery)
    && (forall d :: d in p.accepted ==> d < |p.rows|)
  }

  ghost predicate ProtocolInv(p: Protocol) {
    RowsTrue(p) && HoldersTrue(p) && TimelineTrue(p.rows, p.messages) && CallsTrue(p)
  }

  // -------------------------------------------------------------- row writes

  /** Writing one delivery row and its attempt, with the holders set to `workers`. */
  lemma RowWriteKeeps(p: Protocol, q: Protocol, d: nat)
    requires RowsTrue(p) && d < |p.rows|
    requires |q.rows| == |p.rows| && q.sends == p.sends && q.accepted == p.accepted
    requires forall i :: 0 <= i < |p.rows| && i != d ==> q.rows[i] == p.rows[i]
    requires forall k :: k in q.attempts ==> k in p.attempts || k == (d, 1)
    requires forall k :: k in p.attempts && k != (d, 1) ==> k in q.attempts && q.attempts[k] == p.attempts[k]
    requires StatusTrue(q.rows[d], Recorded(q.attempts, d), Called(p.sends, d), d in p.accepted)
    ensures RowsTrue(q)
  {
    forall i | 0 <= i < |q.rows|
      ensures StatusTrue(q.rows[i], Recorded(q.attempts, i), Called(q.sends, i), i in q.accepted)
    {
      if i != d {
        assert (i, 1) != (d, 1);
        assert Recorded(q.attempts, i) == Recorded(p.attempts, i);
      }
    }
  }

  /** A worker other than the holder sees nothing of a write to a row it does not hold. */
  lemma HoldersKeep(p: Protocol, q: Protocol, w: nat)
    requires HoldersTrue(p) && w < |p.workers| && q.sends == p.sends && q.accepted == p.accepted
    requires |q.workers| == |p.workers| && forall v :: 0 <= v < |p.workers| && v != w ==> q.workers[v] == p.workers[v]
    requires |q.rows| >= |p.rows|
    requires forall v :: 0 <= v < |p.workers| && v != w && p.workers[v].OnDelivery? ==>
      q.rows[p.workers[v].delivery] == p.rows[p.workers[v].delivery]
    requires HeldTrue(q, q.workers[w])
    requires forall v :: 0 <= v < |p.workers| && v != w && p.workers[v].OnDelivery? && q.workers[w].OnDelivery? ==>
      p.workers[v].delivery != q.workers[w].delivery
    ensures HoldersTrue(q)
  {
    forall v | 0 <= v < |q.workers|
      ensures HeldTrue(q, q.workers[v])
    {
      if v != w {
        assert HeldTrue(p, p.workers[v]);
      }
    }
  }

  /** A row that is not, and does not become, sent leaves the timeline true. */
  lemma TimelineKeeps(rows: seq<Delivery>, messages: seq<Message>, d: nat, row: Delivery)
    requires TimelineTrue(rows, messages) && d < |rows| && !rows[d].status.Sent? && !row.status.Sent?
    ensures TimelineTrue(rows[d := row], messages)
  {}

  // ------------------------------------------------------------------- steps

  lemma ClaimKeeps(s: Sys, w: nat, next: nat, now: nat, until: nat)
    requires ProtocolInv(ProtocolOf(s)) && w < |s.workers| && s.workers[w].Idle? && IsNext(s.db.deliveries, now, next)
    ensures ProtocolInv(ProtocolOf(s.(db := ClaimDelivery(s.db, next, until, w),
                                      workers := s.workers[w := OnDelivery(next, s.db.deliveries[next].attempts + 1, Reloading)])))
  {
    var db := ClaimDelivery(s.db, next, until, w);
    var p := ProtocolOf(s);
    var q := p.(rows := db.deliveries,
                workers := s.workers[w := OnDelivery(next, s.db.deliveries[next].attempts + 1, Reloading)]);
    assert StatusTrue(p.rows[next], Recorded(p.attempts, next), Called(p.sends, next), next in p.accepted);
    RowWriteKeeps(p, q, next);
    forall v | 0 <= v < |p.workers| && v != w && p.workers[v].OnDelivery?
      ensures p.workers[v].delivery != next
    {
      assert HeldTrue(p, p.workers[v]);
    }
    HoldersKeep(p, q, w);
    TimelineKeeps(p.rows, p.messages, next, db.deliveries[next]);
  }

  /** The holder settles its delivery with a status that the attempt row confirms, and lets go. */
  lemma SettleKeeps(p: Protocol, q: Protocol, w: nat, d: nat)
    requires ProtocolInv(p) && w < |p.workers| && p.workers[w].OnDelivery? && p.workers[w].delivery == d < |p.rows|
    requires |q.rows| == |p.rows| && q.rows == p.rows[d := q.rows[d]] && q.workers == p.workers[w := Idle]
    requires q.sends == p.sends && q.accepted == p.accepted
    requires forall k :: k in q.attempts ==> k in p.attempts || k == (d, 1)
    requires forall k :: k in p.attempts && k != (d, 1) ==> k in q.attempts && q.attempts[k] == p.attempts[k]
    requires StatusTrue(q.rows[d], Recorded(q.attempts, d), Called(p.sends, d), d in p.accepted)
    requires TimelineTrue(q.rows, q.messages)
    ensures ProtocolInv(q)
  {
    RowWriteKeeps(p, q, d);
    HoldersKeep(p, q, w);
  }

  /** A step of worker `w` that writes no table of the protocol: it moves on, or lets go. */
  lemma MoveKeeps(p: Protocol, w: nat, pc: Pc)
    requires ProtocolInv(p) && w < |p.workers| && HeldTrue(p, pc)
    requires pc.OnDelivery? ==> p.workers[w].OnDelivery? && p.workers[w].delivery == pc.delivery
    ensures ProtocolInv(p.(workers := p.workers[w := pc]))
  {
    var q := p.(workers := p.workers[w := pc]);
    HoldersKeep(p, q, w);
    assert RowsTrue(q);
  }

  lemma SuppressKeeps(s: Sys, w: nat)
    requires ProtocolInv(ProtocolOf(s)) && w < |s.workers|
    requires s.workers[w].OnDelivery? && s.workers[w].leg.Denied? && s.workers[w].delivery < |s.db.deliveries|
    requires Suppress(s.db, s.workers[w].delivery).Some?
    ensures ProtocolInv(ProtocolOf(s.(db := Suppress(s.db, s.workers[w].delivery).value,
                                      workers := s.workers[w := Idle])))
  {
    var d := s.workers[w].delivery;
    var p := ProtocolOf(s);
    assert HeldTrue(p, p.workers[w]);
    assert StatusTrue(p.rows[d], Recorded(p.attempts, d), Called(p.sends, d), d in p.accepted);
    var row := Settled(p.rows[d], Withheld);
    var q := p.(rows := p.rows[d := row], workers := s.workers[w := Idle]);
    TimelineKeeps(p.rows, p.messages, d, row);
    SettleKeeps(p, q, w, d);
  }

  lemma FinishErrorKeeps(s: Sys, w: nat)
    requires ProtocolInv(ProtocolOf(s)) && w < |s.workers|
    requires s.workers[w].OnDelivery? && s.workers[w].leg.Errored? && s.workers[w].delivery < |s.db.deliveries|
    requires FinishError(s.db, s.workers[w].delivery, s.workers[w].attempt, s.workers[w].leg.ambiguous).Some?
    ensures ProtocolInv(ProtocolOf(s.(
      db := FinishError(s.db, s.workers[w].delivery, s.workers[w].attempt, s.workers[w].leg.ambiguous).value,
      workers := s.workers[w := Idle])))
  {
    var d := s.workers[w].delivery;
    var ambiguous := s.workers[w].leg.ambiguous;
    var p := ProtocolOf(s);
    assert HeldTrue(p, p.workers[w]);
    assert StatusTrue(p.rows[d], Recorded(p.attempts, d), Called(p.sends, d), d in p.accepted);
    var row := Settled(p.rows[d], if ambiguous then Unknown else Failed);
    var attempts := p.attempts[(d, 1) := if ambiguous then WasUnknown else WasRejected];
    var q := p.(rows := p.rows[d := row], attempts := attempts, workers := s.workers[w := Idle]);
    TimelineKeeps(p.rows, p.messages, d, row);
    SettleKeeps(p, q, w, d);
  }

  lemma FinishSentKeeps(s: Sys, w: nat)
    requires ProtocolInv(ProtocolOf(s)) && w < |s.workers|
    requires s.workers[w].OnDelivery? && s.workers[w].leg.Confirmed? && s.workers[w].delivery < |s.db.deliveries|
    requires FinishSent(s.db, s.workers[w].delivery, s.workers[w].attempt).Some?
    ensures ProtocolInv(ProtocolOf(s.(db := FinishSent(s.db, s.workers[w].delivery, s.workers[w].attempt).value,
                                      workers := s.workers[w := Idle])))
  {
    var d := s.workers[w].delivery;
    var p := ProtocolOf(s);
    assert HeldTrue(p, p.workers[w]);
    assert StatusTrue(p.rows[d], Recorded(p.attempts, d), Called(p.sends, d), d in p.accepted);
    var row := Settled(p.rows[d], Sent);
    var m := Message(row.intent.conv, FromDelivery(d), row.intent.text);
    var q := p.(rows := p.rows[d := row], attempts := p.attempts[(d, 1) := WasSent],
                messages := p.messages + [m], workers := s.workers[w := Idle]);
    SentEntersTimeline(p.rows, p.messages, d, row, m);
    SettleKeeps(p, q, w, d);
  }

  lemma SentEntersTimeline(rows: seq<Delivery>, messages: seq<Message>, d: nat, row: Delivery, m: Message)
    requires TimelineTrue(rows, messages) && d < |rows| && row.status.Sent? && m.source == FromDelivery(d)
    requires !HasOutbound(messages, d)
    ensures TimelineTrue(rows[d := row], messages + [m])
  {
    var longer := messages + [m];
    forall e | 0 <= e < |rows| && rows[d := row][e].status.Sent?
      ensures HasOutbound(longer, e)
    {
      if e == d {
        assert longer[|messages|] == m;
      } else {
        var i :| 0 <= i < |messages| && messages[i].source == FromDelivery(e);
        assert longer[i] == messages[i];
      }
    }
  }

  /** The call itself: it happens while the holder is cleared, so it is the first for this delivery. */
  lemma SendKeeps(p: Protocol, q: Protocol, w: nat, call: SendCall, taken: bool)
    requires ProtocolInv(p) && w < |p.workers| && p.workers[w].OnDelivery? && p.workers[w].leg.Cleared?
    requires call.delivery == p.workers[w].delivery
    requires q.rows == p.rows && q.attempts == p.attempts && q.messages == p.messages
    requires q.sends == p.sends + [call] && q.accepted == if taken then p.accepted + {call.delivery} else p.accepted
    requires |q.workers| == |p.workers| && q.workers == p.workers[w := q.workers[w]]
    requires match q.workers[w]
      case OnDelivery(d, n, Confirmed) => d == call.delivery && n == 1 && taken
      case OnDelivery(d, n, Errored(ambiguous)) => d == call.delivery && n == 1 && (taken ==> ambiguous)
      case pc => pc.Idle?
    ensures ProtocolInv(q)
  {
    var d := call.delivery;
    assert HeldTrue(p, p.workers[w]);
    CalledNow(p.sends, call);
    forall e | 0 <= e < |q.rows|
      ensures StatusTrue(q.rows[e], Recorded(q.attempts, e), Called(q.sends, e), e in q.accepted)
    {
      assert StatusTrue(p.rows[e], Recorded(p.attempts, e), Called(p.sends, e), e in p.accepted);
    }
    forall v | 0 <= v < |q.workers|
      ensures HeldTrue(q, q.workers[v])
    {
      assert HeldTrue(p, p.workers[v]);
    }
    assert !Called(p.sends, d);
  }

  lemma CalledNow(sends: seq<SendCall>, call: SendCall)
    ensures forall e :: Called(sends + [call], e) <==> Called(sends, e) || e == call.delivery
  {
    var more := sends + [call];
    assert more[|sends|].delivery == call.delivery;
    forall e | Called(sends, e)
      ensures Called(more, e)
    {
      var i :| 0 <= i < |sends| && sends[i].delivery == e;
      assert more[i].delivery == e;
    }
  }

  lemma RecoverOneKeeps(p: Protocol, q: Protocol, d: nat)
    requires ProtocolInv(p) && d < |p.rows| && p.rows[d].status.Sending?
    requires q == p.(rows := p.rows[d := Settled(p.rows[d], Unknown)], attempts := q.attempts)
    requires var key := (d, p.rows[d].attempts);
      q.attempts == if key in p.attempts then p.attempts else p.attempts[key := WasUnknown]
    ensures ProtocolInv(q)
  {
    assert StatusTrue(p.rows[d], Recorded(p.attempts, d), Called(p.sends, d), d in p.accepted);
    RowWriteKeeps(p, q, d);
    forall v | 0 <= v < |q.workers|
      ensures HeldTrue(q, q.workers[v])
    {
      assert HeldTrue(p, p.workers[v]);
    }
    TimelineKeeps(p.rows, p.messages, d, q.rows[d]);
  }

  /** A freshly queued delivery. */
  lemma NewDeliveryKeeps(p: Protocol, intent: Intent, now: nat)
    requires ProtocolInv(p)
    ensures ProtocolInv(p.(rows := p.rows + [NewDelivery(intent, now)]))
  {
    var q := p.(rows := p.rows + [NewDelivery(intent, now)]);
    var n := |p.rows|;
    assert (n, 1) !in p.attempts;
    forall e | 0 <= e < |q.rows|
      ensures StatusTrue(q.rows[e], Recorded(q.attempts, e), Called(q.sends, e), e in q.accepted)
    {
      if e < n {
        assert StatusTrue(p.rows[e], Recorded(p.attempts, e), Called(p.sends, e), e in p.accepted);
      }
    }
    forall v | 0 <= v < |q.workers|
      ensures HeldTrue(q, q.workers[v])
    {
      assert HeldTrue(p, p.workers[v]);
    }
  }

  /** New inbound messages. */
  lemma InboundKeeps(p: Protocol, m: Message)
    requires ProtocolInv(p) && m.source.FromEvent?
    ensures ProtocolInv(p.(messages := p.messages + [m]))
  {
    var q := p.(messages := p.messages + [m]);
    forall d | 0 <= d < |p.rows| && p.rows[d].status.Sent?
      ensures HasOutbound(q.messages, d)
    {
      var i :| 0 <= i < |p.messages| && p.messages[i].source == FromDelivery(d);
      assert q.messages[i] == p.messages[i];
    }
    assert RowsTrue(q);
    forall v | 0 <= v < |q.workers|
      ensures HeldTrue(q, q.workers[v])
    {
      assert HeldTrue(p, p.workers[v]);
    }
  }
}
