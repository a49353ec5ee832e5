/** `delivery.py`: queueing and sending, statement by statement. */
module Delivery {
  import opened Types
  import opened Text
  import opened Database
  import opened System
  import opened Safety
  import opened Gates
  import Workspace
  import Trace
  import opened LinkInvariant
  import SendSteps
  import D = DeliveryModel
  import R = DeliveryRules

  /** `enqueue_delivery`; None when it raises ValueError, before it has written anything. */
  method EnqueueDelivery(conn: Connection, channel: Channel, intent: Intent, now: nat) returns (r: Option<nat>)
    modifies conn
    ensures var e := D.EnqueueDelivery(old(conn.db), channel, intent, now);
      && (r.Some? <==> e.Some?)
      && conn.db == (if e.Some? then e.value else old(conn.db))
    ensures r.Some? ==> r.value < |conn.db.deliveries| && conn.db.deliveries[r.value].intent.action == intent.action
    ensures r.Some? <==> R.Deliverable(channel, intent)
    ensures r.Some? ==>
      if exists d :: 0 <= d < |old(conn.db).deliveries| && R.Answers(old(conn.db).deliveries[d], intent.action)
      then R.DeliveryNoted(old(conn.db), conn.db, intent.action)
      else R.DeliveryQueued(old(conn.db), conn.db, intent, now)
  {
    hide R.Deliverable, R.DeliveryNoted, R.DeliveryQueued;
    R.QueuesDelivery(conn.db, channel, intent, now);
    var text := Strip(intent.text);
    if !channel.Instagram? {
      return None;
    }
    if text == "" || |text| > 1000 || intent.account == "" || |intent.account| > 200 || intent.customer == ""
       || |intent.customer| > 200 {
      return None;
    }
    var existing := D.FindDelivery(conn.db.deliveries, intent.action);
    if existing.Some? {
      conn.Record(DuplicateDelivery(existing.value));
      return existing;
    }
    var delivery := |conn.db.deliveries|;
    conn.db := conn.db.(deliveries := conn.db.deliveries + [D.NewDelivery(intent.(text := text), now)]);
    conn.Record(DeliveryEntry(delivery, Waiting));
    return Some(delivery);
  }

  /** `create_human_reply`: all or nothing; None when it raises ValueError. */
  method CreateHumanReply(conn: Connection, c: nat, raw: string, now: nat) returns (r: Option<nat>)
    modifies conn
    ensures var e := D.CreateHumanReply(old(conn.db), c, raw, now);
      && (r.Some? <==> e.Some?)
      && conn.db == OrElse(e, old(conn.db))
    ensures LinkInv(old(conn.db)) ==>
      && (r.Some? <==> R.Replyable(old(conn.db), c, raw))
      && (r.Some? ==> exists e: nat :: R.ReplyCreated(old(conn.db), conn.db, c, raw, now, e))
  {
    hide R.Replyable, R.ReplyCreated, LinkInv, R.Answers, R.Deliverable;
    if LinkInv(conn.db) { R.CreatesReply(conn.db, c, raw, now); }
    var text := Strip(raw);
    if text == "" || |text| > 1000 {
      return None;
    }
    var before := conn.db;
    var latest := D.LatestEvent(conn.db.events, c);
    if c >= |conn.db.convs| || conn.db.convs[c].account >= |conn.db.accounts| || latest.None? {
      return None;
    }
    var context := conn.db.convs[c];
    if !context.channel.Instagram? {
      return None;
    }
    var action := |conn.db.actions|;
    conn.db := conn.db.(actions := conn.db.actions + [Action(latest.value, latest.value, HumanReply, Human, now)],
                        actionStates := conn.db.actionStates[action := AwaitingDelivery]);
    conn.db := conn.db.(policies := conn.db.policies[action := Allowed]);
    var account := conn.db.accounts[context.account].external;
    r := EnqueueDelivery(conn, Channel.Instagram, Intent(action, c, account, context.customer, text, Human), now);
    if r.None? {
      conn.Rollback(before);
      return;
    }
    Workspace.SetStatus(conn, c, PendingReview);
  }

  /** The messaging service, as far as the bridge calls it: what it was asked to send, in order. */
  class Remote {
    var calls: seq<SendCall>

    constructor ()
      ensures calls == []
    {
      calls := [];
    }

    /** `send_text`; how the call will end is up to the service, and given as an argument. */
    method SendText(call: SendCall, ending: Ending) returns (result: Ending)
      modifies this
      ensures calls == old(calls) + [call] && result == ending
    {
      calls := calls + [call];
      return ending;
    }
  }

  /** The clock readings of one turn. */
  datatype Clock = Clock(recovery: nat, claim: nat, lease: nat)

  class DeliveryExecutor {
    const conn: Connection
    const remote: Remote
    const cfg: D.Config

    constructor (conn: Connection, remote: Remote, cfg: D.Config)
      ensures this.conn == conn && this.remote == remote && this.cfg == cfg
    {
      this.conn := conn;
      this.remote := remote;
      this.cfg := cfg;
    }

    /** `_ensure_escalation` */
    method EnsureEscalation(action: nat, c: nat)
      modifies conn
      ensures conn.db == D.EnsureEscalation(old(conn.db), action, c)
      ensures action in conn.db.reviews
      ensures forall r :: r in old(conn.db).reviews ==>
        r in conn.db.reviews && conn.db.reviews[r] == old(conn.db).reviews[r]
      ensures forall r :: r in conn.db.reviews && r !in old(conn.db).reviews ==>
        r == action && conn.db.reviews[r].kind.Escalation? && conn.db.reviews[r].status.Pending?
      ensures c < |conn.db.convs| ==> conn.db.convs[c].paused && conn.db.convs[c].status.PendingReview?
    {
      if action !in conn.db.reviews {
        var created := Workspace.CreateReview(conn, action, ReviewKind.Escalation, "");
      }
      if c < |conn.db.convs| {
        var row := conn.db.convs[c].(paused := true, status := PendingReview);
        conn.db := conn.db.(convs := conn.db.convs[c := row]);
      }
    }

    /** `recover_stale`: every send whose lease has run out is marked unknown, recorded unless its attempt already
        is, and handed to an operator. */
    method RecoverStale(now: nat) returns (recovered: nat)
      modifies conn
      ensures conn.db == D.RecoverDeliveries(old(conn.db), now)
      ensures recovered == |D.ExpiredDeliveries(old(conn.db).deliveries, now, |old(conn.db).deliveries|)|
      ensures R.RecoverSendsOk(old(conn.db), conn.db, now)
    {
      hide R.RecoverSendsOk, D.RecoverAll, D.RecoverDelivery;
      R.RecoversSends(conn.db, now);
      NothingRecovered(conn.db);
      ghost var db0 := conn.db;
      var rows := D.ExpiredDeliveries(conn.db.deliveries, now, |conn.db.deliveries|);
      for k := 0 to |rows|
        invariant conn.db == D.RecoverAll(db0, rows[..k])
      {
        RecoverMore(db0, rows[..k], rows[k]);
        assert rows[..k] + [rows[k]] == rows[..k + 1];
        RecoverOne(rows[k]);
      }
      assert rows[..|rows|] == rows;
      return |rows|;
    }

    /** One turn of that loop. */
    method RecoverOne(d: nat)
      requires d < |conn.db.deliveries|
      modifies conn
      ensures conn.db == D.RecoverDelivery(old(conn.db), d)
    {
      var row := conn.db.deliveries[d];
      var settled := row.(status := DeliveryStatus.Unknown, lease := None, worker := None);
      conn.db := conn.db.(deliveries := conn.db.deliveries[d := settled]);
      if (d, row.attempts) !in conn.db.attempts {
        conn.db := conn.db.(attempts := conn.db.attempts[(d, row.attempts) := WasUnknown]);
      }
      EnsureEscalation(row.intent.action, row.intent.conv);
      conn.Record(DeliveryEntry(d, DeliveryStatus.Unknown));
    }

    /** `_claim` */
    method Claim(worker: nat, now: nat, until: nat) returns (r: Option<nat>)
      modifies conn
      ensures r.None? ==> conn.db == old(conn.db)
      ensures r.None? <==> NothingDue(old(conn.db).deliveries, now)
      ensures r.Some? ==>
        D.IsNext(old(conn.db).deliveries, now, r.value)
        && conn.db == D.ClaimDelivery(old(conn.db), r.value, until, worker)
      ensures r.Some? ==> R.TakeOk(old(conn.db), conn.db, r.value, now, until, worker)
      ensures r.None? <==> forall d :: 0 <= d < |old(conn.db).deliveries| && old(conn.db).deliveries[d].status.Waiting?
                                       ==> old(conn.db).deliveries[d].availableAt > now
    {
      r := D.FindNext(conn.db.deliveries, now, 0);
      if r.Some? {
        R.TakesFirstDue(conn.db, r.value, now, until, worker);
        var row := conn.db.deliveries[r.value];
        var claimed := row.(status := Sending, attempts := row.attempts + 1, lease := Some(until),
                            worker := Some(worker));
        conn.db := conn.db.(deliveries := conn.db.deliveries[r.value := claimed]);
      }
    }

    /** `_suppress`: all or nothing. */
    method Suppress(d: nat) returns (ok: bool)
      requires d < |conn.db.deliveries|
      modifies conn
      ensures ok == D.Suppress(old(conn.db), d).Some?
      ensures conn.db == OrElse(D.Suppress(old(conn.db), d), old(conn.db))
      ensures ok ==> R.WithholdOk(old(conn.db), conn.db, d)
      ensures !ok ==> (old(conn.db).deliveries[d].intent.action, 1) in old(conn.db).revisions
    {
      hide R.WithholdOk;
      R.Withholds(conn.db, d);
      var before := conn.db;
      var row := conn.db.deliveries[d];
      var t := row.intent;
      var settled := row.(status := Withheld, lease := None, worker := None);
      conn.db := conn.db.(deliveries := conn.db.deliveries[d := settled]);
      conn.db := conn.db.(actionStates := conn.db.actionStates[t.action := ActionSuppressed]);
      if t.author.Agent? {
        if t.action !in conn.db.reviews {
          ok := Workspace.CreateReview(conn, t.action, Draft, t.text);
          if !ok {
            conn.Rollback(before);
            return false;
          }
        }
        Workspace.SetStatus(conn, t.conv, PendingReview);
      }
      conn.Record(DeliveryEntry(d, Withheld));
      return true;
    }

    /** The recording transaction of `run_once`: all or nothing. */
    method FinishSent(d: nat, attempt: nat) returns (ok: bool)
      requires d < |conn.db.deliveries|
      modifies conn
      ensures ok == D.FinishSent(old(conn.db), d, attempt).Some?
      ensures conn.db == OrElse(D.FinishSent(old(conn.db), d, attempt), old(conn.db))
      ensures ok ==> R.SentOk(old(conn.db), conn.db, d, attempt)
      ensures !ok <==>
        || (d, attempt) in old(conn.db).attempts
        || exists i :: 0 <= i < |old(conn.db).messages| && old(conn.db).messages[i].source == FromDelivery(d)
    {
      hide R.SentOk;
      R.RecordsSent(conn.db, d, attempt);
      var before := conn.db;
      var row := conn.db.deliveries[d];
      var settled := row.(status := Sent, lease := None, worker := None);
      conn.db := conn.db.(deliveries := conn.db.deliveries[d := settled]);
      if (d, attempt) in conn.db.attempts {
        conn.Rollback(before);
        return false;
      }
      conn.db := conn.db.(attempts := conn.db.attempts[(d, attempt) := WasSent]);
      if D.HasOutbound(conn.db.messages, d) {
        conn.Rollback(before);
        return false;
      }
      conn.db := conn.db.(messages := conn.db.messages + [Message(row.intent.conv, FromDelivery(d), row.intent.text)]);
      conn.db := conn.db.(actionStates := conn.db.actionStates[row.intent.action := ActionSent]);
      Workspace.SetStatus(conn, row.intent.conv, Closed);
      conn.Record(DeliveryEntry(d, Sent));
      return true;
    }

    /** `_finish_error`: all or nothing. */
    method FinishError(d: nat, attempt: nat, ambiguous: bool) returns (ok: bool)
      requires d < |conn.db.deliveries|
      modifies conn
      ensures ok == D.FinishError(old(conn.db), d, attempt, ambiguous).Some?
      ensures conn.db == OrElse(D.FinishError(old(conn.db), d, attempt, ambiguous), old(conn.db))
      ensures ok <==> (d, attempt) !in old(conn.db).attempts
      ensures ok ==> R.ErrorOk(old(conn.db), conn.db, d, attempt, ambiguous)
    {
      hide D.EnsureEscalation, D.FinishError, R.ErrorOk;
      R.RecordsError(conn.db, d, attempt, ambiguous);
      var before := conn.db;
      ErrorBranches(before, d, attempt, ambiguous);
      var row := conn.db.deliveries[d];
      var status := if ambiguous then DeliveryStatus.Unknown else DeliveryStatus.Failed;
      var settled := row.(status := status, lease := None, worker := None);
      conn.db := conn.db.(deliveries := conn.db.deliveries[d := settled]);
      if (d, attempt) in conn.db.attempts {
        conn.Rollback(before);
        return false;
      }
      var result := if ambiguous then WasUnknown else WasRejected;
      conn.db := conn.db.(attempts := conn.db.attempts[(d, attempt) := result]);
      conn.db := conn.db.(actionStates := conn.db.actionStates[row.intent.action := ActionFailed]);
      EnsureEscalation(row.intent.action, row.intent.conv);
      conn.Record(DeliveryEntry(d, status));
      return true;
    }

    /** The transition system is in the state of these tables and calls, and this worker has nothing in hand. */
    ghost predicate Synced(s: Sys, worker: nat)
      reads conn, remote
    {
      && s.db == conn.db && s.sends == remote.calls && s.cfg == cfg && Inv(s)
      && worker < |s.workers| && s.workers[worker].Idle?
    }

    /** `t` is where these steps lead from `s`, it has the tables and calls as they are, and only worker `w` has
        moved. */
    ghost predicate Following(s: Sys, steps: seq<Step>, t: Sys, w: nat)
      reads conn, remote
    {
      && Trace.After(s, steps) == Some(t) && Inv(t) && t.db == conn.db && t.cfg == cfg && t.sends == remote.calls
      && w < |s.workers| == |t.workers| && t.workers == s.workers[w := t.workers[w]]
    }

    /** The call and what is recorded of it. */
    method Dispatch(worker: nat, d: nat, ending: Ending, ghost s: Sys, ghost steps0: seq<Step>, ghost t0: Sys)
      returns (ghost steps: seq<Step>, ghost t: Sys)
      requires Following(s, steps0, t0, worker) && SendSteps.HasLeg(t0, worker, d, Cleared) && !ending.Death?
      modifies conn, remote
      ensures Following(s, steps, t, worker) && t.workers[worker].Idle?
      ensures d < |conn.db.deliveries| && conn.db.deliveries[d].status == StatusAfter(ending)
      ensures remote.calls == old(remote.calls) + [CallOf(conn.db, d)]
    {
      hide Inv, Next, Enabled, Trace.After, D.FinishSent, D.FinishError, Grows;
      SendSteps.CallStep(t0, worker, d, ending);
      var attempt := conn.db.deliveries[d].attempts;
      var result := remote.SendText(CallOf(conn.db, d), ending);
      steps, t := Trace.Take(s, steps0, t0, Work(worker, Send(ending)));
      if !result.MessageId? {
        SendSteps.RecordErrorStep(t, worker, d, result.Ambiguity?);
        var ok := FinishError(d, attempt, result.Ambiguity?);
        steps, t := Trace.Take(s, steps, t, Work(worker, RecordError));
      } else {
        SendSteps.RecordSentStep(t, worker, d);
        var ok := FinishSent(d, attempt);
        steps, t := Trace.Take(s, steps, t, Work(worker, RecordSent));
      }
    }

    /** What `run_once` does with a delivery it has taken: the check, and then the suppression or the call. */
    method Handle(worker: nat, d: nat, ending: Ending, ghost s: Sys, ghost steps0: seq<Step>, ghost t0: Sys)
      returns (ghost steps: seq<Step>, ghost t: Sys)
      requires Following(s, steps0, t0, worker) && SendSteps.HasLeg(t0, worker, d, Holding) && !ending.Death?
      modifies conn, remote
      ensures Following(s, steps, t, worker) && t.workers[worker].Idle? && d < |conn.db.deliveries|
      ensures if D.PermissionReason(old(conn.db), cfg, d).Some? then
                conn.db.deliveries[d].status.Withheld? && remote.calls == old(remote.calls)
              else
                && conn.db.deliveries[d].status == StatusAfter(ending)
                && remote.calls == old(remote.calls) + [CallOf(conn.db, d)]
    {
      hide Inv, Next, Enabled, Trace.After, D.PermissionReason, D.Suppress, Grows;
      var reason := D.PermissionReason(conn.db, cfg, d);
      SendSteps.CheckStep(t0, worker, d);
      steps, t := Trace.Take(s, steps0, t0, Work(worker, CheckPermission));
      if reason.Some? {
        SendSteps.WithholdStep(t, worker, d, reason.value);
        var ok := Suppress(d);
        steps, t := Trace.Take(s, steps, t, Work(worker, Act.Withhold));
      } else {
        steps, t := Dispatch(worker, d, ending, s, steps, t);
      }
    }

    /** `run_once`, when nobody else moves meanwhile: it takes steps of the transition system and no others, calls the
        service at most once, and leaves the delivery it took in the status that the call's end deserves. */
    method RunOnce(worker: nat, clock: Clock, ending: Ending, ghost s: Sys)
      returns (worked: bool, ghost steps: seq<Step>, ghost taken: nat)
      requires Synced(s, worker) && !ending.Death?
      modifies conn, remote
      ensures Trace.After(s, steps).Some?
      ensures Synced(Trace.After(s, steps).value, worker) && Trace.After(s, steps).value.workers == s.workers
      ensures !worked ==>
        && conn.db == D.RecoverDeliveries(old(conn.db), clock.recovery) && remote.calls == old(remote.calls)
        && NothingDue(conn.db.deliveries, clock.claim)
      ensures worked ==>
        && taken < |conn.db.deliveries|
        && conn.db.deliveries[taken].status
           == (if remote.calls == old(remote.calls) then Withheld else StatusAfter(ending))
        && (remote.calls == old(remote.calls) || remote.calls == old(remote.calls) + [CallOf(conn.db, taken)])
    {
      hide Inv, Next, Enabled, D.PermissionReason, D.RecoverDeliveries, D.ExpiredDeliveries, Grows, Trace.After;
      var recovered := RecoverStale(clock.recovery);
      SendSteps.RecoverStep(s, clock.recovery);
      Trace.Begin(s);
      ghost var t;
      steps, t := Trace.Take(s, [], s, RecoverSends(clock.recovery));
      var claimed := Claim(worker, clock.claim, clock.lease);
      if claimed.None? {
        return false, steps, 0;
      }
      var d := claimed.value;
      SendSteps.TakeStep(t, worker, d, clock.claim, clock.lease);
      steps, t := Trace.Take(s, steps, t, Work(worker, TakeDelivery(d, clock.claim, clock.lease)));
      SendSteps.FetchStep(t, worker, d);
      steps, t := Trace.Take(s, steps, t, Work(worker, FetchDelivery));
      steps, t := Handle(worker, d, ending, s, steps, t);
      return true, steps, d;
    }
  }

  /** No delivery is waiting and due. */
  predicate NothingDue(deliveries: seq<Delivery>, now: nat) {
    forall d :: 0 <= d < |deliveries| ==> !(deliveries[d].status.Waiting? && deliveries[d].availableAt <= now)
  }

  lemma NothingRecovered(db: Db)
    ensures D.RecoverAll(db, []) == db
  {}

  lemma ErrorBranches(db: Db, d: nat, attempt: nat, ambiguous: bool)
    requires d < |db.deliveries|
    ensures var row, status := db.deliveries[d], if ambiguous then DeliveryStatus.Unknown else DeliveryStatus.Failed;
      var result := if ambiguous then WasUnknown else WasRejected;
      D.FinishError(db, d, attempt, ambiguous) ==
        if (d, attempt) in db.attempts then None
        else
          var escalated := D.EnsureEscalation(
            db.(deliveries := db.deliveries[d := row.(status := status, lease := None, worker := None)],
                attempts := db.attempts[(d, attempt) := result],
                actionStates := db.actionStates[row.intent.action := ActionFailed]),
            row.intent.action, row.intent.conv);
          Some(escalated.(audit := escalated.audit + [DeliveryEntry(d, status)]))
  {
    hide D.EnsureEscalation;
  }

  /** The status that the end of a call deserves. */
  function StatusAfter(ending: Ending): DeliveryStatus
    requires !ending.Death?
  {
    match ending
    case MessageId => Sent
    case Rejection => DeliveryStatus.Failed
    case Ambiguity(_) => DeliveryStatus.Unknown
  }
}
