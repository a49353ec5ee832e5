/** `instagram_webhook.py`: one POST, from the payload to the receipt. */
module InstagramWebhook {
  import opened Types
  import opened Database
  import opened Instagram
  import opened Queue
  import S = System
  import Q = QueueModel
  import Ingress

  /** `Unhandled` is an exception that leaves the application. */
  datatype Response = BadRequest | EventReceived | TemporaryFailure | Unhandled

  /** The events that a payload stands for. */
  function EventsIn(p: Payload, allowed: set<string>): seq<Inbound>
    requires Acceptable(p, allowed)
  {
    AllEvents(SafeEntries(p.entries.value, allowed))
  }

  class Application {
    const conn: Connection
    const accounts: set<string>
    const debounceSeconds: nat

    constructor (conn: Connection, accounts: set<string>, debounceSeconds: nat)
      ensures this.conn == conn && this.accounts == accounts && this.debounceSeconds == debounceSeconds
    {
      this.conn := conn;
      this.accounts := accounts;
      this.debounceSeconds := debounceSeconds;
    }

    /** The enqueueing loop of `_post`; None when an insertion raises, with whatever came before it in place. */
    method EnqueueEvents(events: seq<Inbound>, now: nat) returns (r: Option<(nat, nat)>)
      modifies conn
      ensures var counted := S.EnqueueAll(old(conn.db), events, now, debounceSeconds);
        && (r.Some? <==> counted.Some?)
        && (r.Some? ==> counted.value == S.Counted(conn.db, r.value.0, r.value.1))
    {
      hide Q.Enqueue;
      ghost var before := conn.db;
      var queue := new JobQueue(conn, debounceSeconds);
      var accepted, duplicates := 0, 0;
      for i := 0 to |events|
        invariant S.EnqueueAll(before, events[..i], now, debounceSeconds)
               == Some(S.Counted(conn.db, accepted, duplicates))
      {
        assert events[..i + 1][..i] == events[..i];
        var created := queue.EnqueueInTransaction(events[i], now);
        if created.None? {
          FailsLater(before, events, i + 1, now, debounceSeconds);
          return None;
        }
        if created.value.created {
          accepted := accepted + 1;
        } else {
          duplicates := duplicates + 1;
        }
      }
      assert events[..|events|] == events;
      return Some((accepted, duplicates));
    }

    /** `_post`, after the signature check: a malformed payload changes nothing; a digest seen before is only noted;
        anything else is counted, event by event, and committed with its receipt, or not at all. */
    method Post(p: Payload, digest: string, now: nat) returns (response: Response)
      modifies conn
      ensures response.BadRequest? || response.Unhandled? <==> !Acceptable(p, accounts)
      ensures response.Unhandled? <==> Escapes(p, accounts)
      ensures response.BadRequest? || response.Unhandled? ==> conn.db == old(conn.db)
      ensures !response.BadRequest? && !response.Unhandled? ==>
        var msgs, ignored := EventsIn(p, accounts), |IgnoredIn(p.entries.value, accounts)|;
        var r := S.Webhook(old(conn.db), digest, msgs, ignored, now, debounceSeconds);
        && (forall i :: 0 <= i < |msgs| ==> S.FromInstagram(msgs[i], accounts))
        && |msgs| + ignored == CountItems(p.entries.value)
        && (response.EventReceived? <==> r.Some?)
        && conn.db == S.OrElse(r, old(conn.db))
        && (response.EventReceived? ==> Ingress.PostOk(old(conn.db), conn.db, digest, msgs, ignored))
        && (response.TemporaryFailure? ==> conn.db == old(conn.db))
    {
      hide Ingress.PostOk, Acceptable, Escapes, AllEvents, IgnoredIn, S.FromInstagram, S.EnqueueAll, CountItems, SafeEntries;
      var normalized := Normalize(p, accounts);
      if normalized.Rejected? {
        return BadRequest;
      }
      if normalized.Escaped? {
        return Unhandled;
      }
      var events := normalized.events;
      Entitled(p, accounts);
      Ingress.PostsBody(conn.db, digest, events, |normalized.ignored|, now, debounceSeconds);
      var before := conn.db;
      if S.HasReceipt(conn.db.receipts, digest) {
        conn.Record(WebhookEntry(digest, false));
        return EventReceived;
      }
      var counted := EnqueueEvents(events, now);
      if counted.None? {
        conn.Rollback(before);
        return TemporaryFailure;
      }
      var (accepted, duplicates) := counted.value;
      var receipt := Receipt(digest, accepted, duplicates, |normalized.ignored|);
      conn.db := conn.db.(receipts := conn.db.receipts + [receipt]);
      conn.Record(WebhookEntry(digest, true));
      return EventReceived;
    }
  }

  lemma Entitled(p: Payload, accounts: set<string>)
    requires Acceptable(p, accounts)
    ensures var msgs := EventsIn(p, accounts);
      && (forall i :: 0 <= i < |msgs| ==> S.FromInstagram(msgs[i], accounts))
      && |msgs| + |IgnoredIn(p.entries.value, accounts)| == CountItems(p.entries.value)
  {
    hide S.FromInstagram, Judge, AllEvents, SafeEntries;
    var msgs := EventsIn(p, accounts);
    assert p == Payload(true, Some(p.entries.value));
    NormalizePartitions(p.entries.value, accounts);
    forall i | 0 <= i < |msgs|
      ensures S.FromInstagram(msgs[i], accounts)
    {
      EventsAreRouted(p.entries.value, accounts, i);
    }
  }

  /** One failed insertion fails the whole loop. */
  lemma {:induction false} FailsLater(db: Db, msgs: seq<Inbound>, n: nat, now: nat, debounce: nat)
    requires n <= |msgs| && S.EnqueueAll(db, msgs[..n], now, debounce).None?
    ensures S.EnqueueAll(db, msgs, now, debounce).None?
    decreases |msgs| - n
  {
    if n < |msgs| {
      assert msgs[..n + 1][..n] == msgs[..n];
      FailsLater(db, msgs, n + 1, now, debounce);
    } else {
      assert msgs[..n] == msgs;
    }
  }
}
