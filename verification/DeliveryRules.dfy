/** What the transactions on deliveries promise, said of the rows before and after them alone. */
module DeliveryRules {
  import opened Types
  import opened Text
  import opened WorkspaceModel
  import opened DeliveryModel
  import opened LinkInvariant

  // ---------------------------------------------------------------- queueing

  /** What `enqueue_delivery` accepts. */
  predicate Deliverable(channel: Channel, t: Intent) {
    && channel.Instagram? && 1 <= |Strip(t.text)| <= 1000 && 1 <= |t.account| <= 200 && 1 <= |t.customer| <= 200
  }

  /** One more delivery, waiting from `now` on, with its text trimmed. */
  ghost predicate DeliveryQueued(a: Db, b: Db, t: Intent, now: nat) {
    b == a.(deliveries := a.deliveries + [Delivery(t.(text := Strip(t.text)), Waiting, 0, now, None, None)],
            audit := a.audit + [DeliveryEntry(|a.deliveries|, Waiting)])
  }

  predicate Answers(row: Delivery, action: nat) {
    row.intent.action == action
  }

  /** A second delivery of an action is refused, but for a note. */
  ghost predicate DeliveryNoted(a: Db, b: Db, action: nat) {
    exists d: nat :: d < |a.deliveries| && Answers(a.deliveries[d], action)
                     && b == a.(audit := a.audit + [DuplicateDelivery(d)])
  }

  lemma QueuesDelivery(db: Db, channel: Channel, t: Intent, now: nat)
    ensures var r := EnqueueDelivery(db, channel, t, now);
      && (r.Some? <==> Deliverable(channel, t))
      && (r.Some? ==>
            if exists d :: 0 <= d < |db.deliveries| && Answers(db.deliveries[d], t.action)
            then DeliveryNoted(db, r.value, t.action) else DeliveryQueued(db, r.value, t, now))
  {
    hide Strip;
    AnsweredExactly(db.deliveries, t.action);
    var known := FindDelivery(db.deliveries, t.action);
    if known.Some? {
      assert Answers(db.deliveries[known.value], t.action);
    }
  }

  lemma AnsweredExactly(rows: seq<Delivery>, action: nat)
    ensures HasDelivery(rows, action) <==> exists d :: 0 <= d < |rows| && Answers(rows[d], action)
  {
    if HasDelivery(rows, action) {
      var d :| 0 <= d < |rows| && rows[d].intent.action == action;
      assert Answers(rows[d], action);
    }
    if d :| 0 <= d < |rows| && Answers(rows[d], action) {
      assert rows[d].intent.action == action;
    }
  }

  /** The last event of conversation `c`. */
  ghost predicate IsLast(events: seq<Event>, c: nat, e: nat) {
    e < |events| && events[e].conv == c && forall i :: e < i < |events| ==> events[i].conv != c
  }

  /** What an operator may answer, with this text. */
  ghost predicate Replyable(db: Db, c: nat, raw: string) {
    && 1 <= |Strip(raw)| <= 1000
    && c < |db.convs| && db.convs[c].channel.Instagram? && 1 <= |db.convs[c].customer| <= 200
    && db.convs[c].account < |db.accounts| && 1 <= |db.accounts[db.convs[c].account].external| <= 200
    && exists e: nat :: IsLast(db.events, c, e)
  }

  /** An allowed human action about the conversation's last event, its waiting delivery to the conversation's customer
      from the conversation's account, and the conversation pending review. */
  ghost predicate ReplyCreated(a: Db, b: Db, c: nat, raw: string, now: nat, e: nat) {
    && c < |a.convs| && a.convs[c].account < |a.accounts| && IsLast(a.events, c, e)
    && var k, row := |a.actions|, a.convs[c];
       var t := Intent(k, c, a.accounts[row.account].external, row.customer, Strip(raw), Human);
       b == a.(actions := a.actions + [Action(e, e, HumanReply, Human, now)],
               actionStates := a.actionStates[k := AwaitingDelivery], policies := a.policies[k := Allowed],
               deliveries := a.deliveries + [Delivery(t, Waiting, 0, now, None, None)],
               convs := a.convs[c := row.(status := PendingReview)],
               audit := a.audit + [DeliveryEntry(|a.deliveries|, Waiting)])
  }

  lemma StripTwice(s: string)
    ensures Strip(Strip(s)) == Strip(s)
  {
    StripTrims(s);
    StripTrims(Strip(s));
  }

  lemma Unanswered(db: Db)
    requires LinkInv(db)
    ensures !HasDelivery(db.deliveries, |db.actions|)
  {
    forall d | 0 <= d < |db.deliveries|
      ensures db.deliveries[d].intent.action < |db.actions|
    {
      assert IntentOk(db.events, db.actions, db.policies, db.deliveries[d].intent);
    }
  }

  lemma CreatesReply(db: Db, c: nat, raw: string, now: nat)
    requires LinkInv(db)
    ensures CreateHumanReply(db, c, raw, now).Some? <==> Replyable(db, c, raw)
    ensures CreateHumanReply(db, c, raw, now).Some? ==>
      exists e: nat :: ReplyCreated(db, CreateHumanReply(db, c, raw, now).value, c, raw, now, e)
  {
    hide Strip, LinkInv, FindDelivery, HasDelivery;
    StripTwice(raw);
    Unanswered(db);
    var latest := LatestEvent(db.events, c);
    if latest.Some? {
      assert IsLast(db.events, c, latest.value);
      if CreateHumanReply(db, c, raw, now).Some? {
        assert ReplyCreated(db, CreateHumanReply(db, c, raw, now).value, c, raw, now, latest.value);
      }
    }
  }

  // ------------------------------------------------------------------ taking

  /** The delivery taken at `now` is the first that was waiting and due; one attempt more, until the lease's end. */
  ghost predicate TakeOk(a: Db, b: Db, d: nat, now: nat, until: nat, worker: nat) {
    && d < |a.deliveries| && a.deliveries[d].status.Waiting? && a.deliveries[d].availableAt <= now
    && (forall i :: 0 <= i < d && a.deliveries[i].status.Waiting? ==> a.deliveries[i].availableAt > now)
    && var row := a.deliveries[d];
       b == a.(deliveries := a.deliveries[d := Delivery(row.intent, Sending, row.attempts + 1, row.availableAt,
                                                        Some(until), Some(worker))])
  }

  lemma TakesFirstDue(db: Db, d: nat, now: nat, until: nat, worker: nat)
    requires IsNext(db.deliveries, now, d)
    ensures TakeOk(db, ClaimDelivery(db, d, until, worker), d, now, until, worker)
  {}

  // ---------------------------------------------------------------- settling

  /** Row `d` has this final status and nobody holds it; nothing else of any delivery changes. */
  ghost predicate RowSettled(a: seq<Delivery>, b: seq<Delivery>, d: nat, status: DeliveryStatus) {
    d < |a| && b == a[d := Delivery(a[d].intent, status, a[d].attempts, a[d].availableAt, None, None)]
  }

  /** Conversation `c`, if there is one, has this status; nothing else of any conversation changes. */
  ghost predicate StatusSet(a: seq<Conversation>, b: seq<Conversation>, c: nat, status: ConvStatus) {
    b == if c < |a| then a[c := a[c].(status := status)] else a
  }

  /** Suppressed, and for a bot's message: its text kept as a draft for review, unless there is a review already, and
      the conversation pending review. */
  ghost predicate WithholdOk(a: Db, b: Db, d: nat) {
    && RowSettled(a.deliveries, b.deliveries, d, Withheld)
    && var t := a.deliveries[d].intent;
       var reviewed := t.author.Agent? && t.action !in a.reviews;
       && b == a.(deliveries := b.deliveries, actionStates := a.actionStates[t.action := ActionSuppressed],
                  reviews := if reviewed then a.reviews[t.action := Review(Draft, Pending, t.text, 1)] else a.reviews,
                  revisions := if reviewed then a.revisions[(t.action, 1) := t.text] else a.revisions,
                  convs := b.convs,
                  audit := a.audit + (if reviewed then [ReviewEntry(t.action, Pending)] else [])
                           + [DeliveryEntry(d, Withheld)])
       && if t.author.Agent? then StatusSet(a.convs, b.convs, t.conv, PendingReview) else b.convs == a.convs
  }

  lemma Withholds(db: Db, d: nat)
    requires d < |db.deliveries|
    ensures var r, t := Suppress(db, d), db.deliveries[d].intent;
      && (r.None? <==> t.author.Agent? && t.action !in db.reviews && (t.action, 1) in db.revisions)
      && (r.Some? ==> WithholdOk(db, r.value, d))
  {}

  /** Sent, its attempt recorded so, in the timeline with its text, its action sent and the conversation closed. */
  ghost predicate SentOk(a: Db, b: Db, d: nat, attempt: nat) {
    && RowSettled(a.deliveries, b.deliveries, d, Sent)
    && var t := a.deliveries[d].intent;
       && b == a.(deliveries := b.deliveries, attempts := a.attempts[(d, attempt) := WasSent],
                  messages := a.messages + [Message(t.conv, FromDelivery(d), t.text)],
                  actionStates := a.actionStates[t.action := ActionSent], convs := b.convs,
                  audit := a.audit + [DeliveryEntry(d, Sent)])
       && StatusSet(a.convs, b.convs, t.conv, Closed)
  }

  lemma RecordsSent(db: Db, d: nat, attempt: nat)
    requires d < |db.deliveries|
    ensures var r := FinishSent(db, d, attempt);
      && (r.None? <==> (d, attempt) in db.attempts
                       || exists i :: 0 <= i < |db.messages| && db.messages[i].source == FromDelivery(d))
      && (r.Some? ==> SentOk(db, r.value, d, attempt))
  {}

  /** The action has a review, a new one being a pending escalation; the conversation is paused and pending review. */
  ghost predicate Escalated(a: Db, b: Db, action: nat, c: nat) {
    && b.reviews == (if action in a.reviews then a.reviews
                     else a.reviews[action := Review(ReviewKind.Escalation, Pending, "", 1)])
    && b.convs == (if c < |a.convs| then a.convs[c := a.convs[c].(paused := true, status := PendingReview)] else a.convs)
  }

  /** Failed, or unknown when the service may have taken it; recorded so, the action failed, and escalated. */
  ghost predicate ErrorOk(a: Db, b: Db, d: nat, attempt: nat, ambiguous: bool) {
    && RowSettled(a.deliveries, b.deliveries, d, if ambiguous then Unknown else Failed)
    && var t := a.deliveries[d].intent;
       && Escalated(a, b, t.action, t.conv)
       && b == a.(deliveries := b.deliveries, actionStates := a.actionStates[t.action := ActionFailed],
                  attempts := a.attempts[(d, attempt) := if ambiguous then WasUnknown else WasRejected],
                  reviews := b.reviews, convs := b.convs,
                  audit := a.audit + (if t.action in a.reviews then [] else [ReviewEntry(t.action, Pending)])
                           + [DeliveryEntry(d, if ambiguous then Unknown else Failed)])
  }

  lemma RecordsError(db: Db, d: nat, attempt: nat, ambiguous: bool)
    requires d < |db.deliveries|
    ensures var r := FinishError(db, d, attempt, ambiguous);
      && (r.None? <==> (d, attempt) in db.attempts)
      && (r.Some? ==> ErrorOk(db, r.value, d, attempt, ambiguous))
  {}

  // ---------------------------------------------------------------- recovery

  /** In flight, and its lease has run out by `now`. */
  predicate RanOut(row: Delivery, now: nat) {
    row.status.Sending? && row.lease.Some? && row.lease.value <= now
  }

  predicate RowRecovered(a: Delivery, b: Delivery, now: nat) {
    b == if RanOut(a, now) then Delivery(a.intent, Unknown, a.attempts, a.availableAt, None, None) else a
  }

  /** Delivery `d` ran out in an attempt of this number. */
  ghost predicate Lost(rows: seq<Delivery>, now: nat, key: (nat, nat)) {
    key.0 < |rows| && RanOut(rows[key.0], now) && rows[key.0].attempts == key.1
  }

  ghost predicate LostAction(rows: seq<Delivery>, now: nat, action: nat) {
    exists d :: 0 <= d < |rows| && RanOut(rows[d], now) && rows[d].intent.action == action
  }

  ghost predicate LostIn(rows: seq<Delivery>, now: nat, c: nat) {
    exists d :: 0 <= d < |rows| && RanOut(rows[d], now) && rows[d].intent.conv == c
  }

  /** A recovery at `now`: the sends whose lease has run out are unknown, each recorded unless its attempt already is,
      their actions have reviews, the new ones pending escalations, and their conversations are paused.  Nothing else
      of any delivery, attempt, review or conversation changes. */
  ghost predicate RecoverSendsOk(a: Db, b: Db, now: nat) {
    && |b.deliveries| == |a.deliveries|
    && (forall d :: 0 <= d < |a.deliveries| ==> RowRecovered(a.deliveries[d], b.deliveries[d], now))
    && (forall k :: k in a.attempts ==> k in b.attempts && b.attempts[k] == a.attempts[k])
    && (forall k :: k in b.attempts && k !in a.attempts ==> Lost(a.deliveries, now, k) && b.attempts[k].WasUnknown?)
    && (forall k: (nat, nat) :: Lost(a.deliveries, now, k) ==> k in b.attempts)
    && (forall r :: r in a.reviews ==> r in b.reviews && b.reviews[r] == a.reviews[r])
    && (forall r :: r in b.reviews && r !in a.reviews ==>
          LostAction(a.deliveries, now, r) && b.reviews[r] == Review(ReviewKind.Escalation, Pending, "", 1))
    && (forall r: nat :: LostAction(a.deliveries, now, r) ==> r in b.reviews)
    && |b.convs| == |a.convs|
    && (forall c :: 0 <= c < |a.convs| ==>
          b.convs[c] == if LostIn(a.deliveries, now, c) then a.convs[c].(paused := true, status := PendingReview)
                        else a.convs[c])
  }

  /** The same of any set of deliveries, whatever the reason for recovering them. */
  ghost predicate Recovered(a: Db, b: Db, ids: set<nat>) {
    RowsRecovered(a, b, ids) && AttemptsRecovered(a, b, ids) && ReviewsRecovered(a, b, ids) && ConvsRecovered(a, b, ids)
  }

  ghost predicate RowsRecovered(a: Db, b: Db, ids: set<nat>) {
    && |b.deliveries| == |a.deliveries|
    && (forall d :: 0 <= d < |a.deliveries| ==>
          var row := a.deliveries[d];
          b.deliveries[d] == if d in ids then Delivery(row.intent, Unknown, row.attempts, row.availableAt, None, None)
                             else row)
  }

  ghost predicate AttemptsRecovered(a: Db, b: Db, ids: set<nat>) {
    && (forall k :: k in a.attempts ==> k in b.attempts && b.attempts[k] == a.attempts[k])
    && (forall k :: k in b.attempts && k !in a.attempts ==> Taken(a, ids, k) && b.attempts[k].WasUnknown?)
    && (forall k: (nat, nat) :: Taken(a, ids, k) ==> k in b.attempts)
  }

  ghost predicate ReviewsRecovered(a: Db, b: Db, ids: set<nat>) {
    && (forall r :: r in a.reviews ==> r in b.reviews && b.reviews[r] == a.reviews[r])
    && (forall r :: r in b.reviews && r !in a.reviews ==>
          OfAction(a, ids, r) && b.reviews[r] == Review(ReviewKind.Escalation, Pending, "", 1))
    && (forall r: nat :: OfAction(a, ids, r) ==> r in b.reviews)
  }

  ghost predicate ConvsRecovered(a: Db, b: Db, ids: set<nat>) {
    && |b.convs| == |a.convs|
    && (forall c :: 0 <= c < |a.convs| ==>
          b.convs[c] == if InConv(a, ids, c) then a.convs[c].(paused := true, status := PendingReview) else a.convs[c])
  }

  ghost predicate Taken(a: Db, ids: set<nat>, key: (nat, nat)) {
    key.0 in ids && key.0 < |a.deliveries| && a.deliveries[key.0].attempts == key.1
  }

  ghost predicate OfAction(a: Db, ids: set<nat>, action: nat) {
    exists d :: d in ids && d < |a.deliveries| && a.deliveries[d].intent.action == action
  }

  ghost predicate InConv(a: Db, ids: set<nat>, c: nat) {
    exists d :: d in ids && d < |a.deliveries| && a.deliveries[d].intent.conv == c
  }

  lemma OneMore(a: Db, ids: set<nat>, d: nat)
    requires d < |a.deliveries|
    ensures forall k: (nat, nat) ::
      Taken(a, ids + {d}, k) <==> Taken(a, ids, k) || k == (d, a.deliveries[d].attempts)
    ensures forall r: nat :: OfAction(a, ids + {d}, r) <==> OfAction(a, ids, r) || r == a.deliveries[d].intent.action
    ensures forall c: nat :: InConv(a, ids + {d}, c) <==> InConv(a, ids, c) || c == a.deliveries[d].intent.conv
  {
    forall r: nat
      ensures OfAction(a, ids + {d}, r) <==> OfAction(a, ids, r) || r == a.deliveries[d].intent.action
    {
      assert d in ids + {d};
    }
    forall c: nat
      ensures InConv(a, ids + {d}, c) <==> InConv(a, ids, c) || c == a.deliveries[d].intent.conv
    {
      assert d in ids + {d};
    }
  }

  lemma OneRow(a: Db, mid: Db, ids: set<nat>, d: nat)
    requires RowsRecovered(a, mid, ids) && d < |a.deliveries| && d !in ids
    ensures RowsRecovered(a, RecoverDelivery(mid, d), ids + {d})
  {
    hide RecoverDelivery;
  }

  lemma OneAttempt(a: Db, mid: Db, ids: set<nat>, d: nat)
    requires AttemptsRecovered(a, mid, ids) && d < |a.deliveries| == |mid.deliveries|
    requires mid.deliveries[d] == a.deliveries[d]
    ensures AttemptsRecovered(a, RecoverDelivery(mid, d), ids + {d})
  {
    hide Taken, RecoverDelivery;
    OneMore(a, ids, d);
  }

  lemma ReviewAfter(mid: Db, d: nat)
    requires d < |mid.deliveries|
    ensures var action := mid.deliveries[d].intent.action;
      RecoverDelivery(mid, d).reviews ==
        if action in mid.reviews then mid.reviews
        else mid.reviews[action := Review(ReviewKind.Escalation, Pending, "", 1)]
  {}

  lemma OneReview(a: Db, mid: Db, ids: set<nat>, d: nat)
    requires ReviewsRecovered(a, mid, ids) && d < |a.deliveries| == |mid.deliveries|
    requires mid.deliveries[d] == a.deliveries[d]
    ensures ReviewsRecovered(a, RecoverDelivery(mid, d), ids + {d})
  {
    hide OfAction, RecoverDelivery;
    OneMore(a, ids, d);
    ReviewAfter(mid, d);
  }

  lemma OneConv(a: Db, mid: Db, ids: set<nat>, d: nat)
    requires ConvsRecovered(a, mid, ids) && d < |a.deliveries| == |mid.deliveries|
    requires mid.deliveries[d] == a.deliveries[d]
    ensures ConvsRecovered(a, RecoverDelivery(mid, d), ids + {d})
  {
    hide InConv;
    OneMore(a, ids, d);
  }

  lemma RecoversOne(a: Db, mid: Db, ids: set<nat>, d: nat)
    requires Recovered(a, mid, ids) && d < |a.deliveries| && d !in ids
    ensures Recovered(a, RecoverDelivery(mid, d), ids + {d})
  {
    hide RecoverDelivery, AttemptsRecovered, ReviewsRecovered, ConvsRecovered;
    OneRow(a, mid, ids, d);
    OneAttempt(a, mid, ids, d);
    OneReview(a, mid, ids, d);
    OneConv(a, mid, ids, d);
  }

  ghost function SetOf(ids: seq<nat>): set<nat> {
    set k | 0 <= k < |ids| :: ids[k]
  }

  lemma {:induction false} RecoversList(db: Db, ids: seq<nat>)
    requires forall k :: 0 <= k < |ids| ==> ids[k] < |db.deliveries|
    requires forall k, l :: 0 <= k < l < |ids| ==> ids[k] < ids[l]
    ensures Recovered(db, RecoverAll(db, ids), SetOf(ids))
  {
    hide Recovered, RecoverDelivery;
    if ids == [] {
      RecoversNone(db);
      assert SetOf(ids) == {};
    } else {
      var n := |ids| - 1;
      RecoversList(db, ids[..n]);
      assert SetOf(ids) == SetOf(ids[..n]) + {ids[n]} by {
        assert forall k :: 0 <= k < n ==> ids[..n][k] == ids[k];
        assert forall x :: x in SetOf(ids) ==> x in SetOf(ids[..n]) + {ids[n]};
      }
      RecoversOne(db, RecoverAll(db, ids[..n]), SetOf(ids[..n]), ids[n]);
    }
  }

  lemma RecoversNone(db: Db)
    ensures Recovered(db, RecoverAll(db, []), {})
  {}

  lemma RecoversLost(a: Db, b: Db, ids: set<nat>, now: nat)
    requires Recovered(a, b, ids) && forall d: nat :: d in ids <==> d < |a.deliveries| && RanOut(a.deliveries[d], now)
    ensures RecoverSendsOk(a, b, now)
  {
    forall k: (nat, nat)
      ensures Taken(a, ids, k) <==> Lost(a.deliveries, now, k)
    {}
    forall r: nat
      ensures OfAction(a, ids, r) <==> LostAction(a.deliveries, now, r)
    {}
    forall c: nat
      ensures InConv(a, ids, c) <==> LostIn(a.deliveries, now, c)
    {}
  }

  lemma RecoversSends(db: Db, now: nat)
    ensures RecoverSendsOk(db, RecoverDeliveries(db, now), now)
  {
    hide RecoverAll, Recovered, RecoverSendsOk;
    var rows := db.deliveries;
    var ids := ExpiredDeliveries(rows, now, |rows|);
    RecoversList(db, ids);
    forall d: nat
      ensures d in SetOf(ids) <==> d < |rows| && RanOut(rows[d], now)
    {
      if d < |rows| && RanOut(rows[d], now) {
        assert Expired(rows[d], now);
        assert d in ids;
      }
    }
    RecoversLost(db, RecoverDeliveries(db, now), SetOf(ids), now);
  }
}
