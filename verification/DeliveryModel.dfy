/** The delivery protocol: what each transaction of `delivery.py` does to the tables. */
module DeliveryModel {
  import opened Types
  import opened Text
  import opened WorkspaceModel
  import opened Gates

  /** The parts of the configuration that decide what may be sent, and through which account. */
  datatype Config = Config(maxAttempts: nat, canary: Canary, senders: set<string>, tokens: map<string, bool>,
                           sendEnabled: bool, accounts: set<string>)

  // ---------------------------------------------------------------- queueing

  predicate ValidPayload(account: string, customer: string, text: string) {
    1 <= |text| <= 1000 && 1 <= |account| <= 200 && 1 <= |customer| <= 200
  }

  function NewDelivery(intent: Intent, now: nat): Delivery {
    Delivery(intent, Waiting, 0, now, None, None)
  }

  predicate HasDelivery(deliveries: seq<Delivery>, action: nat) {
    exists d :: 0 <= d < |deliveries| && deliveries[d].intent.action == action
  }

  function FindDelivery(deliveries: seq<Delivery>, action: nat): (r: Option<nat>)
    ensures r.Some? ==> r.value < |deliveries| && deliveries[r.value].intent.action == action
    ensures r.None? <==> !HasDelivery(deliveries, action)
  {
    if deliveries == [] then None
    else
      var n := |deliveries| - 1;
      if deliveries[n].intent.action == action then
        assert HasDelivery(deliveries, action);
        Some(n)
      else
        var r := FindDelivery(deliveries[..n], action);
        assert HasDelivery(deliveries, action) ==> HasDelivery(deliveries[..n], action) by {
          if HasDelivery(deliveries, action) {
            var d :| 0 <= d < |deliveries| && deliveries[d].intent.action == action;
            assert deliveries[..n][d].intent.action == action;
          }
        }
        assert r.Some? ==> deliveries[..n][r.value] == deliveries[r.value];
        r
  }

  /** `enqueue_delivery`; None when it raises ValueError. */
  function EnqueueDelivery(db: Db, channel: Channel, intent: Intent, now: nat): (r: Option<Db>)
    ensures r.Some? ==> r.value == db.(deliveries := r.value.deliveries, audit := r.value.audit)
  {
    var text := Strip(intent.text);
    if !channel.Instagram? || !ValidPayload(intent.account, intent.customer, text) then None
    else
      var known := FindDelivery(db.deliveries, intent.action);
      if known.Some? then Some(db.(audit := db.audit + [DuplicateDelivery(known.value)]))
      else
        Some(db.(deliveries := db.deliveries + [NewDelivery(intent.(text := text), now)],
                 audit := db.audit + [DeliveryEntry(|db.deliveries|, Waiting)]))
  }

  /** The last event of one conversation. */
  function LatestEvent(events: seq<Event>, c: nat): (r: Option<nat>)
    ensures r.Some? ==> r.value < |events| && events[r.value].conv == c
                        && forall i :: r.value < i < |events| ==> events[i].conv != c
    ensures r.None? ==> forall i :: 0 <= i < |events| ==> events[i].conv != c
  {
    if events == [] then None
    else
      var n := |events| - 1;
      if events[n].conv == c then Some(n) else LatestEvent(events[..n], c)
  }

  /** `create_human_reply`; None when it raises ValueError. */
  function CreateHumanReply(db: Db, c: nat, raw: string, now: nat): (r: Option<Db>)
    ensures r.Some? ==> r.value == db.(actions := r.value.actions, actionStates := r.value.actionStates,
                                       policies := r.value.policies, deliveries := r.value.deliveries,
                                       convs := r.value.convs, audit := r.value.audit)
  {
    var text := Strip(raw);
    var latest := LatestEvent(db.events, c);
    if text == "" || |text| > 1000 || c >= |db.convs| || db.convs[c].account >= |db.accounts|
       || latest.None? || !db.convs[c].channel.Instagram? then None
    else
      var a := |db.actions|;
      var db1 := db.(actions := db.actions + [Action(latest.value, latest.value, HumanReply, Human, now)],
                     actionStates := db.actionStates[a := AwaitingDelivery],
                     policies := db.policies[a := Allowed]);
      var intent := Intent(a, c, db.accounts[db.convs[c].account].external, db.convs[c].customer, text, Human);
      var queued := EnqueueDelivery(db1, Instagram, intent, now);
      if queued.None? then None else Some(SetStatus(queued.value, c, PendingReview))
  }

  // ------------------------------------------------------------- the protocol

  function Put(db: Db, d: nat, row: Delivery): Db
    requires d < |db.deliveries|
  {
    db.(deliveries := db.deliveries[d := row])
  }

  /** The first delivery, in the order of insertion, that is waiting and due. */
  ghost predicate IsNext(deliveries: seq<Delivery>, now: nat, d: nat) {
    && d < |deliveries| && deliveries[d].status.Waiting? && deliveries[d].availableAt <= now
    && forall i :: 0 <= i < d ==> !(deliveries[i].status.Waiting? && deliveries[i].availableAt <= now)
  }

  function FindNext(deliveries: seq<Delivery>, now: nat, from: nat): (r: Option<nat>)
    requires from <= |deliveries|
    ensures r.Some? ==>
      && from <= r.value < |deliveries| && deliveries[r.value].status.Waiting? && deliveries[r.value].availableAt <= now
      && forall i :: from <= i < r.value ==> !(deliveries[i].status.Waiting? && deliveries[i].availableAt <= now)
    ensures r.None? ==> forall i :: from <= i < |deliveries| ==>
      !(deliveries[i].status.Waiting? && deliveries[i].availableAt <= now)
    decreases |deliveries| - from
  {
    if from == |deliveries| then None
    else if deliveries[from].status.Waiting? && deliveries[from].availableAt <= now then Some(from)
    else FindNext(deliveries, now, from + 1)
  }

  /** `_claim`: the only transaction without an audit entry. */
  function ClaimDelivery(db: Db, d: nat, until: nat, worker: nat): Db
    requires d < |db.deliveries|
  {
    Put(db, d, db.deliveries[d].(status := Sending, attempts := db.deliveries[d].attempts + 1,
                                 lease := Some(until), worker := Some(worker)))
  }

  function Settled(row: Delivery, status: DeliveryStatus): Delivery {
    row.(status := status, lease := None, worker := None)
  }

  /** `_ensure_escalation` */
  function EnsureEscalation(db: Db, action: nat, c: nat): (r: Db)
    ensures r == db.(reviews := r.reviews, audit := r.audit, convs := r.convs)
  {
    var db1 :=
      if action in db.reviews then db
      else db.(reviews := db.reviews[action := Review(Escalation, Pending, "", 1)],
               audit := db.audit + [ReviewEntry(action, Pending)]);
    if c < |db.convs| then
      db1.(convs := db.convs[c := db.convs[c].(paused := true, status := PendingReview)])
    else db1
  }

  /** One turn of the loop of `recover_stale`; an attempt row that already exists is kept. */
  function RecoverDelivery(db: Db, d: nat): (r: Db)
    requires d < |db.deliveries|
    ensures r == db.(deliveries := r.deliveries, attempts := r.attempts, reviews := r.reviews, audit := r.audit,
                     convs := r.convs)
    ensures r.deliveries == db.deliveries[d := Settled(db.deliveries[d], Unknown)]
    ensures var key := (d, db.deliveries[d].attempts);
      r.attempts == if key in db.attempts then db.attempts else db.attempts[key := WasUnknown]
  {
    var row := db.deliveries[d];
    var key := (d, row.attempts);
    var db1 := Put(db, d, Settled(row, Unknown));
    var db2 := db1.(attempts := if key in db.attempts then db.attempts else db.attempts[key := WasUnknown]);
    var db3 := EnsureEscalation(db2, row.intent.action, row.intent.conv);
    db3.(audit := db3.audit + [DeliveryEntry(d, Unknown)])
  }

  predicate Expired(row: Delivery, now: nat) {
    row.status.Sending? && row.lease.Some? && row.lease.value <= now
  }

  function ExpiredDeliveries(deliveries: seq<Delivery>, now: nat, n: nat): (ids: seq<nat>)
    requires n <= |deliveries|
    ensures forall k :: 0 <= k < |ids| ==> ids[k] < n && Expired(deliveries[ids[k]], now)
    ensures forall i: nat :: i < n && Expired(deliveries[i], now) ==> i in ids
    ensures forall k, l :: 0 <= k < l < |ids| ==> ids[k] < ids[l]
  {
    if n == 0 then []
    else
      var ids := ExpiredDeliveries(deliveries, now, n - 1);
      if Expired(deliveries[n - 1], now) then ids + [n - 1] else ids
  }

  function RecoverAll(db: Db, ids: seq<nat>): (r: Db)
    requires forall k :: 0 <= k < |ids| ==> ids[k] < |db.deliveries|
    ensures |r.deliveries| == |db.deliveries|
    ensures r == db.(deliveries := r.deliveries, attempts := r.attempts, reviews := r.reviews, audit := r.audit,
                     convs := r.convs)
  {
    if ids == [] then db
    else
      var r := RecoverAll(db, ids[..|ids| - 1]);
      RecoverDelivery(r, ids[|ids| - 1])
  }

  /** `DeliveryExecutor.recover_stale` */
  function RecoverDeliveries(db: Db, now: nat): (r: Db)
    ensures |r.deliveries| == |db.deliveries|
    ensures r == db.(deliveries := r.deliveries, attempts := r.attempts, reviews := r.reviews, audit := r.audit,
                     convs := r.convs)
  {
    RecoverAll(db, ExpiredDeliveries(db.deliveries, now, |db.deliveries|))
  }

  predicate NewerEvent(events: seq<Event>, c: nat, e: nat) {
    exists i :: e < i < |events| && events[i].conv == c
  }

  /** `_permission_reason`: why this delivery must not go out now, if anything. */
  function PermissionReason(db: Db, cfg: Config, d: nat): Option<Refusal>
    requires d < |db.deliveries|
  {
    var t := db.deliveries[d].intent;
    if t.action >= |db.actions| || t.action !in db.policies || t.conv >= |db.convs|
       || !db.policies[t.action].Allowed? then Some(PolicyBlock)
    else if t.author.Agent? && db.convs[t.conv].paused then Some(PolicyBlock)
    else if ModeRefusal(db.mode, t.customer, cfg.canary).Some? then ModeRefusal(db.mode, t.customer, cfg.canary)
    else if Strip(t.customer) == "" || |Strip(t.customer)| > 200 then Some(InvalidRecipient)
    else if !cfg.sendEnabled then Some(SendDisabled)
    else if t.account !in cfg.tokens then Some(AccountNotConfigured)
    else if !cfg.tokens[t.account] then Some(MissingAccessToken)
    else if t.account !in cfg.senders then Some(AccountNotConfigured)
    else if t.author.Agent? && NewerEvent(db.events, t.conv, db.actions[t.action].event) then Some(IdempotencyGuard)
    else None
  }

  /** `_suppress`: by id, whatever the row's status has become; None when a constraint fails. */
  function Suppress(db: Db, d: nat): (r: Option<Db>)
    requires d < |db.deliveries|
    ensures r.None? ==> (db.deliveries[d].intent.action, 1) in db.revisions
                        && db.deliveries[d].intent.action !in db.reviews && db.deliveries[d].intent.author.Agent?
    ensures r.Some? ==>
      && r.value.deliveries == db.deliveries[d := Settled(db.deliveries[d], Withheld)]
      && |r.value.convs| == |db.convs|
      && (var t := db.deliveries[d].intent;
          if t.author.Agent? && t.action !in db.reviews then
            && r.value.reviews == db.reviews[t.action := Review(Draft, Pending, t.text, 1)]
            && r.value.revisions == db.revisions[(t.action, 1) := t.text]
          else r.value.reviews == db.reviews && r.value.revisions == db.revisions)
      && r.value == db.(deliveries := r.value.deliveries, actionStates := r.value.actionStates,
                        reviews := r.value.reviews, revisions := r.value.revisions, convs := r.value.convs,
                        audit := r.value.audit)
  {
    var row := db.deliveries[d];
    var t := row.intent;
    var db1 := Put(db, d, Settled(row, Withheld))
      .(actionStates := db.actionStates[t.action := ActionSuppressed]);
    var reviewed := if t.author.Agent? && t.action !in db.reviews then CreateReview(db1, t.action, Draft, t.text)
                    else Some(db1);
    if reviewed.None? then None
    else
      var db2 := if t.author.Agent? && t.conv < |db.convs| then SetStatus(reviewed.value, t.conv, PendingReview)
                 else reviewed.value;
      Some(db2.(audit := db2.audit + [DeliveryEntry(d, Withheld)]))
  }

  predicate HasOutbound(messages: seq<Message>, d: nat) {
    exists i :: 0 <= i < |messages| && messages[i].source == FromDelivery(d)
  }

  /** The recording transaction of `run_once`; it rolls back when this attempt, or a message of this delivery,
      is already recorded. */
  function FinishSent(db: Db, d: nat, attempt: nat): (r: Option<Db>)
    requires d < |db.deliveries|
    ensures r.Some? ==>
      && r.value.deliveries == db.deliveries[d := Settled(db.deliveries[d], Sent)]
      && r.value == db.(deliveries := r.value.deliveries, attempts := r.value.attempts, messages := r.value.messages,
                        actionStates := r.value.actionStates, convs := r.value.convs, audit := r.value.audit)
  {
    var row := db.deliveries[d];
    if (d, attempt) in db.attempts || HasOutbound(db.messages, d) then None
    else
      var db1 := Put(db, d, Settled(row, Sent))
        .(attempts := db.attempts[(d, attempt) := WasSent],
          messages := db.messages + [Message(row.intent.conv, FromDelivery(d), row.intent.text)],
          actionStates := db.actionStates[row.intent.action := ActionSent]);
      var db2 := if row.intent.conv < |db.convs| then SetStatus(db1, row.intent.conv, Closed) else db1;
      Some(db2.(audit := db2.audit + [DeliveryEntry(d, Sent)]))
  }

  /** `_finish_error`; it rolls back when this attempt is already recorded. */
  function FinishError(db: Db, d: nat, attempt: nat, ambiguous: bool): (r: Option<Db>)
    requires d < |db.deliveries|
    ensures r.Some? <==> (d, attempt) !in db.attempts
    ensures r.Some? ==>
      && r.value.deliveries == db.deliveries[d := Settled(db.deliveries[d], if ambiguous then Unknown else Failed)]
      && r.value.attempts == db.attempts[(d, attempt) := if ambiguous then WasUnknown else WasRejected]
      && r.value == db.(deliveries := r.value.deliveries, attempts := r.value.attempts, reviews := r.value.reviews,
                        actionStates := r.value.actionStates, audit := r.value.audit, convs := r.value.convs)
  {
    var row := db.deliveries[d];
    var status := if ambiguous then Unknown else Failed;
    if (d, attempt) in db.attempts then None
    else
      var db1 := Put(db, d, Settled(row, status))
        .(attempts := db.attempts[(d, attempt) := if ambiguous then WasUnknown else WasRejected],
          actionStates := db.actionStates[row.intent.action := ActionFailed]);
      var db2 := EnsureEscalation(db1, row.intent.action, row.intent.conv);
      Some(db2.(audit := db2.audit + [DeliveryEntry(d, status)]))
  }
}
