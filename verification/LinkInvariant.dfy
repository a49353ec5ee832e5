/** How the tables refer to each other, and what never changes once it is written. */
module LinkInvariant {
  import opened Types
  import opened Text
  import opened WorkspaceModel
  import opened QueueModel
  import opened DeliveryModel
  import opened WorkerModel
  import opened System

  // ------------------------------------------------------------------ growth

  ghost predicate IntentsKept(a: seq<Delivery>, b: seq<Delivery>) {
    |a| <= |b| && forall d :: 0 <= d < |a| ==> b[d].intent == a[d].intent
  }

  ghost predicate PoliciesKept(a: map<nat, Outcome>, b: map<nat, Outcome>) {
    forall k :: k in a ==> k in b && b[k] == a[k]
  }

  ghost predicate ReviewsKept(a: map<nat, Review>, b: map<nat, Review>) {
    forall r :: r in a ==> r in b && b[r].kind == a[r].kind
  }

  /** No step removes a row, nor changes an event, an action, a policy decision or what a delivery says. */
  ghost predicate Grows(a: Db, b: Db) {
    && a.events <= b.events && a.actions <= b.actions && |a.convs| <= |b.convs|
    && PoliciesKept(a.policies, b.policies)
    && ReviewsKept(a.reviews, b.reviews)
    && IntentsKept(a.deliveries, b.deliveries)
  }

  // -------------------------------------------------------------------- links

  /** A delivery says it was allowed, speaks in the conversation of the event its action answers, and is a bot's
      exactly when its action is the agent's. */
  predicate IntentOk(events: seq<Event>, actions: seq<Action>, policies: map<nat, Outcome>, t: Intent) {
    && t.action < |actions| && t.action in policies && policies[t.action].Allowed?
    && actions[t.action].event < |events| && t.conv == events[actions[t.action].event].conv
    && t.author == actions[t.action].author
  }

  ghost predicate ActionRows(events: seq<Event>, actions: seq<Action>, policies: map<nat, Outcome>) {
    && (forall a :: 0 <= a < |actions| ==>
          actions[a].event == actions[a].job < |events| && a in policies)
    && (forall k :: k in policies ==> k < |actions|)
  }

  ghost predicate DeliveryRows(events: seq<Event>, actions: seq<Action>, policies: map<nat, Outcome>,
                               deliveries: seq<Delivery>) {
    && (forall d :: 0 <= d < |deliveries| ==> IntentOk(events, actions, policies, deliveries[d].intent))
    && (forall c, d :: 0 <= c < d < |deliveries| ==> deliveries[c].intent.action != deliveries[d].intent.action)
  }

  ghost predicate ReviewRows(actions: seq<Action>, reviews: map<nat, Review>) {
    forall r :: r in reviews ==> r < |actions|
  }

  ghost predicate LinkInv(db: Db) {
    && ActionRows(db.events, db.actions, db.policies)
    && DeliveryRows(db.events, db.actions, db.policies, db.deliveries)
    && ReviewRows(db.actions, db.reviews)
  }

  /** A draft has a revision for each version up to its own, the last one being its current text. */
  ghost predicate DraftOk(r: nat, review: Review, revisions: map<(nat, nat), string>) {
    review.kind.Draft? ==>
      && review.version >= 1 && (r, review.version) in revisions && revisions[(r, review.version)] == review.text
      && forall v: nat :: 1 <= v <= review.version ==> (r, v) in revisions
  }

  predicate RevisionOk(k: (nat, nat), reviews: map<nat, Review>) {
    k.0 in reviews && reviews[k.0].kind.Draft? && 1 <= k.1 <= reviews[k.0].version
  }

  /** Every draft has exactly the revisions 1 .. version. */
  ghost predicate DraftInv(reviews: map<nat, Review>, revisions: map<(nat, nat), string>) {
    && (forall r :: r in reviews ==> DraftOk(r, reviews[r], revisions))
    && (forall k :: k in revisions ==> RevisionOk(k, reviews))
  }

  // -------------------------------------------------- transactions that grow

  lemma RowsWritten(a: seq<Delivery>, d: nat, row: Delivery)
    requires d < |a| && row.intent == a[d].intent
    ensures IntentsKept(a, a[d := row])
  {}

  lemma NewReviewKeeps(reviews: map<nat, Review>, revisions: map<(nat, nat), string>, a: nat, kind: ReviewKind,
                       text: string)
    requires DraftInv(reviews, revisions) && a !in reviews
    ensures var reviews' := reviews[a := Review(kind, Pending, text, 1)];
      && DraftInv(reviews', if kind.Draft? then revisions[(a, 1) := text] else revisions)
      && ReviewsKept(reviews, reviews')
    ensures (a, 1) !in revisions
  {
    var reviews' := reviews[a := Review(kind, Pending, text, 1)];
    var revisions' := if kind.Draft? then revisions[(a, 1) := text] else revisions;
    assert (a, 1) in revisions ==> RevisionOk((a, 1), reviews);
    forall r | r in reviews'
      ensures DraftOk(r, reviews'[r], revisions')
    {
      if r != a {
        assert DraftOk(r, reviews[r], revisions);
      }
    }
    forall k | k in revisions'
      ensures RevisionOk(k, reviews')
    {
      if k in revisions {
        assert RevisionOk(k, reviews);
      }
    }
  }

  lemma EscalationKeeps(db: Db, action: nat, c: nat)
    requires ReviewRows(db.actions, db.reviews) && DraftInv(db.reviews, db.revisions) && action < |db.actions|
    ensures var db' := EnsureEscalation(db, action, c);
      && ReviewsKept(db.reviews, db'.reviews) && ReviewRows(db.actions, db'.reviews)
      && DraftInv(db'.reviews, db.revisions) && |db'.convs| == |db.convs| && action in db'.reviews
  {
    if action !in db.reviews {
      NewReviewKeeps(db.reviews, db.revisions, action, Escalation, "");
    }
  }

  lemma CreateReviewKeeps(db: Db, action: nat, kind: ReviewKind, text: string)
    requires ReviewRows(db.actions, db.reviews) && DraftInv(db.reviews, db.revisions)
    requires action < |db.actions| && action !in db.reviews
    ensures var r := CreateReview(db, action, kind, text);
      && r.Some?
      && ReviewsKept(db.reviews, r.value.reviews) && ReviewRows(db.actions, r.value.reviews)
      && DraftInv(r.value.reviews, r.value.revisions) && action in r.value.reviews
  {
    NewReviewKeeps(db.reviews, db.revisions, action, kind, text);
  }

  lemma SameIntents(db: Db, rows: seq<Delivery>)
    requires LinkInv(db) && IntentsKept(db.deliveries, rows) && |rows| == |db.deliveries|
    ensures DeliveryRows(db.events, db.actions, db.policies, rows)
  {
    assert forall d :: 0 <= d < |rows| ==> rows[d].intent == db.deliveries[d].intent;
  }

  /** A new action with its policy decision. */
  lemma NewActionKeeps(db: Db, action: Action, outcome: Outcome)
    requires LinkInv(db) && action.event == action.job < |db.events|
    ensures var actions, policies := db.actions + [action], db.policies[|db.actions| := outcome];
      && ActionRows(db.events, actions, policies) && PoliciesKept(db.policies, policies)
      && DeliveryRows(db.events, actions, policies, db.deliveries) && ReviewRows(actions, db.reviews)
      && forall d :: 0 <= d < |db.deliveries| ==> db.deliveries[d].intent.action != |db.actions|
  {
    var actions, policies := db.actions + [action], db.policies[|db.actions| := outcome];
    forall d | 0 <= d < |db.deliveries|
      ensures IntentOk(db.events, actions, policies, db.deliveries[d].intent)
    {
      assert IntentOk(db.events, db.actions, db.policies, db.deliveries[d].intent);
    }
  }

  /** Queueing a delivery for an action that has none. */
  lemma EnqueueDeliveryKeeps(db: Db, t: Intent, now: nat)
    requires LinkInv(db) && IntentOk(db.events, db.actions, db.policies, t)
    requires forall d :: 0 <= d < |db.deliveries| ==> db.deliveries[d].intent.action != t.action
    requires EnqueueDelivery(db, Instagram, t, now).Some?
    ensures var rows := EnqueueDelivery(db, Instagram, t, now).value.deliveries;
      && IntentsKept(db.deliveries, rows) && DeliveryRows(db.events, db.actions, db.policies, rows)
      && rows == db.deliveries + [NewDelivery(t.(text := Strip(t.text)), now)]
  {}

  /** New events leave every link in place. */
  lemma NewEventsKeep(db: Db, events: seq<Event>)
    requires LinkInv(db) && db.events <= events
    ensures LinkInv(db.(events := events))
  {
    forall d | 0 <= d < |db.deliveries|
      ensures IntentOk(events, db.actions, db.policies, db.deliveries[d].intent)
    {
      assert IntentOk(db.events, db.actions, db.policies, db.deliveries[d].intent);
    }
  }

  // ------------------------------------------------------ each transaction

  ghost predicate Linked(before: Db, after: Db) {
    LinkInv(after) && DraftInv(after.reviews, after.revisions) && Grows(before, after)
  }

  /** Nothing that the links speak about has changed. */
  lemma Untouched(before: Db, after: Db)
    requires LinkInv(before) && DraftInv(before.reviews, before.revisions)
    requires after.events == before.events && after.actions == before.actions && |after.convs| >= |before.convs|
    requires after.policies == before.policies && after.reviews == before.reviews
    requires after.revisions == before.revisions && after.deliveries == before.deliveries
    ensures Linked(before, after)
  {}

  /** The three ways of the deciding transaction, one by one. */
  lemma CommitBranches(db: Db, cfg: Config, j: nat, d: Decision, outcome: Outcome, mode: Mode, now: nat)
    requires j < |db.jobs| && db.jobs[j].event < |db.events|
    ensures var event, a := db.events[db.jobs[j].event], |db.actions|;
      var db1 := RecordDecision(db, j, Intended(d), outcome, now);
      var r := CommitDecision(db, cfg, j, d, outcome, mode, now);
      && (Queues(db, cfg, j, outcome, mode) ==>
            var queued := EnqueueDelivery(db1, Instagram, Intent(a, event.conv, event.msg.recipient,
                                                                 event.msg.sender, d.text, Agent), now);
            r == if queued.None? then None
                 else Some(queued.value.(actionStates := db.actionStates[a := AwaitingDelivery])))
      && (!Queues(db, cfg, j, outcome, mode) && Intended(d).NoAction? && outcome.Ignored? ==>
            r == Some(db1.(actionStates := db.actionStates[a := ActionIgnored])))
      && (!Queues(db, cfg, j, outcome, mode) && !(Intended(d).NoAction? && outcome.Ignored?) ==>
            var kind := if d.text != "" then Draft else ReviewKind.Escalation;
            var reviewed := CreateReview(db1, a, kind, d.text);
            r == if reviewed.None? then None
                 else
                   var db2 := reviewed.value.(actionStates := db.actionStates[a := AwaitingReview]);
                   Some(if event.conv < |db.convs| then SetStatus(db2, event.conv, PendingReview) else db2))
  {
    hide EnqueueDelivery, CreateReview, Intended;
  }

  /** The deciding transaction, branch by branch: what it adds besides its action and policy rows. */
  lemma CommitShape(db: Db, cfg: Config, j: nat, d: Decision, outcome: Outcome, mode: Mode, now: nat)
    requires Aligned(db) && j < |db.jobs|
    requires CommitDecision(db, cfg, j, d, outcome, mode, now).Some?
    ensures var e, a := db.events[j], |db.actions|;
      var db1 := RecordDecision(db, j, Intended(d), outcome, now);
      var r := CommitDecision(db, cfg, j, d, outcome, mode, now).value;
      && r.actions == db1.actions && r.policies == db1.policies && |r.convs| == |db.convs|
      && if Queues(db, cfg, j, outcome, mode) then
           && r.reviews == db.reviews && r.revisions == db.revisions
           && var q := EnqueueDelivery(db1, Instagram,
                                       Intent(a, e.conv, e.msg.recipient, e.msg.sender, d.text, Agent), now);
              q.Some? && r.deliveries == q.value.deliveries && r.audit == q.value.audit
         else if Intended(d).NoAction? && outcome.Ignored? then
           r.reviews == db.reviews && r.revisions == db.revisions && r.deliveries == db.deliveries && r.audit == db.audit
         else
           && r.deliveries == db.deliveries
           && var q := CreateReview(db1, a, if d.text != "" then Draft else Escalation, d.text);
              q.Some? && r.reviews == q.value.reviews && r.revisions == q.value.revisions && r.audit == q.value.audit
  {
    hide EnqueueDelivery, CreateReview, Intended, Queues, SetStatus, CommitDecision;
    CommitBranches(db, cfg, j, d, outcome, mode, now);
  }

  lemma CommitKeeps(db: Db, cfg: Config, j: nat, d: Decision, outcome: Outcome, mode: Mode, now: nat)
    requires LinkInv(db) && DraftInv(db.reviews, db.revisions) && Aligned(db) && j < |db.jobs|
    requires CommitDecision(db, cfg, j, d, outcome, mode, now).Some?
    ensures Linked(db, CommitDecision(db, cfg, j, d, outcome, mode, now).value)
  {
    hide CommitDecision, EnqueueDelivery, CreateReview, DraftInv;
    var e := db.events[j];
    var db1 := RecordDecision(db, j, Intended(d), outcome, now);
    NewActionKeeps(db, Action(j, j, Intended(d), Agent, now), outcome);
    CommitShape(db, cfg, j, d, outcome, mode, now);
    if Queues(db, cfg, j, outcome, mode) {
      EnqueueDeliveryKeeps(db1, Intent(|db.actions|, e.conv, e.msg.recipient, e.msg.sender, d.text, Agent), now);
    } else if !(Intended(d).NoAction? && outcome.Ignored?) {
      CreateReviewKeeps(db1, |db.actions|, if d.text != "" then Draft else Escalation, d.text);
    }
  }

  lemma ReplyKeeps(db: Db, c: nat, text: string, now: nat)
    requires LinkInv(db) && DraftInv(db.reviews, db.revisions)
    requires CreateHumanReply(db, c, text, now).Some?
    ensures Linked(db, CreateHumanReply(db, c, text, now).value)
  {
    var e := LatestEvent(db.events, c).value;
    var a := |db.actions|;
    NewActionKeeps(db, Action(e, e, HumanReply, Human, now), Allowed);
    var db1 := db.(actions := db.actions + [Action(e, e, HumanReply, Human, now)],
                   actionStates := db.actionStates[a := AwaitingDelivery], policies := db.policies[a := Allowed]);
    EnqueueDeliveryKeeps(db1, Intent(a, c, db.accounts[db.convs[c].account].external, db.convs[c].customer,
                                     Strip(text), Human), now);
  }

  lemma SuppressLinks(db: Db, d: nat)
    requires LinkInv(db) && DraftInv(db.reviews, db.revisions) && d < |db.deliveries|
    ensures Suppress(db, d).Some? && Linked(db, Suppress(db, d).value)
  {
    hide Suppress;
    var t := db.deliveries[d].intent;
    var row := Settled(db.deliveries[d], Withheld);
    assert IntentOk(db.events, db.actions, db.policies, t);
    RowsWritten(db.deliveries, d, row);
    SameIntents(db, db.deliveries[d := row]);
    if t.author.Agent? && t.action !in db.reviews {
      NewReviewKeeps(db.reviews, db.revisions, t.action, Draft, t.text);
    }
  }

  lemma FinishSentLinks(db: Db, d: nat, n: nat)
    requires LinkInv(db) && DraftInv(db.reviews, db.revisions) && d < |db.deliveries|
    requires FinishSent(db, d, n).Some?
    ensures Linked(db, FinishSent(db, d, n).value)
  {
    RowsWritten(db.deliveries, d, Settled(db.deliveries[d], Sent));
    SameIntents(db, db.deliveries[d := Settled(db.deliveries[d], Sent)]);
  }

  lemma FinishErrorLinks(db: Db, d: nat, n: nat, ambiguous: bool)
    requires LinkInv(db) && DraftInv(db.reviews, db.revisions) && d < |db.deliveries|
    requires FinishError(db, d, n, ambiguous).Some?
    ensures Linked(db, FinishError(db, d, n, ambiguous).value)
  {
    var row := Settled(db.deliveries[d], if ambiguous then Unknown else Failed);
    assert IntentOk(db.events, db.actions, db.policies, db.deliveries[d].intent);
    RowsWritten(db.deliveries, d, row);
    SameIntents(db, db.deliveries[d := row]);
    var db1 := Put(db, d, row)
      .(attempts := db.attempts[(d, n) := if ambiguous then WasUnknown else WasRejected],
        actionStates := db.actionStates[row.intent.action := ActionFailed]);
    EscalationKeeps(db1, row.intent.action, row.intent.conv);
  }

  lemma RecoverLinks(db: Db, d: nat)
    requires LinkInv(db) && DraftInv(db.reviews, db.revisions) && d < |db.deliveries|
    ensures Linked(db, RecoverDelivery(db, d))
  {
    var row := Settled(db.deliveries[d], Unknown);
    assert IntentOk(db.events, db.actions, db.policies, db.deliveries[d].intent);
    RowsWritten(db.deliveries, d, row);
    SameIntents(db, db.deliveries[d := row]);
    var key := (d, db.deliveries[d].attempts);
    var db1 := Put(db, d, row).(attempts := if key in db.attempts then db.attempts else db.attempts[key := WasUnknown]);
    EscalationKeeps(db1, row.intent.action, row.intent.conv);
  }

  lemma {:induction false} RecoverAllLinks(db: Db, ids: seq<nat>)
    requires LinkInv(db) && DraftInv(db.reviews, db.revisions)
    requires forall k :: 0 <= k < |ids| ==> ids[k] < |db.deliveries|
    ensures Linked(db, RecoverAll(db, ids))
  {
    if ids != [] {
      var n := |ids| - 1;
      RecoverAllLinks(db, ids[..n]);
      RecoverLinks(RecoverAll(db, ids[..n]), ids[n]);
    }
  }

  lemma ClaimLinks(db: Db, d: nat, until: nat, w: nat)
    requires LinkInv(db) && DraftInv(db.reviews, db.revisions) && d < |db.deliveries|
    ensures Linked(db, ClaimDelivery(db, d, until, w))
  {
    SameIntents(db, ClaimDelivery(db, d, until, w).deliveries);
  }

  lemma EditKeeps(db: Db, r: nat, text: string)
    requires LinkInv(db) && DraftInv(db.reviews, db.revisions)
    ensures !EditReview(db, r, text).VersionTaken?
    ensures EditReview(db, r, text).Edited? ==> Linked(db, EditReview(db, r, text).db)
  {
    hide ActionRows, DeliveryRows, DraftInv, Strip;
    if r in db.reviews && db.reviews[r].kind.Draft? {
      NextVersionKeeps(db.reviews, db.revisions, r, Strip(text));
    }
  }

  /** The next version of a draft is free, and writing it keeps the log contiguous. */
  lemma NextVersionKeeps(reviews: map<nat, Review>, revisions: map<(nat, nat), string>, r: nat, text: string)
    requires DraftInv(reviews, revisions) && r in reviews && reviews[r].kind.Draft?
    ensures var v := reviews[r].version + 1;
      var edited := reviews[r := reviews[r].(text := text, version := v)];
      (r, v) !in revisions && DraftInv(edited, revisions[(r, v) := text]) && ReviewsKept(reviews, edited)
  {
    assert forall v: nat :: (r, v) in revisions ==> RevisionOk((r, v), reviews);
    var v := reviews[r].version + 1;
    var edited, written := reviews[r := reviews[r].(text := text, version := v)], revisions[(r, v) := text];
    forall q | q in edited
      ensures DraftOk(q, edited[q], written)
    {
      assert DraftOk(q, reviews[q], revisions);
    }
    forall k | k in written
      ensures RevisionOk(k, edited)
    {
      assert k in revisions ==> RevisionOk(k, reviews);
    }
  }

  /** Moving a review writes its status, its action's state and a conversation's status. */
  lemma TransitionShape(db: Db, r: nat, target: ReviewStatus)
    requires !target.Pending? && TransitionReview(db, r, target).Moved?
    ensures var after := TransitionReview(db, r, target).db;
      && r in db.reviews && after.reviews == db.reviews[r := db.reviews[r].(status := target)]
      && |after.convs| == |db.convs|
  {
    hide HasPending;
  }

  lemma MovedReviewKeeps(reviews: map<nat, Review>, revisions: map<(nat, nat), string>, r: nat, target: ReviewStatus)
    requires DraftInv(reviews, revisions) && r in reviews
    ensures DraftInv(reviews[r := reviews[r].(status := target)], revisions)
    ensures ReviewsKept(reviews, reviews[r := reviews[r].(status := target)])
  {}

  lemma TransitionKeeps(db: Db, r: nat, target: ReviewStatus)
    requires LinkInv(db) && DraftInv(db.reviews, db.revisions) && !target.Pending?
    ensures TransitionReview(db, r, target).Moved? ==> Linked(db, TransitionReview(db, r, target).db)
  {
    hide TransitionReview, DraftInv, ActionRows, DeliveryRows;
    if TransitionReview(db, r, target).Moved? {
      TransitionShape(db, r, target);
      MovedReviewKeeps(db.reviews, db.revisions, r, target);
    }
  }

  lemma EnqueueLinks(db: Db, m: Inbound, now: nat, debounce: nat)
    requires LinkInv(db) && DraftInv(db.reviews, db.revisions) && Enqueue(db, m, now, debounce).Some?
    ensures Linked(db, Enqueue(db, m, now, debounce).value.db)
  {
    hide EnsureConversation, ActionRows, DeliveryRows, DraftInv, Postpone, FindEvent;
    EnqueueGrows(db, m, now, debounce);
    NewEventsKeep(db, Enqueue(db, m, now, debounce).value.db.events);
  }

  lemma EnqueueGrows(db: Db, m: Inbound, now: nat, debounce: nat)
    requires Enqueue(db, m, now, debounce).Some?
    ensures var after := Enqueue(db, m, now, debounce).value.db;
      db.events <= after.events && |db.convs| <= |after.convs|
  {
    hide Clashes, FindAccount, FindConversation, Postpone, FindEvent;
  }

  lemma {:induction false} EnqueueAllLinks(db: Db, msgs: seq<Inbound>, now: nat, debounce: nat)
    requires LinkInv(db) && DraftInv(db.reviews, db.revisions) && EnqueueAll(db, msgs, now, debounce).Some?
    ensures Linked(db, EnqueueAll(db, msgs, now, debounce).value.db)
  {
    hide Enqueue;
    if msgs != [] {
      var n := |msgs| - 1;
      EnqueueAllLinks(db, msgs[..n], now, debounce);
      EnqueueLinks(EnqueueAll(db, msgs[..n], now, debounce).value.db, msgs[n], now, debounce);
    }
  }

  // ------------------------------------------------------------- every step

  lemma ActLinks(s: Sys, w: nat, a: Act)
    requires LinkInv(s.db) && DraftInv(s.db.reviews, s.db.revisions) && Aligned(s.db) && CanAct(s, w, a)
    ensures Linked(s.db, DbAfter(s, w, a))
  {
    hide Linked, LinkInv, DraftInv, CanAct, DbAfter;
    if a.CommitAnswer? || a.TakeDelivery? {
      DecidingLinks(s, w, a);
    } else if a.Withhold? || a.RecordSent? || a.RecordError? {
      SettlingLinks(s, w, a);
    } else {
      OtherLinks(s, w, a);
    }
  }

  lemma DecidingLinks(s: Sys, w: nat, a: Act)
    requires LinkInv(s.db) && DraftInv(s.db.reviews, s.db.revisions) && Aligned(s.db) && CanAct(s, w, a)
    requires a.CommitAnswer? || a.TakeDelivery?
    ensures Linked(s.db, DbAfter(s, w, a))
  {
    hide Linked, LinkInv, DraftInv, CommitDecision, PolicyOutcome, ClaimDelivery;
    Untouched(s.db, s.db);
    var p, db := s.workers[w], s.db;
    match a
    case CommitAnswer(f, now) =>
      var outcome := PolicyOutcome(db, p, f);
      if CommitDecision(db, s.cfg, p.job, p.stage.decision, outcome, p.stage.mode, now).Some? {
        CommitKeeps(db, s.cfg, p.job, p.stage.decision, outcome, p.stage.mode, now);
      }
    case TakeDelivery(next, now, until) => ClaimLinks(db, next, until, w);
  }

  lemma SettlingLinks(s: Sys, w: nat, a: Act)
    requires LinkInv(s.db) && DraftInv(s.db.reviews, s.db.revisions) && Aligned(s.db) && CanAct(s, w, a)
    requires a.Withhold? || a.RecordSent? || a.RecordError?
    ensures Linked(s.db, DbAfter(s, w, a))
  {
    hide Linked, LinkInv, DraftInv, FinishSent, FinishError;
    Untouched(s.db, s.db);
    var p, db := s.workers[w], s.db;
    match a
    case Withhold => SuppressLinks(db, p.delivery);
    case RecordSent =>
      if FinishSent(db, p.delivery, p.attempt).Some? { FinishSentLinks(db, p.delivery, p.attempt); }
    case RecordError =>
      if FinishError(db, p.delivery, p.attempt, p.leg.ambiguous).Some? {
        FinishErrorLinks(db, p.delivery, p.attempt, p.leg.ambiguous);
      }
  }

  lemma OtherLinks(s: Sys, w: nat, a: Act)
    requires LinkInv(s.db) && DraftInv(s.db.reviews, s.db.revisions) && Aligned(s.db) && CanAct(s, w, a)
    requires !a.CommitAnswer? && !a.TakeDelivery? && !a.Withhold? && !a.RecordSent? && !a.RecordError?
    ensures Linked(s.db, DbAfter(s, w, a))
  {
    hide Linked, LinkInv, DraftInv, Claim, Fail, Complete, Supersede, IsOldest, IsNewest, IsFirstAction, LogJobs;
    Untouched(s.db, DbAfter(s, w, a));
  }

  lemma OperationLinks(db: Db, op: Operation)
    requires LinkInv(db) && DraftInv(db.reviews, db.revisions) && Aligned(db) && CanOperate(op)
    ensures Linked(db, Operated(db, op))
  {
    hide Linked, CreateHumanReply, EditReview, TransitionReview, Retry, Dismiss;
    Untouched(db, db);
    match op
    case Reply(c, text, now) =>
      if CreateHumanReply(db, c, text, now).Some? { ReplyKeeps(db, c, text, now); }
    case Edit(r, text) => EditKeeps(db, r, text);
    case Transition(r, target) => TransitionKeeps(db, r, target);
    case RetryJob(j, now) => Untouched(db, OrElse(Retry(db, j, now), db));
    case DismissJob(j) => Untouched(db, OrElse(Dismiss(db, j), db));
    case SetPaused(c, paused) => Untouched(db, SetBotPaused(db, c, paused));
    case SetConvStatus(c, status) => Untouched(db, SetConversationStatus(db, c, status));
    case SetMode(mode) => Untouched(db, db.(mode := mode));
  }

  lemma StepLinks(s: Sys, step: Step)
    requires LinkInv(s.db) && DraftInv(s.db.reviews, s.db.revisions) && Enabled(s, step)
    ensures Linked(s.db, Next(s, step).db)
  {
    hide Linked, LinkInv, DraftInv, Enqueue, Webhook, DbAfter, PcAfter, Operated, RecoverAll, RecoverStale, CanAct,
      FromInstagram;
    Untouched(s.db, s.db);
    match step
    case Ingest(m, now, debounce) =>
      if Enqueue(s.db, m, now, debounce).Some? { EnqueueLinks(s.db, m, now, debounce); }
    case Post(digest, msgs, ignored, now, debounce) => WebhookLinks(s.db, digest, msgs, ignored, now, debounce);
    case RecoverJobs(now) => Untouched(s.db, RecoverStale(s.db, s.cfg.maxAttempts, now));
    case RecoverSends(now) =>
      RecoverAllLinks(s.db, ExpiredDeliveries(s.db.deliveries, now, |s.db.deliveries|));
    case Work(w, a) => ActLinks(s, w, a);
    case Operate(op) => OperationLinks(s.db, op);
  }

  lemma WebhookLinks(db: Db, digest: string, msgs: seq<Inbound>, ignored: nat, now: nat, debounce: nat)
    requires LinkInv(db) && DraftInv(db.reviews, db.revisions)
    ensures Linked(db, OrElse(Webhook(db, digest, msgs, ignored, now, debounce), db))
  {
    hide EnqueueAll, ActionRows, DeliveryRows, DraftInv;
    Untouched(db, db);
    if !HasReceipt(db.receipts, digest) && EnqueueAll(db, msgs, now, debounce).Some? {
      EnqueueAllLinks(db, msgs, now, debounce);
    }
  }
}
