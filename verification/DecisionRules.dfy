/** What becomes of an agent's decision: which ones may be sent or dropped, and what the deciding and executing
    transactions write. */
module DecisionRules {
  import opened Types
  import opened Text
  import opened WorkspaceModel
  import opened DeliveryModel
  import opened WorkerModel
  import opened LinkInvariant
  import opened DeliveryRules
  import opened WorkspaceRules
  import opened Gates
  import Policy

  // ---------------------------------------------------------------- verdicts

  /** A decision whose text may go to the customer: complete and structured, without a prohibited claim, and a bounded
      clarification, a catalog answer with references, or a courtesy on a message without controlled topics. */
  ghost predicate Vetted(d: Decision, f: Policy.Facts) {
    && d.structured && Policy.ValidText(Policy.Str(d.text)) && Policy.ValidLanguage(Policy.Str(d.language))
    && Policy.ValidSource(Policy.Str(d.source)) && Policy.ReferencesOk(Some(d.refs)) && !f.prohibited
    && (|| (d.action.AskClarification? && d.reason.MissingDetails? && d.refs == [])
        || (d.action.Reply? && d.reason.CatalogAnswer? && d.refs != [])
        || (d.action.Reply? && (d.reason.Greeting? || d.reason.Thanks? || d.reason.Farewell?) && d.refs == []
            && !f.controlledIn && !f.controlledOut))
  }

  /** A decision that a message is spam: complete and structured, without text or references, on a message without
      controlled topics. */
  ghost predicate Droppable(d: Decision, f: Policy.Facts) {
    && d.action.Ignore? && d.reason.SpamOrNonMessage? && d.structured && d.text == "" && d.refs == []
    && Policy.ValidLanguage(Policy.Str(d.language)) && Policy.ValidSource(Policy.Str(d.source)) && !f.controlledIn
  }

  /** A decision is allowed exactly when it is vetted, for Instagram, on an unremarkable message; it is ignored exactly
      when it may be dropped, on an unremarkable message. */
  lemma DecisionsExactly(d: Decision, channel: Channel, paused: bool, f: Policy.Facts)
    ensures OutcomeOf(d, channel, paused, f).Allowed? <==>
      channel.Instagram? && Policy.Unremarkable(paused, f) && Vetted(d, f)
    ensures OutcomeOf(d, channel, paused, f).Ignored? <==> Policy.Unremarkable(paused, f) && Droppable(d, f)
  {
    hide Policy.Decide, Policy.ReferencesOk, Policy.ValidText, Policy.ValidLanguage, Policy.ValidSource;
    Policy.AllowedExactly(Intended(d), PayloadOf(d), channel, paused, f);
    Policy.IgnoredExactly(Intended(d), PayloadOf(d), channel, paused, f);
    if d.text == "" && d.refs == [] { NoReferences(); }
  }

  lemma NoReferences()
    ensures Policy.ReferencesOk(Some([]))
  {}

  // ---------------------------------------------------------------- deciding

  /** What kind of action a decision asks for. */
  predicate KindFits(kind: ActionKind, action: Policy.AgentAction) {
    if action.Reply? || action.AskClarification? then kind.SendReply?
    else if action.Ignore? then kind.NoAction? else kind.EscalateToOwner?
  }

  /** The message's answer goes out by itself: allowed by policy, in live mode or in canary for a listed customer, from
      an account with a sender. */
  predicate GoesOut(cfg: Config, m: Inbound, outcome: Outcome, mode: Mode) {
    outcome.Allowed? && (mode.Live? || (mode.Canary? && m.sender in cfg.canary)) && m.recipient in cfg.senders
  }

  /** What every decision adds: its action and the policy's verdict on it. */
  ghost predicate ActionAdded(a: Db, b: Db, j: nat, kind: ActionKind, outcome: Outcome, now: nat, state: ActionState) {
    && j < |a.jobs|
    && b.actions == a.actions + [Action(a.jobs[j].event, j, kind, Agent, now)]
    && b.policies == a.policies[|a.actions| := outcome]
    && b.actionStates == a.actionStates[|a.actions| := state]
  }

  /** The action and its delivery. */
  ghost predicate SentOff(a: Db, b: Db, j: nat, e: Event, text: string, kind: ActionKind, outcome: Outcome, now: nat) {
    && ActionAdded(a, b, j, kind, outcome, now, AwaitingDelivery)
    && var t := Intent(|a.actions|, e.conv, e.msg.recipient, e.msg.sender, Strip(text), Agent);
       b == a.(actions := b.actions, policies := b.policies, actionStates := b.actionStates,
               deliveries := a.deliveries + [Delivery(t, Waiting, 0, now, None, None)],
               audit := a.audit + [DeliveryEntry(|a.deliveries|, Waiting)])
  }

  /** The action alone. */
  ghost predicate LeftAlone(a: Db, b: Db, j: nat, kind: ActionKind, outcome: Outcome, now: nat) {
    && ActionAdded(a, b, j, kind, outcome, now, ActionIgnored)
    && b == a.(actions := b.actions, policies := b.policies, actionStates := b.actionStates)
  }

  /** The action and its review, a draft when there is a text, with the conversation pending review. */
  ghost predicate PutAside(a: Db, b: Db, j: nat, c: nat, text: string, kind: ActionKind, outcome: Outcome, now: nat) {
    && ActionAdded(a, b, j, kind, outcome, now, AwaitingReview)
    && StatusSet(a.convs, b.convs, c, PendingReview)
    && var k := |a.actions|;
       b == a.(actions := b.actions, policies := b.policies, actionStates := b.actionStates, convs := b.convs,
               reviews := a.reviews[k := Review(if text != "" then Draft else Escalation, Pending, text, 1)],
               revisions := if text != "" then a.revisions[(k, 1) := text] else a.revisions,
               audit := a.audit + [ReviewEntry(k, Pending)])
  }

  /** One of three things becomes of a decision: a delivery, nothing when policy lets the message be ignored, or a
      review. */
  ghost predicate DecisionOk(a: Db, b: Db, cfg: Config, j: nat, d: Decision, outcome: Outcome, mode: Mode, now: nat,
                             kind: ActionKind)
  {
    && j < |a.jobs| && a.jobs[j].event < |a.events| && KindFits(kind, d.action)
    && var e := a.events[a.jobs[j].event];
       if GoesOut(cfg, e.msg, outcome, mode) then SentOff(a, b, j, e, d.text, kind, outcome, now)
       else if kind.NoAction? && outcome.Ignored? then LeftAlone(a, b, j, kind, outcome, now)
       else PutAside(a, b, j, e.conv, d.text, kind, outcome, now)
  }

  lemma SendsReply(db: Db, cfg: Config, j: nat, d: Decision, outcome: Outcome, mode: Mode, now: nat)
    requires LinkInv(db) && j < |db.jobs| && db.jobs[j].event < |db.events|
    requires GoesOut(cfg, db.events[db.jobs[j].event].msg, outcome, mode)
    ensures var r, e := CommitDecision(db, cfg, j, d, outcome, mode, now), db.events[db.jobs[j].event];
      && (r.Some? <==> 1 <= |Strip(d.text)| <= 1000 && 1 <= |e.msg.recipient| <= 200 && 1 <= |e.msg.sender| <= 200)
      && (r.Some? ==> SentOff(db, r.value, j, e, d.text, Intended(d), outcome, now))
  {
    hide Strip, LinkInv, CommitDecision, HasDelivery, EnqueueDelivery, Intended, GoesOut, Queues;
    CommitBranches(db, cfg, j, d, outcome, mode, now);
    QueuesExactly(db, cfg, j, outcome, mode);
    Unanswered(db);
    var e, a := db.events[db.jobs[j].event], |db.actions|;
    var t := Intent(a, e.conv, e.msg.recipient, e.msg.sender, d.text, Agent);
    QueuesDelivery(RecordDecision(db, j, Intended(d), outcome, now), Instagram, t, now);
    AnsweredExactly(db.deliveries, a);
  }

  lemma IntendedFits(d: Decision)
    ensures KindFits(Intended(d), d.action)
  {}

  /** The deciding transaction asks its own question about mode, list and sender; it is this one. */
  lemma QueuesExactly(db: Db, cfg: Config, j: nat, outcome: Outcome, mode: Mode)
    requires j < |db.jobs| && db.jobs[j].event < |db.events|
    ensures Queues(db, cfg, j, outcome, mode) <==> GoesOut(cfg, db.events[db.jobs[j].event].msg, outcome, mode)
  {}

  lemma DropsMessage(db: Db, cfg: Config, j: nat, d: Decision, outcome: Outcome, mode: Mode, now: nat)
    requires j < |db.jobs| && db.jobs[j].event < |db.events| && Intended(d).NoAction? && outcome.Ignored?
    requires !GoesOut(cfg, db.events[db.jobs[j].event].msg, outcome, mode)
    ensures var r := CommitDecision(db, cfg, j, d, outcome, mode, now);
      r.Some? && LeftAlone(db, r.value, j, Intended(d), outcome, now)
  {
    hide CommitDecision, Intended, GoesOut, Queues;
    CommitBranches(db, cfg, j, d, outcome, mode, now);
    QueuesExactly(db, cfg, j, outcome, mode);
  }

  lemma AsksReview(db: Db, cfg: Config, j: nat, d: Decision, outcome: Outcome, mode: Mode, now: nat)
    requires LinkInv(db) && DraftInv(db.reviews, db.revisions) && j < |db.jobs| && db.jobs[j].event < |db.events|
    requires !GoesOut(cfg, db.events[db.jobs[j].event].msg, outcome, mode) && !(Intended(d).NoAction? && outcome.Ignored?)
    ensures var r, c := CommitDecision(db, cfg, j, d, outcome, mode, now), db.events[db.jobs[j].event].conv;
      r.Some? && PutAside(db, r.value, j, c, d.text, Intended(d), outcome, now)
  {
    hide LinkInv, DraftInv, CommitDecision, Intended, GoesOut, Queues, CreateReview;
    CommitBranches(db, cfg, j, d, outcome, mode, now);
    QueuesExactly(db, cfg, j, outcome, mode);
    Unreviewed(db);
    CreatesReview(RecordDecision(db, j, Intended(d), outcome, now), |db.actions|,
                  if d.text != "" then Draft else ReviewKind.Escalation, d.text);
  }

  /** A reply that can be delivered. */
  predicate Fits(m: Inbound, text: string) {
    1 <= |Strip(text)| <= 1000 && 1 <= |m.recipient| <= 200 && 1 <= |m.sender| <= 200
  }

  /** It fails only on a text, account or customer that cannot be delivered. */
  lemma Decides(db: Db, cfg: Config, j: nat, d: Decision, outcome: Outcome, mode: Mode, now: nat)
    requires LinkInv(db) && DraftInv(db.reviews, db.revisions) && j < |db.jobs| && db.jobs[j].event < |db.events|
    ensures var r, m := CommitDecision(db, cfg, j, d, outcome, mode, now), db.events[db.jobs[j].event].msg;
      && (r.None? <==> GoesOut(cfg, m, outcome, mode) && !Fits(m, d.text))
      && (r.Some? ==> DecisionOk(db, r.value, cfg, j, d, outcome, mode, now, Intended(d)))
  {
    hide Strip, LinkInv, DraftInv, CommitDecision, GoesOut, Intended, KindFits, SentOff, LeftAlone, PutAside;
    IntendedFits(d);
    if GoesOut(cfg, db.events[db.jobs[j].event].msg, outcome, mode) {
      SendsReply(db, cfg, j, d, outcome, mode, now);
    } else if Intended(d).NoAction? && outcome.Ignored? {
      DropsMessage(db, cfg, j, d, outcome, mode, now);
    } else {
      AsksReview(db, cfg, j, d, outcome, mode, now);
    }
  }

  /** What came of a commitment, None when it failed. */
  ghost predicate CommitOk(a: Db, b: Option<Db>, cfg: Config, j: nat, d: Decision, outcome: Outcome, mode: Mode,
                           now: nat)
    requires j < |a.jobs| && a.jobs[j].event < |a.events|
  {
    var m := a.events[a.jobs[j].event].msg;
    && (b.None? <==> GoesOut(cfg, m, outcome, mode) && !Fits(m, d.text))
    && (b.Some? ==> DecisionOk(a, b.value, cfg, j, d, outcome, mode, now, Intended(d)))
  }

  lemma DecidesIfSound(db: Db, cfg: Config, j: nat, d: Decision, outcome: Outcome, mode: Mode, now: nat)
    requires j < |db.jobs| && db.jobs[j].event < |db.events|
    ensures Queues(db, cfg, j, outcome, mode) <==> GoesOut(cfg, db.events[db.jobs[j].event].msg, outcome, mode)
    ensures LinkInv(db) && DraftInv(db.reviews, db.revisions) ==>
      CommitOk(db, CommitDecision(db, cfg, j, d, outcome, mode, now), cfg, j, d, outcome, mode, now)
  {
    hide LinkInv, DraftInv, CommitDecision, DecisionOk, Fits, Queues, GoesOut;
    QueuesExactly(db, cfg, j, outcome, mode);
    if LinkInv(db) && DraftInv(db.reviews, db.revisions) { Decides(db, cfg, j, d, outcome, mode, now); }
  }

  lemma Unreviewed(db: Db)
    requires LinkInv(db) && DraftInv(db.reviews, db.revisions)
    ensures |db.actions| !in db.reviews && (|db.actions|, 1) !in db.revisions
  {
    assert (|db.actions|, 1) in db.revisions ==> RevisionOk((|db.actions|, 1), db.reviews);
  }

  // --------------------------------------------------------------- executing

  /** The first execution of an action: recorded with the mode it ran in and whether it would have gone out, the action
      still pending review when the policy or a pending review says so. */
  ghost predicate ExecutionOk(a: Db, b: Db, k: nat, cfg: Config, outcome: Outcome, customer: string, mode: Mode) {
    && k !in a.executions
    && var runs := outcome.Allowed? && (mode.Live? || (mode.Canary? && customer in cfg.canary));
       var waits := outcome.PendingApproval? || outcome.Escalated? || (k in a.reviews && a.reviews[k].status.Pending?);
       b == a.(executions := a.executions[k := Execution(runs, mode)],
               actionStates := a.actionStates[k := if waits then AwaitingReview
                                                   else if runs then ExecutedSimulated else ActionSuppressed])
  }

  lemma Executes(db: Db, k: nat, cfg: Config, outcome: Outcome, customer: string, mode: Mode)
    ensures var r := RecordExecution(db, k, Find(db, cfg, k, outcome, customer, mode));
      && (r.None? <==> k in db.executions)
      && (r.Some? ==> ExecutionOk(db, r.value, k, cfg, outcome, customer, mode))
  {}
}
