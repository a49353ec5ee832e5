/** What the permission check says of one delivery at one moment. */
module Replies {
  import opened Types
  import opened WorkspaceModel
  import opened QueueModel
  import opened DeliveryModel
  import opened System
  import opened QueueInvariant
  import opened LinkInvariant
  import opened AnswerInvariant
  import opened AuditInvariant
  import opened Safety
  import opened Outcomes
  import opened Gates
  import opened Text

  predicate IsSend(step: Step) {
    step.Work? && step.act.Send?
  }

  ghost predicate BotReply(db: Db, d: nat) {
    d < |db.deliveries| && db.deliveries[d].intent.author.Agent? && db.deliveries[d].intent.action < |db.actions|
  }

  /** The event that delivery `d` answers. */
  ghost function AnswersEvent(db: Db, d: nat): nat
    requires BotReply(db, d)
  {
    db.actions[db.deliveries[d].intent.action].event
  }

  /** `_permission_reason` finds nothing exactly when all of this holds of the delivery. */
  lemma PermittedExactly(db: Db, cfg: Config, d: nat)
    requires d < |db.deliveries|
    ensures var t := db.deliveries[d].intent;
      PermissionReason(db, cfg, d).None? <==>
        && t.action < |db.actions| && t.action in db.policies && t.conv < |db.convs|
        && EnqueueGate(db.mode, db.policies[t.action], t.customer, cfg.canary)
        && 1 <= |Strip(t.customer)| <= 200
        && cfg.sendEnabled && t.account in cfg.senders && t.account in cfg.tokens && cfg.tokens[t.account]
        && (t.author.Agent? ==>
              && !db.convs[t.conv].paused
              && forall i :: db.actions[t.action].event < i < |db.events| ==> db.events[i].conv != t.conv)
  {
    var t := db.deliveries[d].intent;
    hide Strip;
    if t.action in db.policies {
      GatesAgree(db.mode, db.policies[t.action], t.customer, cfg.canary);
    }
  }

  /** The policy has nothing against the delivery: its action is allowed, and a bot's conversation is not paused. */
  ghost predicate PolicyClears(db: Db, t: Intent) {
    && t.action < |db.actions| && t.action in db.policies && db.policies[t.action].Allowed? && t.conv < |db.convs|
    && !(t.author.Agent? && db.convs[t.conv].paused)
  }

  predicate ModeClears(mode: Mode, customer: string, canary: Canary) {
    mode.Live? || (mode.Canary? && customer in canary)
  }

  /** Why a delivery is refused: the first thing that is wrong with it, policy before mode, mode before recipient,
      recipient before configuration, and a newer message last. */
  ghost predicate RefusedFor(db: Db, cfg: Config, t: Intent, reason: Refusal) {
    var addressed := PolicyClears(db, t) && ModeClears(db.mode, t.customer, cfg.canary) && 1 <= |Strip(t.customer)| <= 200;
    match reason
    case PolicyBlock => !PolicyClears(db, t)
    case ModeNotLive => PolicyClears(db, t) && !db.mode.Live? && !db.mode.Canary?
    case CanaryRestriction => PolicyClears(db, t) && db.mode.Canary? && t.customer !in cfg.canary
    case InvalidRecipient =>
      PolicyClears(db, t) && ModeClears(db.mode, t.customer, cfg.canary) && !(1 <= |Strip(t.customer)| <= 200)
    case SendDisabled => addressed && !cfg.sendEnabled
    case AccountNotConfigured =>
      && addressed && cfg.sendEnabled
      && (t.account !in cfg.tokens || (cfg.tokens[t.account] && t.account !in cfg.senders))
    case MissingAccessToken => addressed && cfg.sendEnabled && t.account in cfg.tokens && !cfg.tokens[t.account]
    case IdempotencyGuard =>
      && addressed && cfg.sendEnabled && t.account in cfg.tokens && cfg.tokens[t.account] && t.account in cfg.senders
      && t.author.Agent?
      && exists i :: db.actions[t.action].event < i < |db.events| && db.events[i].conv == t.conv
  }

  lemma RefusedExactly(db: Db, cfg: Config, d: nat, reason: Refusal)
    requires d < |db.deliveries|
    ensures PermissionReason(db, cfg, d) == Some(reason) <==> RefusedFor(db, cfg, db.deliveries[d].intent, reason)
  {
    hide Strip;
  }

  /** Whoever wrote it, a permitted message passes the same gates as the one that queued it and the simulated sink:
      the policy allowed its action, the mode is live, or canary with this customer on the list. */
  lemma PermittedPassesTheGates(db: Db, cfg: Config, d: nat)
    requires d < |db.deliveries| && PermissionReason(db, cfg, d).None?
    ensures var t := db.deliveries[d].intent;
      && t.action in db.policies && EnqueueGate(db.mode, db.policies[t.action], t.customer, cfg.canary)
      && DecideExecution(db.mode, db.policies[t.action], t.customer, cfg.canary).SimulatedSink?
  {
    hide PermissionReason;
    PermittedExactly(db, cfg, d);
    var t := db.deliveries[d].intent;
    GatesAgree(db.mode, db.policies[t.action], t.customer, cfg.canary);
  }

  /** A permitted bot message answers the last event of its conversation, in a conversation that is not paused. */
  lemma PermittedIsFresh(s: Sys, d: nat)
    requires Inv(s) && BotReply(s.db, d) && PermissionReason(s.db, s.cfg, d).None?
    ensures var e, c := AnswersEvent(s.db, d), s.db.deliveries[d].intent.conv;
      && e < |s.db.events| && s.db.events[e].conv == c && !NewerEvent(s.db.events, c, e)
      && c < |s.db.convs| && !s.db.convs[c].paused
  {
    hide ConvInv, JobRows, DraftInv, AnswerInv, DoneInv, AuditInv, PcInv, Protocol, CallsAsWritten, PermissionReason;
    PermittedExactly(s.db, s.cfg, d);
    assert IntentOk(s.db.events, s.db.actions, s.db.policies, s.db.deliveries[d].intent);
  }
}
