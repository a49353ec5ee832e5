/** Decision making: what the transactions of `executor.py` and `action_executor.py` do to the tables. */
module WorkerModel {
  import opened Types
  import opened Policy
  import opened Gates
  import opened WorkspaceModel
  import opened DeliveryModel

  /** A provider's answer.  A provider error arrives here as the unstructured human_required decision. */
  datatype Decision = Decision(action: AgentAction, text: string, language: string, reason: Reason,
                               refs: seq<RefItem>, structured: bool, source: string)

  /** `_intended` */
  function Intended(d: Decision): ActionKind {
    if d.action.Reply? || d.action.AskClarification? then SendReply
    else if d.action.Ignore? then NoAction
    else EscalateToOwner
  }

  function PayloadOf(d: Decision): Payload {
    Payload(AgentFields, Str(d.text), Str(d.language), Str(d.source), Flag(d.structured), d.action, d.reason,
            Some(d.refs))
  }

  function OutcomeOf(d: Decision, channel: Channel, paused: bool, f: Facts): Outcome {
    Decide(Intended(d), PayloadOf(d), channel, paused, f)
  }

  /** `_newer_inbound_exists` */
  predicate NewerInbound(db: Db, e: nat) {
    e < |db.events| && NewerEvent(db.events, db.events[e].conv, e)
  }

  /** An oldest action of the job, or None when it has none. */
  ghost predicate IsFirstAction(actions: seq<Action>, j: nat, found: Option<nat>) {
    if found.Some? then
      && found.value < |actions| && actions[found.value].job == j
      && forall i :: 0 <= i < |actions| && actions[i].job == j ==> actions[found.value].createdAt <= actions[i].createdAt
    else forall i :: 0 <= i < |actions| ==> actions[i].job != j
  }

  function FindFirst(actions: seq<Action>, j: nat): (r: Option<nat>)
    ensures IsFirstAction(actions, j, r)
  {
    if actions == [] then None
    else
      var n := |actions| - 1;
      var r := FindFirst(actions[..n], j);
      assert forall i :: 0 <= i < n ==> actions[..n][i] == actions[i];
      if actions[n].job == j && (r.None? || actions[n].createdAt < actions[r.value].createdAt) then Some(n) else r
  }

  predicate AutoMode(mode: Mode, customer: string, canary: Canary) {
    mode.Live? || (mode.Canary? && customer in canary)
  }

  /** The row inserts that every decision makes: the action and its policy decision. */
  function RecordDecision(db: Db, j: nat, kind: ActionKind, outcome: Outcome, now: nat): Db
    requires j < |db.jobs|
  {
    var a := |db.actions|;
    db.(actions := db.actions + [Action(db.jobs[j].event, j, kind, Agent, now)], policies := db.policies[a := outcome])
  }

  /** The deciding transaction of `_action_for_job`: queue a delivery, ignore, or ask for review.
      None when `enqueue_delivery` raises or a constraint fails, so that everything rolls back.
      `outcome` and `mode` were settled before the transaction began. */
  function CommitDecision(db: Db, cfg: Config, j: nat, d: Decision, outcome: Outcome, mode: Mode, now: nat)
    : (r: Option<Db>)
    requires j < |db.jobs| && db.jobs[j].event < |db.events|
    ensures r.Some? ==>
      r.value == db.(actions := r.value.actions, policies := r.value.policies, deliveries := r.value.deliveries,
                     actionStates := r.value.actionStates, reviews := r.value.reviews, revisions := r.value.revisions,
                     convs := r.value.convs, audit := r.value.audit)
  {
    var event := db.events[db.jobs[j].event];
    var a := |db.actions|;
    var db1 := RecordDecision(db, j, Intended(d), outcome, now);
    if outcome.Allowed? && AutoMode(mode, event.msg.sender, cfg.canary) && event.msg.recipient in cfg.senders then
      var queued := EnqueueDelivery(db1, Instagram,
        Intent(a, event.conv, event.msg.recipient, event.msg.sender, d.text, Agent), now);
      if queued.None? then None
      else Some(queued.value.(actionStates := db.actionStates[a := AwaitingDelivery]))
    else if Intended(d).NoAction? && outcome.Ignored? then
      Some(db1.(actionStates := db.actionStates[a := ActionIgnored]))
    else
      var reviewed := CreateReview(db1, a, if d.text != "" then Draft else Escalation, d.text);
      if reviewed.None? then None
      else
        var db2 := reviewed.value.(actionStates := db.actionStates[a := AwaitingReview]);
        Some(if event.conv < |db.convs| then SetStatus(db2, event.conv, PendingReview) else db2)
  }

  /** Whether the deciding transaction queued a delivery for its action. */
  predicate Queues(db: Db, cfg: Config, j: nat, outcome: Outcome, mode: Mode)
    requires j < |db.jobs| && db.jobs[j].event < |db.events|
  {
    var event := db.events[db.jobs[j].event];
    && outcome.Allowed?
    && AutoMode(mode, event.msg.sender, cfg.canary)
    && event.msg.recipient in cfg.senders
  }

  /** What `LocalActionExecutor.execute` reads before it writes. */
  datatype Finding = Finding(mode: Mode, executed: bool, state: ActionState)

  function Find(db: Db, cfg: Config, a: nat, outcome: Outcome, customer: string, mode: Mode): Finding {
    var executed := DecideExecution(mode, outcome, customer, cfg.canary).SimulatedSink?;
    var pending := a in db.reviews && db.reviews[a].status.Pending?;
    Finding(mode, executed,
            if outcome.PendingApproval? || outcome.Escalated? || pending then AwaitingReview
            else if executed then ExecutedSimulated else ActionSuppressed)
  }

  /** The writing transaction of `execute`; None when another worker recorded this action first. */
  function RecordExecution(db: Db, a: nat, f: Finding): Option<Db> {
    if a in db.executions then None
    else Some(db.(executions := db.executions[a := Execution(f.executed, f.mode)],
                  actionStates := db.actionStates[a := f.state]))
  }

  /** The reading half of `_supersede_job`: the job of the conversation's last other event. */
  function LatestOther(events: seq<Event>, e: nat, n: nat): (r: Option<nat>)
    requires e < |events| && n <= |events|
    ensures r.Some? ==> r.value < n && r.value != e && events[r.value].conv == events[e].conv
                        && forall i :: r.value < i < n && i != e ==> events[i].conv != events[e].conv
    ensures r.None? ==> forall i :: 0 <= i < n && i != e ==> events[i].conv != events[e].conv
  {
    if n == 0 then None
    else if n - 1 != e && events[n - 1].conv == events[e].conv then Some(n - 1)
    else LatestOther(events, e, n - 1)
  }
}
