/** The whole bridge as a transition system: one database, any number of workers, and the remote service.

    Every committed transaction, every read that precedes one, every provider call and every `send_text` is a step
    of its own, so that crashes, new webhooks, operator actions and other workers may come in between.  Clock
    readings are arbitrary arguments of the steps: nothing here needs time to be monotone. */
module System {
  import opened Types
  import opened Text
  import opened Policy
  import opened Gates
  import opened QueueModel
  import opened WorkspaceModel
  import opened DeliveryModel
  import opened WorkerModel

  /** Where a worker is inside `Executor.run_once`, with what it has read so far. */
  datatype Stage =
    | Fetching                                                    // claim committed, row to be read back
    | Claimed
    | Unanswered                                                  // no action row yet
    | Asking(paused: bool)                                        // context read, provider call under way
    | Answered(paused: bool, decision: Decision)
    | UpToDate(paused: bool, decision: Decision)                  // no newer inbound message was seen
    | Deciding(paused: bool, decision: Decision, mode: Mode)      // mode read, transaction to come
    | Overtaken                                                   // SupersededJob raised
    | Superseding(successor: Option<nat>)
    | Ready(action: nat, queued: bool)                            // `_action_for_job` has returned
    | Executing(action: nat, mode: Mode)
    | Recording(action: nat, finding: Finding)
    | Finishing(action: nat)                                      // completing transaction to come
    | Failing                                                     // an exception is on its way to `fail`

  /** Where a worker is inside `DeliveryExecutor.run_once`. */
  datatype Leg =
    | Reloading                                                   // claim committed, row to be read back
    | Holding
    | Denied(refusal: Refusal)
    | Cleared
    | Confirmed                                                   // send_text returned a message id
    | Errored(ambiguous: bool)                                    // send_text raised InstagramSendError

  /** A worker and the columns of the row it was handed when it claimed. */
  datatype Pc =
    | Idle
    | OnJob(job: nat, attempts: nat, stage: Stage)
    | OnDelivery(delivery: nat, attempt: nat, leg: Leg)

  datatype SendCall = SendCall(delivery: nat, account: string, customer: string, text: string)

  /** `sends` lists every call of `send_text`; `accepted` holds the deliveries the remote service took. */
  datatype Sys = Sys(cfg: Config, db: Db, workers: seq<Pc>, sends: seq<SendCall>, accepted: set<nat>)

  /** How a send ends: a message id, a definite rejection, an ambiguous error, or the worker's death. */
  datatype Ending = MessageId | Rejection | Ambiguity(taken: bool) | Death(taken: bool)

  predicate Taken(e: Ending) {
    e.MessageId? || (e.Ambiguity? && e.taken) || (e.Death? && e.taken)
  }

  datatype Act =
    | ClaimJob(oldest: nat, newest: nat, now: nat, until: nat)
    | FetchJob
    | LookUp(found: Option<nat>)
    | ReadContext
    | Answer(decision: Decision)
    | CheckNewer
    | ReadMode
    | CommitAnswer(facts: Facts, now: nat)
    | StartExecution
    | Inspect
    | Record
    | FinishJob
    | FindSuccessor
    | CommitSupersede
    | GiveUp(now: nat)
    | Crash
    | TakeDelivery(next: nat, now: nat, until: nat)
    | FetchDelivery
    | CheckPermission
    | Withhold
    | Send(ending: Ending)
    | RecordSent
    | RecordError

  datatype Operation =
    | RetryJob(job: nat, now: nat)
    | DismissJob(job: nat)
    | Reply(conv: nat, text: string, now: nat)
    | SetPaused(conv: nat, paused: bool)
    | SetConvStatus(conv: nat, status: ConvStatus)
    | SetMode(mode: Mode)
    | Edit(review: nat, text: string)
    | Transition(review: nat, target: ReviewStatus)

  datatype Step =
    | Ingest(msg: Inbound, now: nat, debounce: nat)
    | Post(digest: string, msgs: seq<Inbound>, ignored: nat, now: nat, debounce: nat)
    | RecoverJobs(now: nat)
    | RecoverSends(now: nat)
    | Work(w: nat, act: Act)
    | Operate(op: Operation)

  // ----------------------------------------------------------------- ingress

  function ChannelName(c: Channel): string {
    match c
    case Instagram => "instagram"
    case Local => "local"
  }

  /** Both adapters prefix the work key with the channel. */
  predicate Keyed(m: Inbound) {
    ChannelName(m.channel) + ":" <= m.key
  }

  /** A customer's id as the adapter reads it. */
  predicate IsCustomer(id: string) {
    id != "" && Trimmed(id)
  }

  /** What `normalize` of the Instagram adapter guarantees of each event, for these configured accounts. */
  predicate FromInstagram(m: Inbound, accounts: set<string>) {
    && m.channel.Instagram?
    && m.key == "instagram:" + m.recipient + ":" + m.sender
    && m.recipient in accounts && Strip(m.recipient) == m.recipient
    && IsCustomer(m.sender) && m.sender !in accounts
  }

  datatype Counted = Counted(db: Db, accepted: nat, duplicates: nat)

  /** The enqueueing loop of the webhook; None when one insertion fails, which fails the whole transaction. */
  function EnqueueAll(db: Db, msgs: seq<Inbound>, now: nat, debounce: nat): (r: Option<Counted>)
    ensures r.Some? ==>
      r.value.db == db.(accounts := r.value.db.accounts, convs := r.value.db.convs, events := r.value.db.events,
                        status := r.value.db.status, jobs := r.value.db.jobs, messages := r.value.db.messages,
                        audit := r.value.db.audit)
  {
    if msgs == [] then Some(Counted(db, 0, 0))
    else
      var before := EnqueueAll(db, msgs[..|msgs| - 1], now, debounce);
      if before.None? then None
      else
        var r := Enqueue(before.value.db, msgs[|msgs| - 1], now, debounce);
        if r.None? then None
        else if r.value.created then Some(Counted(r.value.db, before.value.accepted + 1, before.value.duplicates))
        else Some(Counted(r.value.db, before.value.accepted, before.value.duplicates + 1))
  }

  predicate HasReceipt(receipts: seq<Receipt>, digest: string) {
    exists i :: 0 <= i < |receipts| && receipts[i].digest == digest
  }

  /** The transaction of `_post`; None when it rolls back and the sender gets a 500. */
  function Webhook(db: Db, digest: string, msgs: seq<Inbound>, ignored: nat, now: nat, debounce: nat)
    : (r: Option<Db>)
    ensures r.Some? ==>
      r.value == db.(accounts := r.value.accounts, convs := r.value.convs, events := r.value.events,
                     status := r.value.status, jobs := r.value.jobs, messages := r.value.messages,
                     receipts := r.value.receipts, audit := r.value.audit)
  {
    if HasReceipt(db.receipts, digest) then Some(db.(audit := db.audit + [WebhookEntry(digest, false)]))
    else
      var r := EnqueueAll(db, msgs, now, debounce);
      if r.None? then None
      else
        Some(r.value.db.(
          receipts := r.value.db.receipts + [Receipt(digest, r.value.accepted, r.value.duplicates, ignored)],
          audit := r.value.db.audit + [WebhookEntry(digest, true)]))
  }

  // ------------------------------------------------------------ worker steps

  predicate InTry(p: Pc) {
    p.OnJob? && !p.stage.Fetching? && !p.stage.Overtaken? && !p.stage.Superseding?
  }

  /** Whether worker `w` can take this step here; for the steps that read, the value read is the argument. */
  ghost predicate CanAct(s: Sys, w: nat, a: Act)
    requires Aligned(s.db)
  {
    && w < |s.workers|
    && var p := s.workers[w];
       && (p.OnJob? ==> p.job < |s.db.jobs|)
       && (p.OnDelivery? ==> p.delivery < |s.db.deliveries|)
       && match a
          case ClaimJob(oldest, newest, now, until) =>
            && p.Idle? && IsOldest(s.db.jobs, now, oldest)
            && IsNewest(s.db.jobs, s.db.jobs[oldest].key, now, newest)
          case FetchJob => p.OnJob? && p.stage.Fetching?
          case LookUp(found) => p.OnJob? && p.stage.Claimed? && IsFirstAction(s.db.actions, p.job, found)
          case ReadContext => p.OnJob? && p.stage.Unanswered? && s.db.events[p.job].conv < |s.db.convs|
          case Answer(d) => p.OnJob? && p.stage.Asking?
          case CheckNewer => p.OnJob? && p.stage.Answered?
          case ReadMode => p.OnJob? && p.stage.UpToDate?
          case CommitAnswer(f, now) => p.OnJob? && p.stage.Deciding?
          case StartExecution => p.OnJob? && p.stage.Ready? && p.stage.action < |s.db.actions|
          case Inspect =>
            p.OnJob? && p.stage.Executing? && p.stage.action < |s.db.actions| && p.stage.action in s.db.policies
          case Record => p.OnJob? && p.stage.Recording?
          case FinishJob => p.OnJob? && p.stage.Finishing?
          case FindSuccessor => p.OnJob? && p.stage.Overtaken?
          case CommitSupersede => p.OnJob? && p.stage.Superseding?
          case GiveUp(now) => InTry(p)
          case Crash => !p.Idle?
          case TakeDelivery(next, now, until) => p.Idle? && IsNext(s.db.deliveries, now, next)
          case FetchDelivery => p.OnDelivery? && p.leg.Reloading?
          case CheckPermission => p.OnDelivery? && p.leg.Holding?
          case Withhold => p.OnDelivery? && p.leg.Denied?
          case Send(ending) => p.OnDelivery? && p.leg.Cleared?
          case RecordSent => p.OnDelivery? && p.leg.Confirmed?
          case RecordError => p.OnDelivery? && p.leg.Errored?
  }

  function At(p: Pc, stage: Stage): Pc
    requires p.OnJob?
  {
    p.(stage := stage)
  }

  /** The policy's verdict on the decision a worker holds, with the pause flag it read and these pattern hits. */
  function PolicyOutcome(db: Db, p: Pc, f: Facts): Outcome
    requires p.OnJob? && p.stage.Deciding? && p.job < |db.events|
  {
    OutcomeOf(p.stage.decision, db.events[p.job].msg.channel, p.stage.paused, f)
  }

  /** Commit `db` when the transaction succeeded; otherwise it rolled back and `run_once` dies of the exception. */
  function OrElse(r: Option<Db>, db: Db): Db {
    if r.Some? then r.value else db
  }

  /** The tables after a worker's step. */
  ghost function DbAfter(s: Sys, w: nat, a: Act): Db
    requires Aligned(s.db) && CanAct(s, w, a)
  {
    var p, db := s.workers[w], s.db;
    match a
    case ClaimJob(oldest, newest, now, until) => Claim(db, newest, now, until, w)
    case CommitAnswer(f, now) =>
      OrElse(CommitDecision(db, s.cfg, p.job, p.stage.decision, PolicyOutcome(db, p, f), p.stage.mode, now), db)
    case Record => OrElse(RecordExecution(db, p.stage.action, p.stage.finding), db)
    case FinishJob => Complete(db, p.job)
    case CommitSupersede => Supersede(db, p.job, p.stage.successor)
    case GiveUp(now) => Fail(db, p.job, p.attempts, s.cfg.maxAttempts, now)
    case TakeDelivery(next, now, until) => ClaimDelivery(db, next, until, w)
    case Withhold => OrElse(Suppress(db, p.delivery), db)
    case RecordSent => OrElse(FinishSent(db, p.delivery, p.attempt), db)
    case RecordError => OrElse(FinishError(db, p.delivery, p.attempt, p.leg.ambiguous), db)
    case _ => db
  }

  /** Where the worker is after its step. */
  ghost function PcAfter(s: Sys, w: nat, a: Act): Pc
    requires Aligned(s.db) && CanAct(s, w, a)
  {
    var p, db := s.workers[w], s.db;
    match a
    case ClaimJob(oldest, newest, now, until) => OnJob(newest, db.jobs[newest].attempts + 1, Fetching)
    case FetchJob => OnJob(p.job, db.jobs[p.job].attempts, Claimed)
    case LookUp(found) =>
      if found.Some? then At(p, Ready(found.value, HasDelivery(db.deliveries, found.value))) else At(p, Unanswered)
    case ReadContext => At(p, Asking(db.convs[db.events[p.job].conv].paused))
    case Answer(d) => At(p, Answered(p.stage.paused, d))
    case CheckNewer =>
      if NewerInbound(db, p.job) then At(p, Overtaken) else At(p, UpToDate(p.stage.paused, p.stage.decision))
    case ReadMode => At(p, Deciding(p.stage.paused, p.stage.decision, db.mode))
    case CommitAnswer(f, now) =>
      var outcome := PolicyOutcome(db, p, f);
      if CommitDecision(db, s.cfg, p.job, p.stage.decision, outcome, p.stage.mode, now).None? then At(p, Failing)
      else At(p, Ready(|db.actions|, Queues(db, s.cfg, p.job, outcome, p.stage.mode)))
    case StartExecution =>
      if p.stage.queued || db.actions[p.stage.action].kind.NoAction? then At(p, Finishing(p.stage.action))
      else At(p, Executing(p.stage.action, db.mode))
    case Inspect =>
      if p.stage.action in db.executions then At(p, Finishing(p.stage.action))
      else
        At(p, Recording(p.stage.action, Find(db, s.cfg, p.stage.action, db.policies[p.stage.action],
                                             db.events[p.job].msg.sender, p.stage.mode)))
    case Record =>
      if RecordExecution(db, p.stage.action, p.stage.finding).None? then At(p, Failing)
      else At(p, Finishing(p.stage.action))
    case FindSuccessor => At(p, Superseding(LatestOther(db.events, p.job, |db.events|)))
    case TakeDelivery(next, now, until) => OnDelivery(next, db.deliveries[next].attempts + 1, Reloading)
    case FetchDelivery => OnDelivery(p.delivery, db.deliveries[p.delivery].attempts, Holding)
    case CheckPermission =>
      var reason := PermissionReason(db, s.cfg, p.delivery);
      p.(leg := if reason.Some? then Denied(reason.value) else Cleared)
    case Send(ending) =>
      (match ending
       case MessageId => p.(leg := Confirmed)
       case Rejection => p.(leg := Errored(false))
       case Ambiguity(_) => p.(leg := Errored(true))
       case Death(_) => Idle)
    case _ => Idle
  }

  function CallOf(db: Db, d: nat): SendCall
    requires d < |db.deliveries|
  {
    var t := db.deliveries[d].intent;
    SendCall(d, t.account, t.customer, t.text)
  }

  ghost function Acted(s: Sys, w: nat, a: Act): Sys
    requires Aligned(s.db) && CanAct(s, w, a)
  {
    var db, pc := DbAfter(s, w, a), PcAfter(s, w, a);
    var s1 := s.(db := db, workers := s.workers[w := pc]);
    if a.Send? then
      var d := s.workers[w].delivery;
      s1.(sends := s.sends + [CallOf(s.db, d)], accepted := if Taken(a.ending) then s.accepted + {d} else s.accepted)
    else s1
  }

  // ---------------------------------------------------------- operator steps

  predicate CanOperate(op: Operation) {
    match op
    case SetConvStatus(_, status) => !status.PendingReview?
    case SetMode(mode) => !mode.Invalid?
    case Transition(_, target) => !target.Pending?
    case _ => true
  }

  /** The tables after an operator action; a refused one changes nothing. */
  function Operated(db: Db, op: Operation): Db
    requires Aligned(db) && CanOperate(op)
  {
    match op
    case RetryJob(j, now) => OrElse(Retry(db, j, now), db)
    case DismissJob(j) => OrElse(Dismiss(db, j), db)
    case Reply(c, text, now) => OrElse(CreateHumanReply(db, c, text, now), db)
    case SetPaused(c, paused) => SetBotPaused(db, c, paused)
    case SetConvStatus(c, status) => SetConversationStatus(db, c, status)
    case SetMode(mode) => db.(mode := mode)
    case Edit(r, text) => (match EditReview(db, r, text) case Edited(db') => db' case _ => db)
    case Transition(r, target) => (match TransitionReview(db, r, target) case Moved(db') => db' case _ => db)
  }

  // -------------------------------------------------------------------- runs

  ghost predicate Enabled(s: Sys, step: Step) {
    && Aligned(s.db)
    && match step
       case Ingest(m, _, _) => m.channel.Local? && Keyed(m)
       case Post(_, msgs, _, _, _) => forall i :: 0 <= i < |msgs| ==> FromInstagram(msgs[i], s.cfg.accounts)
       case RecoverJobs(_) => true
       case RecoverSends(_) => true
       case Work(w, a) => CanAct(s, w, a)
       case Operate(op) => CanOperate(op)
  }

  ghost function Next(s: Sys, step: Step): Sys
    requires Enabled(s, step)
  {
    match step
    case Ingest(m, now, debounce) =>
      var r := Enqueue(s.db, m, now, debounce);
      if r.Some? then s.(db := r.value.db) else s
    case Post(digest, msgs, ignored, now, debounce) =>
      s.(db := OrElse(Webhook(s.db, digest, msgs, ignored, now, debounce), s.db))
    case RecoverJobs(now) => s.(db := RecoverStale(s.db, s.cfg.maxAttempts, now))
    case RecoverSends(now) => s.(db := RecoverDeliveries(s.db, now))
    case Work(w, a) => Acted(s, w, a)
    case Operate(op) => s.(db := Operated(s.db, op))
  }

  /** The bridge before its first message, in any configured mode and with any number of workers. */
  ghost predicate Initial(s: Sys) {
    && s.db == EMPTY.(mode := s.db.mode)
    && (forall w :: 0 <= w < |s.workers| ==> s.workers[w] == Idle)
    && s.sends == [] && s.accepted == {}
    && s.cfg.maxAttempts >= 1
  }

  /** A run: the states passed through, `ss[0]` first, and the steps between them. */
  ghost predicate IsRun(ss: seq<Sys>, steps: seq<Step>) {
    && |ss| == |steps| + 1
    && Initial(ss[0])
    && forall i :: 0 <= i < |steps| ==> Enabled(ss[i], steps[i]) && ss[i + 1] == Next(ss[i], steps[i])
  }
}
