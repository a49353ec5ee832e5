/** The rows of the bridge's SQLite tables and the database state they form.

    Columns that no statement ever updates are kept apart from those that some
    transaction rewrites: `actions` and `events` are append-only here, while
    `status` and `actionStates` hold their mutable columns.  A row id is the
    position of the row in its sequence, which is also its SQLite rowid order. */
module Types {

  datatype Option<+T> = None | Some(value: T)

  datatype Channel = Instagram | Local

  /** `Invalid` stands for every string outside the four configured modes. */
  datatype Mode = Shadow | DryRun | Canary | Live | Invalid
  type RuntimeMode = m: Mode | !m.Invalid? witness Shadow

  datatype Outcome = Allowed | Blocked | PendingApproval | Ignored | Escalated

  /** A message after its adapter has normalized it. */
  datatype Inbound = Inbound(channel: Channel, mid: string, sender: string, recipient: string,
                             body: string, key: string)

  datatype EventStatus = EvQueued | EvRetrying | EvBatched | EvProcessed | EvFailed | EvDismissed
  datatype Event = Event(msg: Inbound, conv: nat)

  datatype JobState = Queued | Processing | Completed | DeadLetter | Dismissed | Superseded
  datatype Job = Job(event: nat, key: string, createdAt: nat, state: JobState, attempts: nat, availableAt: nat,
                     lease: Option<nat>, worker: Option<nat>, successor: Option<nat>)

  datatype ActionKind = SendReply | HumanReply | DraftReply | EscalateToOwner | NoAction | UnknownAction
  datatype Author = Agent | Human
  datatype Action = Action(event: nat, job: nat, kind: ActionKind, author: Author, createdAt: nat)
  datatype ActionState =
    | AwaitingDelivery | ActionIgnored | AwaitingReview | ExecutedSimulated | ActionSuppressed | ActionSent
    | ActionFailed | ActionPrepared | ActionRejected | ActionResolved

  datatype ReviewKind = Draft | Escalation
  datatype ReviewStatus = Pending | Prepared | Rejected | Resolved
  datatype Review = Review(kind: ReviewKind, status: ReviewStatus, text: string, version: nat)

  datatype Execution = Execution(executed: bool, mode: Mode)

  /** What a delivery says, to whom and from which account: fixed when it is created. */
  datatype Intent = Intent(action: nat, conv: nat, account: string, customer: string, text: string, author: Author)
  datatype DeliveryStatus = Waiting | Sending | Sent | Withheld | Failed | Unknown
  datatype Delivery = Delivery(intent: Intent, status: DeliveryStatus, attempts: nat, availableAt: nat,
                               lease: Option<nat>, worker: Option<nat>)
  datatype AttemptResult = WasSent | WasRejected | WasUnknown

  datatype Account = Account(channel: Channel, external: string)
  datatype ConvStatus = Open | PendingReview | Closed
  datatype Conversation = Conversation(channel: Channel, key: string, status: ConvStatus, account: nat,
                                       customer: string, paused: bool)

  datatype Source = FromEvent(event: nat) | FromDelivery(delivery: nat)
  datatype Message = Message(conv: nat, source: Source, text: string)

  datatype Receipt = Receipt(digest: string, accepted: nat, duplicates: nat, ignored: nat)

  /** The entries of `audit_log` for events, jobs, reviews and deliveries. */
  datatype Entry =
    | EventEntry(event: nat, accepted: bool)
    | JobEntry(job: nat, outcome: JobState)
    | ReviewEntry(review: nat, result: ReviewStatus)
    | DeliveryEntry(delivery: nat, status: DeliveryStatus)
    | DuplicateDelivery(delivery: nat)
    | WebhookEntry(digest: string, first: bool)

  datatype Db = Db(
    events: seq<Event>,
    status: seq<EventStatus>,
    jobs: seq<Job>,
    actions: seq<Action>,
    actionStates: map<nat, ActionState>,
    policies: map<nat, Outcome>,              // policy_decisions, UNIQUE(action_id)
    reviews: map<nat, Review>,                // action_reviews, UNIQUE(action_id)
    revisions: map<(nat, nat), string>,       // draft_revisions, UNIQUE(review_id, version)
    executions: map<nat, Execution>,          // action_executions, UNIQUE(idempotency_key)
    deliveries: seq<Delivery>,
    attempts: map<(nat, nat), AttemptResult>, // delivery_attempts, UNIQUE(delivery_id, attempt)
    accounts: seq<Account>,
    convs: seq<Conversation>,
    messages: seq<Message>,
    receipts: seq<Receipt>,
    audit: seq<Entry>,
    mode: RuntimeMode)

  const EMPTY := Db([], [], [], [], map[], map[], map[], map[], map[], [], map[], [], [], [], [], [], Shadow)

  /** Every job row belongs to the event inserted with it, and carries that event's work key. */
  ghost predicate RowsAligned(events: seq<Event>, status: seq<EventStatus>, jobs: seq<Job>) {
    && |status| == |events| == |jobs|
    && forall i :: 0 <= i < |jobs| ==> jobs[i].event == i && jobs[i].key == events[i].msg.key
  }

  ghost predicate Aligned(db: Db) {
    RowsAligned(db.events, db.status, db.jobs)
  }
}
