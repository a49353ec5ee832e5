# The durable message pipeline, verified

The bridge takes customer messages in, lets an agent propose an answer, decides by fixed policy what may happen to it,
and sends at most one reply per message through a service whose answer may never arrive. Everything it knows is in one
SQLite database that several processes share. This project models that pipeline and proves what it is for: no accepted
message is lost, nothing is sent twice, no status lies about the remote side, replies stay fresh and in order, a failed
send silences the bot until an operator resumes it, and the audit log tells the whole story.

## How the model is built

**Tables and transactions.** `Types` holds the rows and the database value. `QueueModel`, `WorkspaceModel`,
`DeliveryModel` and `WorkerModel` have one function per committed transaction; a transaction that a constraint or an
exception rolls back is `None`. `Policy`, `Gates`, `Instagram` and `Topics` hold the decisions taken outside
transactions.

**Procedures.** `Workspace`, `Queue`, `Delivery`, `LocalExecution`, `Executor` and `InstagramWebhook` are the classes
and procedures of the program over a shared, mutable `Database.Connection`: statement by statement, with the program's
loops, early returns and rollbacks. Each is proved equal to its transaction function, so that everything proved about
the functions holds of the procedures.

**Rules.** `QueueRules`, `WorkspaceRules`, `DeliveryRules` and `DecisionRules` say of each transaction which rows it
writes, under which condition and with what, in terms of the columns alone; every function is proved to follow its rule,
and every procedure promises it. `Instagram` and `Policy` state their decisions in the same way, without the order of
their checks.

**Runs.** `System` is the whole bridge as a transition system. A state is the database, any number of workers, the calls
made to the messaging service and the set of deliveries the service accepted. Every transaction, every read before one,
every provider call and every send is a step of its own; a worker keeps what it has read in its program counter, and may
crash, outlive its lease or overlap with others between any two steps. Webhooks, clock advances, operator actions and
lease recoveries come at any time. Clock readings are arbitrary arguments, so nothing depends on time being monotone.
`Executor.RunOnce` is proved to be a stretch of such a run, step for step.

**Invariants.** `QueueInvariant`, `LinkInvariant`, `AuditInvariant`, `AnswerInvariant` and `ProtocolInvariant` each cover
one part of the state; `Safety.StepKeepsInv` shows that every step keeps all of them.

**How much needs assuming.** Most results hold under any interleaving. Four things the bridge aims at do not, and each
is settled exactly:

- A job is answered once on every run precisely when there is at most one worker (`LateWorker.AnsweredOnceExactly`).
  For several workers it holds under lease discipline, when no job is recovered from a worker that is still on it
  (`Lease.AtMostOneAnswer`).
- The same goes for the limit on attempts (`Retries.BoundedExactly`, `Lease.DisciplinedRunsHold`).
- A bot message is stale when it is sent precisely when a message of its conversation was accepted after its check
  (`Checks.StaleExactly`), and that can happen on any configuration that lets a message be answered
  (`LateSend.CheckCanGoStale`). It cannot when check and call are one step (`Checks.CheckAndSendSuffices`).
- Bot messages of a conversation go out in strict order on every run precisely when there is at most one worker
  (`LateSend.InOrderExactly`); two of them are out of order precisely when their checks were (`Checks.OutOfOrderExactly`).

What the bridge needs of the configured account ids is settled exactly too. Posts always commit precisely when the ids
are unique up to case (`AccountIds.CommitsExactly`), which the configuration makes sure of. Conversations always keep the
account and the customer of their messages precisely when moreover no id extends another one by a colon
(`AccountIds.RoutedExactly`), which the configuration does not check and ids without colons never do.

A job or a delivery moves only when its time has come, on every run: `Timing.StepMovesJob` is the complete transition
table of a job row, and debounce, backoff and leases follow from it (`Timing.DebounceHonoured`, `Timing.BackoffHonoured`,
`Timing.LeaseHolds`). Backoff holds for every job that no late worker is still on; with one it can be cut short
(`Timing.LateFailureShortens`).

Draining needs no discipline: whatever the interleaving, the bridge comes to rest by itself (`Drain.EveryOrderDrains`).

`dafny verify dfyconfig.toml` checks the whole project.

## Model

| member | source | states |
|---|---|---|
| Promises.NoMessageIsLost | rrpp_bridge/queue.py:33-127 | in every reachable state each event has exactly one job; a completed one has an action; following the superseding jobs ends, at a later job of the same conversation that is itself not superseded |
| Promises.JobsAreExclusive | rrpp_bridge/queue.py:89-166 | one job per work key in progress; lease and worker are set exactly then; the event status is the one its job's state calls for |
| Promises.AtMostOnceAndTruthful | rrpp_bridge/delivery.py:228-298 | `send_text` is called at most once per delivery over any run, with crashes and late workers; an accepted delivery is shown as sending, sent or unknown, and a sent one was accepted |
| Promises.SentMeansRecorded | rrpp_bridge/sql/009_conversation_catalog_delivery.sql:109-179 | status sent, exactly one outbound message of the delivery, and its attempt row marked sent are equivalent; no delivery has two attempt rows |
| Promises.SettledForGood | rrpp_bridge/delivery.py:117-154 | along any run nothing returns to pending, sent and failed and suppressed rows never change, and what a delivery says never changes |
| Promises.NoAnswerVanishes | rrpp_bridge/executor.py:162-231 | every agent action has a delivery under way or sent, or a review, or was ignored by policy, and then at a step that committed a complete decision that the message is spam, with no pause, controlled topic, restricted operation or incident against it; whatever suppression, failure or recovery came after |
| Provenance.IgnoredWasSpam | rrpp_bridge/policy.py:217-237 | on every run each action with verdict ignored was committed at such a step, for its own job |
| Provenance.QueuedWasVetted | rrpp_bridge/policy.py:238-277 | on every run each bot delivery was queued by a vetted decision for an Instagram message, in a mode and from an account that let it out, and says what was decided to the customer of that message |
| Provenance.AnswersWereConsidered | rrpp_bridge/executor.py:129-161 | and the worker that decided it had, in this order, read the conversation as not paused, found no newer message of it, and read that mode |
| Sinks.OneWayOut | rrpp_bridge/executor.py:266-270 | in every reachable state no action is both executed by the simulated sink and delivered, none executed was to be ignored, and those recorded as executed were allowed, in live or canary mode |
| Promises.OnlyAllowedIsQueued | rrpp_bridge/executor.py:200-215 | every delivery in every reachable state answers an action whose policy row says allowed, and no action has two deliveries |
| Promises.AuditReplays | rrpp_bridge/audit.py:15-22 | the last audit entry about a job, a review or a delivery names its current state, up to the unaudited claim of a delivery |
| Timeline.TimelineIsComplete | rrpp_bridge/queue.py:68-74 | in every reachable state the inbound timeline is the list of accepted events, each once and in order with its own text and conversation, and every outbound message repeats its delivery |
| Promises.DraftLogIsContiguous | rrpp_bridge/workspace.py:205-242 | a draft's stored revisions are exactly versions 1 to its own, and the last one is its text |
| Promises.ReviewsEndOnce | rrpp_bridge/workspace.py:224-283 | no step of any kind edits or moves a review that has left pending, nor its revisions |
| Promises.BurstShares | rrpp_bridge/queue.py:57-67 | with a debounce, after an accepted message all queued jobs of its key share one time, and they are the old ones and the new one; jobs of other keys and jobs that are not queued are unchanged |
| Promises.BurstCollapses | rrpp_bridge/queue.py:57-119 | after the pause one claim takes the newest message of the burst and supersedes every other one by it; none of the key stays queued |
| Timing.BurstWaits | rrpp_bridge/queue.py:57-119 | until a burst is due no claim takes or supersedes any of its jobs |
| Timing.StepMovesJob | rrpp_bridge/queue.py:89-196 | the complete transition table of a job row over every step of the system: claimed or batched only when due, recovered only when its lease has run out, ended only by a worker that was handed it, and so on |
| Timing.DebounceHonoured | rrpp_bridge/queue.py:56-67 | on every run an accepted message's job is first claimed no sooner than its debounce after it |
| Timing.BackoffHonoured | rrpp_bridge/queue.py:129-138 | on every run a job put back after a failed attempt, with no late worker on it, is next claimed no sooner than the delay for that attempt, whatever messages arrive in between |
| Timing.LateFailureShortens | rrpp_bridge/queue.py:129-138 | with two workers and three attempts some run claims such a job earlier, after a late worker's own failure |
| Timing.LeaseHolds | rrpp_bridge/queue.py:147-166 | a step changes a job in progress only as a recovery at or after the lease's end or by a worker that was handed the job |
| Timing.SendLeaseHolds | rrpp_bridge/delivery.py:117-138 | a step changes a delivery in flight only as a recovery at or after the lease's end or by the worker that took it |
| Timing.OvertakenExactly | rrpp_bridge/executor.py:123-127 | a worker finds its message overtaken exactly when a later event of the conversation exists |
| Promises.BackoffTotals | rrpp_bridge/queue.py:133 | closed form of the total wait over any number of failures |
| Replies.PermittedExactly | rrpp_bridge/delivery.py:189-226 | the exact condition, order aside, under which `_permission_reason` finds nothing |
| Replies.RefusedExactly | rrpp_bridge/delivery.py:189-226 | for each reason, the exact condition under which the check gives it |
| Replies.PermittedPassesTheGates | rrpp_bridge/delivery.py:189-206 | a delivery that passes its check passes the enqueueing gate and the execution gate too |
| Replies.PermittedIsFresh | rrpp_bridge/delivery.py:198-225 | when a bot delivery passes its check, its event is the last one of a conversation that is not paused |
| Checks.EverySendIsChecked | rrpp_bridge/delivery.py:228-241 | every call, on every run, was preceded by a check of the same worker and delivery that found nothing, with no step of that worker in between |
| Checks.StaleExactly | rrpp_bridge/delivery.py:219-241 | under any interleaving a bot message answers an outdated event when it is sent if and only if an event of its conversation was accepted between its check and its call |
| Checks.OutOfOrderExactly | rrpp_bridge/delivery.py:219-241 | of two bot messages of a conversation that answer different events, the later call answers the earlier event if and only if their checks were made in the other order |
| Checks.OutOfOrderIsStale | rrpp_bridge/delivery.py:219-241 | a bot message that goes out after the reply to a later event was overtaken between its own check and its call |
| Checks.RepliesStrictlyInOrder | rrpp_bridge/executor.py:150-151 | under lease discipline the events answered in a conversation increase strictly from call to call exactly as far as the checks were made in the order of the calls |
| Checks.AloneRepliesInOrder | rrpp_bridge/executor.py:256-286 | with one worker they increase strictly on every run, whatever crashes, is retried or is recovered |
| Checks.FailureContained | rrpp_bridge/delivery.py:156-298 | from the step where a delivery becomes failed or unknown until an operator resumes its conversation, a bot message is sent in it only if it had passed its own check before that step |
| Checks.CheckAndSendSuffices | rrpp_bridge/delivery.py:233-241 | when each call directly follows its check, every bot message is fresh when sent and none is sent in a paused conversation |
| LateSend.CheckCanGoStale | rrpp_bridge/delivery.py:233-241 | whenever the configuration lets a message be answered at all, some run from every initial state, in whatever mode, sends the answer after the customer's next message was accepted |
| LateSend.RepliesCanCross | rrpp_bridge/delivery.py:233-241 | and with two workers some run sends the reply to the second message before the reply to the first |
| LateSend.InOrderExactly | rrpp_bridge/delivery.py:219-241 | so the strict order holds on every run if and only if there is at most one worker |
| LateSend.ClearedOutlivesFailure | rrpp_bridge/delivery.py:117-241 | the window that containment leaves is real even for one worker: whenever a message can be answered at all, in some run a delivery becomes unknown and pauses its conversation, and the next reply of the conversation, checked before, is still sent |
| Outcomes.StepMoves | rrpp_bridge/delivery.py:117-298 | the complete transition table of a delivery row over every step of the system |
| Outcomes.FailurePauses | rrpp_bridge/delivery.py:156-163 | the very step that makes a delivery failed or unknown leaves its conversation paused |
| Outcomes.PauseLasts | rrpp_bridge/workspace.py:188-202 | nothing but the operator's resume ends a pause |
| Lease.DisciplinedRunsHold | rrpp_bridge/queue.py:129-166 | under lease discipline queued implies attempts below the maximum, processing between 1 and the maximum, and no job is held twice or answered twice |
| Lease.AtMostOneAnswer | rrpp_bridge/executor.py:129-215 | under lease discipline a job gets one agent action and an event one bot delivery, across crashes, failures and new claims |
| Solo.AloneAnswersOnce | rrpp_bridge/executor.py:129-215 | with one worker a job gets one agent action on every run, including leases recovered from under it, retries and crashes |
| LateWorker.SecondWorkerAnswersAgain | rrpp_bridge/queue.py:147-182 | with two workers, from every initial state and for every limit on attempts, some run answers a job twice: the worker that outlived its lease does |
| LateWorker.AnsweredOnceExactly | rrpp_bridge/executor.py:129-215 | from an initial state every run answers each job once at most if and only if there is at most one worker |
| Retries.AloneIsBounded | rrpp_bridge/queue.py:120-166 | with one worker, on every run, a queued job has attempts left and one in progress is within the limit |
| Retries.SecondWorkerOverruns | rrpp_bridge/queue.py:129-182 | with two workers, from every initial state and for every limit, some run puts a job back in the queue after its last attempt |
| Retries.BoundedExactly | rrpp_bridge/queue.py:120-182 | so attempts are bounded on every run if and only if there is at most one worker |
| Lease.HumanReplyWins | rrpp_bridge/executor.py:131-139 | once an action is on record for a job before a worker has passed its lookup, the agent never answers that job |
| Drain.InternalLowers | rrpp_bridge/executor.py:256-286 | every step of the bridge itself, with any number of workers and leases recovered from under them, changes nothing or lowers one natural number |
| Drain.WorkersDrain | rrpp_bridge/executor.py:256-286 | on every run, between arrivals of new work the workers take at most that many productive steps |
| Drain.CanAlwaysAdvance | rrpp_bridge/queue.py:89-166 | in every safe state in which a job or delivery is unsettled or a worker busy, some step of the bridge itself is possible and changes something |
| Drain.QuietExactly | rrpp_bridge/queue.py:89-166 | such a step exists if and only if something is queued, in progress, waiting or in flight, or a worker is busy |
| Drain.EveryOrderDrains | rrpp_bridge/executor.py:256-286 | in whatever order the bridge takes its own steps, there are at most that many, and none is left exactly when nothing is queued, in progress, waiting or in flight and every worker is idle |
| Drain.CanDrain | rrpp_bridge/executor.py:256-286 | from every safe state the bridge can reach, by steps of its own, one where nothing is queued, in progress, waiting or in flight and every worker is idle |
| Routing.KeysMeetExactly | rrpp_bridge/adapters/instagram.py:89 | customers of two accounts can share a work key exactly when the ids are equal or one extends the other by a colon and what a customer id may begin with |
| Routing.SendsAreRouted | rrpp_bridge/delivery.py:237-241 | every message sent left from the account, and went to the customer, of every event of its conversation, through a registered sender |
| Routing.RunsAreRouted | rrpp_bridge/workspace.py:25-70 | conversations and deliveries, bot or human, keep the account and the customer of their events in every reachable state |
| Ingress.ReplayIsConserved | rrpp_bridge/instagram_webhook.py:101-135 | after any posts, repeated, overlapping or reordered, the Instagram events are exactly the distinct messages received, each once; accepted counts add up to them; each receipt accounts for its whole body, ignored items included |
| Ingress.PostsCommit | rrpp_bridge/instagram_webhook.py:104-137 | for account ids unique up to case no post is ever rolled back, in any run |
| AccountIds.CommitsExactly | rrpp_bridge/workspace.py:25-70 | from an initial state no post is ever rolled back, on any run, if and only if the account ids are unique up to case |
| AccountIds.CaseMisroutes | rrpp_bridge/workspace.py:25-38 | for two ids equal up to case, two posts show a customer of one under the other |
| AccountIds.ExtensionMisroutes | rrpp_bridge/workspace.py:41-70 | when one id extends another by a colon, two posts put a customer of each in one conversation |
| AccountIds.RoutedExactly | rrpp_bridge/workspace.py:25-70 | from an initial state conversations keep the account and the customer of all their messages, on every run, if and only if the account ids are distinguishable |
| Ingress.EnqueueAllCounts | rrpp_bridge/instagram_webhook.py:113-118 | the counting loop splits the events into accepted and duplicates and adds exactly the unknown ids |
| InstagramWebhook.Application.Post | rrpp_bridge/instagram_webhook.py:85-140 | a payload that does not normalize changes nothing, and leaves the application by an exception exactly when its first fault is of that kind; otherwise the post commits the receipt with all its events or nothing at all, and every event meets what the routing proofs assume |
| Instagram.Normalize | rrpp_bridge/adapters/instagram.py:35-114 | accepts exactly the payloads whose items are objects and, where they deserve an event, within the limits and with a usable time; fails past the application exactly when the first fault is of that kind; otherwise keeps, in order, exactly the messages to be kept, makes an event of each, and counts every other item under what it lacks |
| Instagram.NormalizePartitions | rrpp_bridge/adapters/instagram.py:48-98 | number of events plus number of ignored reasons equals the number of messaging items |
| Instagram.KeptExactly | rrpp_bridge/adapters/instagram.py:54-106 | the rule for keeping an item, independent of the order of the checks, with its limits and time, in both directions, and what is kept of it |
| Instagram.RaisedExactly | rrpp_bridge/adapters/instagram.py:11-14 | exactly which items turn the whole payload down, and which of them by an exception that the application does not catch |
| Instagram.ReasonExactly | rrpp_bridge/adapters/instagram.py:57-84 | for each reason, exactly which items are counted under it |
| Instagram.KeptInOrder | rrpp_bridge/adapters/instagram.py:90-97 | the n-th item to be kept is the n-th kept message, and there are no others |
| Instagram.IgnoredCounts | rrpp_bridge/adapters/instagram.py:45-84 | each reason is counted as often as an item lacks it |
| Instagram.EventsAreRouted | rrpp_bridge/adapters/instagram.py:65-107 | every event is for a configured account, from a present and trimmed sender that is not one, under the key of the two |
| Instagram.SafeMatchesEvents | rrpp_bridge/adapters/instagram.py:90-109 | sanitized messages and events correspond one to one and in order, each event with the id, sender, account, key and trimmed text of its message |
| Instagram.IgnoredReason | rrpp_bridge/instagram_webhook.py:21-29 | which code a receipt gets, for every combination of duplicates and reasons |
| Topics.PhraseIsWindow | rrpp_bridge/policy.py:87-89 | the padded substring test holds exactly when the phrase's words are consecutive tokens of the text |
| Topics.ControlledExactly | rrpp_bridge/policy.py:92-99 | a controlled topic is present exactly when a token is a listed word or the tokens contain a listed phrase |
| Topics.ListedPhrases | rrpp_bridge/policy.py:35-38 | every phrase of the policy's list is in the form the search relies on, and all but one hold a listed word |
| Topics.PolicyTopicsExactly | rrpp_bridge/policy.py:23-38 | with the policy's own lists a controlled topic is present exactly when a token is a listed word or "guest" is followed by "list" |
| Topics.NormalizeIdempotent | rrpp_bridge/policy.py:79-84 | normalizing twice is normalizing once, and keeps the tokens |
| Topics.TokensRoundTrip | rrpp_bridge/policy.py:84 | joining tokens and splitting them again, by token characters or white space, gives them back |
| Topics.MatchSurvives | rrpp_bridge/policy.py:87-99 | a match survives in every longer message that holds the text as whole words |
| Policy.ValidReferences | rrpp_bridge/policy.py:152-172 | true exactly for a bounded list of well-formed, pairwise different references |
| Policy.AllowedExactly | rrpp_bridge/policy.py:188-274 | the exact set of actions that are allowed: well-formed human replies and eligible agent replies on Instagram |
| Policy.IgnoredExactly | rrpp_bridge/policy.py:209-237 | a message is ignored exactly when the agent's complete, structured decision says spam, without text or references, and no pause, incident, restricted operation or controlled topic is against it |
| Policy.BlockedExactly | rrpp_bridge/policy.py:193-207 | blocked are exactly unknown actions, and human replies that are malformed or not for Instagram |
| Policy.PendingExactly | rrpp_bridge/policy.py:199-244 | which actions are left for approval; all others are escalated |
| Policy.TextExactly | rrpp_bridge/policy.py:131-137 | a text is valid exactly when, between white space, it has 1 to 1000 characters and no control characters but tabs and line breaks |
| Policy.LanguageExactly | rrpp_bridge/policy.py:140-143 | a language is valid exactly when it is a primary tag, or one with a subtag after a hyphen |
| Text.StripExactly | rrpp_bridge/workspace.py:25-38 | trimming takes away the white space at both ends and nothing else |
| Text.FoldExactly | rrpp_bridge/sql/009_conversation_catalog_delivery.sql:4 | two ids are the same to the index exactly when they agree letter by letter up to ASCII case |
| Gates.GatesAgree | rrpp_bridge/action_executor.py:17-29 | the enqueue condition, `decide_execution` and the permission check accept the same tuples |
| Gates.ModesOnlyRestrict | rrpp_bridge/action_executor.py:19-29 | no mode widens the policy; shadow, dry-run and unknown modes pass nothing; canary is the listed part of live |
| Safety.StepKeepsInv | rrpp_bridge/db.py:107-116 | every enabled step of the system keeps the whole invariant and removes or rewrites no append-only row |
| Safety.RunsAreSafe | rrpp_bridge/db.py:107-116 | every state of every run satisfies the invariant |
| QueueInvariant.ClaimRows | rrpp_bridge/queue.py:105-124 | row by row what a claim does: the job taken, the other queued ones of its key whose time has come superseded by it, all else untouched |
| QueueInvariant.RecoverRows | rrpp_bridge/queue.py:147-166 | row by row what a recovery does: jobs in progress whose lease has run out become dead letters or due, all else is untouched |
| QueueInvariant.KeyIsConversation | rrpp_bridge/workspace.py:41-70 | two events have the same work key exactly when they are in the same conversation |
| Indexes.IndexesHold | rrpp_bridge/sql/009_conversation_catalog_delivery.sql:46-48 | in every reachable state account ids of a channel differ by more than case, and a conversation is the only one with its key and the only one with its account and customer |
| QueueRules.ClaimIsOnTime | rrpp_bridge/queue.py:89-124 | the claimed job was queued and due and its key idle, it is the newest due one of its key, and exactly the other due ones of the key are superseded |
| QueueRules.RecoversExpired | rrpp_bridge/queue.py:147-166 | exactly the jobs in progress whose lease ends by now leave progress, by their attempts to the dead letters or to an immediate retry |
| QueueRules.FailsWithDelay | rrpp_bridge/queue.py:129-143 | a failure from the last attempt on makes a dead letter, an earlier one puts the job back after five seconds doubled per attempt, at most 300 |
| QueueRules.EnqueueMeans | rrpp_bridge/queue.py:33-77 | a known message is only noted; a new one has one event, one job due after the debounce, one timeline message; with a debounce the queued jobs of its key wait with it, and no other job changes |
| QueueRules.EnqueueFailsExactly | rrpp_bridge/queue.py:43-87 | insertion fails exactly for an unknown message whose account and customer belong to a conversation of another key |
| Queue.JobQueue.EnqueueInTransaction | rrpp_bridge/queue.py:33-87 | a known message is only noted; a new one gets its event, its job due after the debounce, timeline message and audit entry, and moves the queued jobs of its own key and no others; fails exactly when another key's conversation has the account and customer |
| Queue.JobQueue.Enqueue | rrpp_bridge/queue.py:29-31 | the same, all or nothing |
| Queue.JobQueue.ClaimNext | rrpp_bridge/queue.py:89-127 | None exactly when every queued job whose time has come has a job of its key in progress, leaving everything as it was; otherwise the newest due job of the key of an oldest servable one, with the batching loop superseding exactly the other due ones |
| Queue.JobQueue.Fail | rrpp_bridge/queue.py:129-145 | back to the queue after five seconds doubled per attempt, at most 300, or at once to the dead letters, decided by the attempts of the claimed row; keeps the job invariant |
| Queue.JobQueue.RecoverStale | rrpp_bridge/queue.py:147-166 | the recovery loop recovers exactly the jobs whose lease ends by now, counts them, and touches no other |
| Queue.NoneStale | rrpp_bridge/queue.py:149-165 | after a recovery every job in progress has a lease beyond now, and the job invariant holds |
| Queue.JobQueue.Retry | rrpp_bridge/queue.py:168-182 | exactly dead letters go back to the queue, due at once and with no attempts counted |
| Queue.JobQueue.Dismiss | rrpp_bridge/queue.py:184-196 | exactly dead letters are dismissed |
| DeliveryRules.QueuesDelivery | rrpp_bridge/delivery.py:26-52 | which targets and texts are accepted, and what is then added |
| DeliveryRules.CreatesReply | rrpp_bridge/delivery.py:55-95 | exactly which conversations and texts an operator can answer, and the rows a reply adds, about the last event and to the conversation's own customer |
| DeliveryRules.TakesFirstDue | rrpp_bridge/delivery.py:140-154 | the delivery taken is the first waiting one whose time has come, with one attempt more until the lease's end |
| DeliveryRules.Withholds | rrpp_bridge/delivery.py:165-187 | every modelled column a suppression writes, and when it fails |
| DeliveryRules.RecordsSent | rrpp_bridge/delivery.py:245-275 | every modelled column the recording of a sent message writes, the conversation being closed, and when it fails |
| DeliveryRules.RecordsError | rrpp_bridge/delivery.py:278-297 | every modelled column the recording of an error writes, and when it fails |
| DeliveryRules.RecoversSends | rrpp_bridge/delivery.py:117-138 | exactly the sends whose lease ends by now become unknown; attempts, reviews and pauses are exactly those of theirs |
| DecisionRules.DecisionsExactly | rrpp_bridge/executor.py:101-121 | exactly which decisions are allowed and which are ignored, in terms of the provider's answer |
| DecisionRules.Decides | rrpp_bridge/executor.py:162-231 | which of delivery, nothing or review becomes of a decision, every modelled column written, and that it fails only on a reply that cannot be delivered |
| DecisionRules.Executes | rrpp_bridge/action_executor.py:39-68 | what the first execution of an action records, and the state it leaves the action in |
| WorkspaceRules.RoutesMessage | rrpp_bridge/workspace.py:25-70 | the conversation a message gets, its account up to case, its customer, and its status when it was closed |
| WorkspaceRules.RouteFailsExactly | rrpp_bridge/sql/009_conversation_catalog_delivery.sql:46-48 | fails exactly when a conversation of another key has the account and customer |
| WorkspaceRules.EditsDraft | rrpp_bridge/workspace.py:224-242 | which edits are accepted, refused or fail, and that the trimmed text becomes the next revision |
| WorkspaceRules.MovesReview | rrpp_bridge/workspace.py:245-283 | which transitions are made, refused or fail; the action's state follows the target, and the conversation is pending review exactly if another pending review concerns it |
| Delivery.EnqueueDelivery | rrpp_bridge/delivery.py:26-52 | one delivery per action; an invalid target or text is refused without a trace |
| Delivery.CreateHumanReply | rrpp_bridge/delivery.py:55-95 | action, allowed policy row, delivery and status together, or nothing |
| Delivery.DeliveryExecutor.EnsureEscalation | rrpp_bridge/delivery.py:156-163 | the action has a review afterwards, a new one being a pending escalation, older reviews are kept, and the conversation is paused and pending review |
| Delivery.DeliveryExecutor.RecoverStale | rrpp_bridge/delivery.py:117-138 | the recovery loop marks exactly the expired sends unknown, records each attempt at most once, and pauses |
| Delivery.DeliveryExecutor.Claim | rrpp_bridge/delivery.py:140-154 | the first pending due delivery, or None exactly when there is none |
| Delivery.DeliveryExecutor.Suppress | rrpp_bridge/delivery.py:165-187 | suppressed, and for a bot message under review, all or nothing |
| Delivery.DeliveryExecutor.FinishSent | rrpp_bridge/delivery.py:245-275 | sent, recorded and in the timeline, or rolled back when the attempt is already recorded |
| Delivery.DeliveryExecutor.FinishError | rrpp_bridge/delivery.py:278-297 | failed or unknown, recorded and escalated, or rolled back when the attempt is already recorded |
| Delivery.DeliveryExecutor.RunOnce | rrpp_bridge/delivery.py:228-276 | an undisturbed turn is a stretch of a run, calls the service at most once, never meets a rollback, and leaves the delivery in the status its call deserves |
| Workspace.ReceiverAccount | rrpp_bridge/workspace.py:25-38 | an account of that channel with that id up to ASCII case, found or appended |
| Workspace.EnsureConversation | rrpp_bridge/workspace.py:41-70 | the conversation of the key with its account and customer current, reopened if closed; fails exactly on a clash with another conversation |
| Workspace.SetConversationStatus | rrpp_bridge/workspace.py:174-185 | only the operator's two targets, only an existing conversation |
| Workspace.SetBotPaused | rrpp_bridge/workspace.py:188-202 | the conversation is pending review exactly when it is paused now, open otherwise, with the same customer; no other conversation changes |
| Workspace.CreateReview | rrpp_bridge/workspace.py:205-221 | one review per action, with revision 1 for a draft |
| Workspace.EditReview | rrpp_bridge/workspace.py:224-242 | a new revision of a pending draft, or nothing |
| Workspace.TransitionReview | rrpp_bridge/workspace.py:245-283 | pending reviews only, targets that fit their kind only, and the conversation's status follows what is still pending |
| LocalExecution.LocalActionExecutor.Execute | rrpp_bridge/action_executor.py:39-68 | an action is executed at most once, and as executed exactly when the enqueue gate would accept it |
| Executor.Executor.CommitDecision | rrpp_bridge/executor.py:162-236 | delivery, ignored or review, all or nothing |
| Executor.Executor.ActionForJob | rrpp_bridge/executor.py:129-156 | existing action, supersession, exception or decision, each as steps of the transition system |
| Executor.Executor.Decide | rrpp_bridge/executor.py:152-236 | policy, mode and deciding transaction as steps of the transition system |
| Executor.Executor.SupersedeJob | rrpp_bridge/executor.py:246-254 | the job is superseded and its key free again; the job invariant is kept when the successor is a later job of the key |
| Executor.Executor.Complete | rrpp_bridge/executor.py:272-279 | the job is completed and its key free again; the job invariant and "completed jobs have an action" are kept |
| Executor.Executor.HandleJob | rrpp_bridge/executor.py:263-286 | a claimed job is completed, superseded or handed to `fail`, but not left in progress by an undisturbed worker |
| Executor.Executor.RunOnce | rrpp_bridge/executor.py:256-286 | an undisturbed turn is a stretch of a run; no work is reported only when no delivery is waiting and due and every available job's key is busy, and a claimed job is not left in progress |

## Left out

- Web pages, command line, WSGI and session handling: the operator actions they trigger are steps of the system.
- The HTTP client of the messaging service and the agent provider: any ending and any answer may come back.
- Signature checks, configuration parsing, backups, heartbeats, runtime locks and migrations.
- The catalog and venue tables, and what the agent is shown: they bear on the content of answers only.
- Columns that nothing modelled reads back: timestamps of display, error codes and messages, pause reasons, assigned operators, policy ids and reasons, payload JSON, `agent_decisions`, and the audit entries about actions, conversations, policies and providers.
- The policy's other word lists and the patterns it searches texts for are facts given with each message, as is whether a controlled topic is present; accents and case folding are applied before `Topics` begins.
- Case folding of customer ids against the canary list: the list is given as the set of customers it covers.
- Ids are row numbers, so they are fresh and increasing by construction; events are inserted with their job in one transaction and share its number.
- One clock reading stands for the several that one transaction takes.
- The row that `ORDER BY created_at LIMIT 1` returns among rows with equal times: the transition system allows any of them, the procedures take the lowest row.
- Consecutive reads inside `LocalActionExecutor.execute` before its transaction are one step.
- Queue.JobQueue.EnqueueInTransaction: the second lookup after an integrity error is not modelled, because within one immediate transaction it finds what the first lookup found.
- Delivery.DeliveryExecutor.RunOnce: covers a worker that nobody disturbs and that does not die; interleavings, crashes and deaths in mid-send are covered by the transition system.
- Executor.Executor.HandleJob: covers a worker that nobody disturbs and that does not die; a lease recovered from under it is covered by the transition system.
- Executor.Executor.RunOnce: covers a turn in which no other worker steps and this one does not die; every other interleaving is a run of the transition system.
- The defaults that the delivery executor's constructor derives for senders and tokens are given as its configuration.
- Routing.SendsAreRouted: assumes distinguishable account ids, which `AccountIds.RoutedExactly` shows to be exactly what routing needs.
- The adapter's limits on the length of ids and texts are part of `Instagram.Normalize`; the transition system allows messages of any length.
- Lease.AtMostOneAnswer: is about runs under lease discipline, because without it the property holds for at most one worker only, as `AnsweredOnceExactly` shows.
- Two dashboard operations made of two transactions, such as sending a reviewed draft, are two steps.
- Legacy rows with NULL accounts or conversations, from before the migrations that introduced them.
