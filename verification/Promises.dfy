/** What the bridge promises in every state of every run, whatever the interleaving: nothing accepted is lost,
    nothing is sent twice, no status lies, and the audit log tells the whole story. */
module Promises {
  import opened Types
  import opened WorkspaceModel
  import opened QueueModel
  import opened DeliveryModel
  import opened WorkerModel
  import opened System
  import opened QueueInvariant
  import opened LinkInvariant
  import opened AnswerInvariant
  import opened AuditInvariant
  import opened Safety
  import opened Outcomes
  import ProtocolInvariant
  import Provenance

  // -------------------------------------------------------- no message is lost

  /** Follow `superseded_by_job_id` to the job that speaks for this one. */
  ghost function Resolve(jobs: seq<Job>, j: nat): (r: nat)
    requires j < |jobs| && forall i :: 0 <= i < |jobs| ==> SuccessorOk(jobs, i, jobs[i])
    ensures j <= r < |jobs| && jobs[r].key == jobs[j].key && !jobs[r].state.Superseded?
    ensures jobs[j].state.Superseded? ==> j < r
    decreases |jobs| - j
  {
    assert SuccessorOk(jobs, j, jobs[j]);
    if jobs[j].state.Superseded? then Resolve(jobs, jobs[j].successor.value) else j
  }

  /** Every accepted event has exactly one job.  It is waiting, in progress, set aside for an operator, completed
      with an action to show for it, or superseded: then a later job of the same conversation speaks for it. */
  lemma NoMessageIsLost(ss: seq<Sys>, steps: seq<Step>, i: nat, e: nat)
    requires IsRun(ss, steps) && i < |ss| && e < |ss[i].db.events|
    ensures var db := ss[i].db;
      && |db.jobs| == |db.events|
      && (forall j :: 0 <= j < |db.jobs| ==> (db.jobs[j].event == e <==> j == e))
      && (db.jobs[e].state.Completed? ==> HasAction(db.actions, e))
      && (forall j :: 0 <= j < |db.jobs| ==> SuccessorOk(db.jobs, j, db.jobs[j]))
      && var final := Resolve(db.jobs, e);
         && db.events[final].conv == db.events[e].conv
         && (db.jobs[e].state.Superseded? ==> e < final)
         && (db.jobs[final].state.Completed? ==> HasAction(db.actions, final))
  {
    hide LinkInv, DraftInv, AnswerInv, AuditInv, PcInv, Protocol;
    RunsAreSafe(ss, steps, i);
    var db := ss[i].db;
    KeyIsConversation(db, e, Resolve(db.jobs, e));
  }

  /** A work key never has two jobs in progress; leases and worker ids are set exactly on jobs in progress; and the
      event's status is the one that belongs to its job's state. */
  lemma JobsAreExclusive(ss: seq<Sys>, steps: seq<Step>, i: nat, j: nat, k: nat)
    requires IsRun(ss, steps) && i < |ss| && j < |ss[i].db.jobs| && k < |ss[i].db.jobs|
    ensures var db := ss[i].db;
      && (db.jobs[j].state.Processing? && db.jobs[k].state.Processing? && db.jobs[j].key == db.jobs[k].key ==> j == k)
      && j < |db.status| && StatusFits(db.jobs[j].state, db.status[j])
      && (db.jobs[j].state.Processing? <==> db.jobs[j].lease.Some?)
      && (db.jobs[j].state.Processing? <==> db.jobs[j].worker.Some?)
  {
    hide ConvInv, LinkInv, DraftInv, AnswerInv, AuditInv, PcInv, Protocol;
    RunsAreSafe(ss, steps, i);
    assert JobOk(ss[i].db.jobs[j], ss[i].db.status[j]);
  }

  // -------------------------------------------------- at most once, truthfully

  /** `send_text` is called at most once per delivery, and a delivery the remote service took is never shown as
      waiting, withheld or failed; one shown as sent was taken. */
  lemma AtMostOnceAndTruthful(ss: seq<Sys>, steps: seq<Step>, i: nat, d: nat)
    requires IsRun(ss, steps) && i < |ss| && d < |ss[i].db.deliveries|
    ensures forall k, l :: 0 <= k < l < |ss[i].sends| ==> ss[i].sends[k].delivery != ss[i].sends[l].delivery
    ensures var status := ss[i].db.deliveries[d].status;
      && (d in ss[i].accepted ==> status.Sending? || status.Sent? || status.Unknown?)
      && (status.Sent? ==> d in ss[i].accepted)
      && (d in ss[i].accepted ==> ProtocolInvariant.Called(ss[i].sends, d))
  {
    hide ConvInv, JobRows, LinkInv, DraftInv, AnswerInv, AuditInv, PcInv;
    RunsAreSafe(ss, steps, i);
    var p := ProtocolInvariant.ProtocolOf(ss[i]);
    assert ProtocolInvariant.StatusTrue(p.rows[d], ProtocolInvariant.Recorded(p.attempts, d),
                                        ProtocolInvariant.Called(p.sends, d), d in p.accepted);
  }

  /** The number of timeline messages that delivery `d` is the source of. */
  function Copies(messages: seq<Message>, d: nat): nat {
    if messages == [] then 0
    else Copies(messages[..|messages| - 1], d) + (if messages[|messages| - 1].source == FromDelivery(d) then 1 else 0)
  }

  lemma {:induction false} CopiesCount(messages: seq<Message>, d: nat)
    requires forall i, k :: 0 <= i < k < |messages| && messages[i].source.FromDelivery? ==>
      messages[i].source != messages[k].source
    ensures Copies(messages, d) == if HasOutbound(messages, d) then 1 else 0
  {
    if messages != [] {
      var n := |messages| - 1;
      CopiesCount(messages[..n], d);
      if HasOutbound(messages[..n], d) {
        var i :| 0 <= i < n && messages[..n][i].source == FromDelivery(d);
        assert messages[i].source == FromDelivery(d);
      } else if HasOutbound(messages, d) {
        var i :| 0 <= i < |messages| && messages[i].source == FromDelivery(d);
        assert forall k :: 0 <= k < n ==> messages[..n][k] == messages[k];
      }
      assert messages[n].source == FromDelivery(d) ==> HasOutbound(messages, d);
    }
  }

  /** Status sent, exactly one outbound message of this delivery, and its attempt row marked sent are equivalent,
      and no delivery has a second attempt row. */
  lemma SentMeansRecorded(ss: seq<Sys>, steps: seq<Step>, i: nat, d: nat)
    requires IsRun(ss, steps) && i < |ss| && d < |ss[i].db.deliveries|
    ensures var db := ss[i].db;
      && (db.deliveries[d].status.Sent? <==> Copies(db.messages, d) == 1)
      && (db.deliveries[d].status.Sent? <==> (d, 1) in db.attempts && db.attempts[(d, 1)] == WasSent)
      && (forall n: nat :: (d, n) in db.attempts ==> n == 1)
  {
    hide ConvInv, JobRows, LinkInv, DraftInv, AnswerInv, AuditInv, PcInv;
    RunsAreSafe(ss, steps, i);
    var p := ProtocolInvariant.ProtocolOf(ss[i]);
    assert ProtocolInvariant.StatusTrue(p.rows[d], ProtocolInvariant.Recorded(p.attempts, d),
                                        ProtocolInvariant.Called(p.sends, d), d in p.accepted);
    CopiesCount(p.messages, d);
    if HasOutbound(p.messages, d) {
      var m :| 0 <= m < |p.messages| && p.messages[m].source == FromDelivery(d);
    }
  }

  /** Nothing returns to waiting, and sent, failed and withheld rows are never written again. */
  lemma {:induction false} SettledForGood(ss: seq<Sys>, steps: seq<Step>, i: nat, k: nat, d: nat)
    requires IsRun(ss, steps) && i <= k < |ss| && d < |ss[i].db.deliveries|
    ensures d < |ss[k].db.deliveries|
    ensures var a, b := ss[i].db.deliveries[d], ss[k].db.deliveries[d];
      && b.intent == a.intent
      && (a.status.Sent? || a.status.Failed? || a.status.Withheld? ==> b == a)
      && (!a.status.Waiting? ==> !b.status.Waiting?)
  {
    hide Inv, Next;
    if i < k {
      SettledForGood(ss, steps, i, k - 1, d);
      RunsAreSafe(ss, steps, k - 1);
      assert Enabled(ss[k - 1], steps[k - 1]) && ss[k - 1 + 1] == Next(ss[k - 1], steps[k - 1]);
      StepMoves(ss[k - 1], steps[k - 1], d);
    }
  }

  // ------------------------------------------------------- no answer vanishes

  /** Every action of the agent is waiting, in flight or sent, is under review, or was ignored by policy; and then the
      decision was a complete one that the message is spam, and nothing about the message spoke against it. */
  lemma NoAnswerVanishes(ss: seq<Sys>, steps: seq<Step>, i: nat, a: nat)
    requires IsRun(ss, steps) && i < |ss| && a < |ss[i].db.actions| && ss[i].db.actions[a].author.Agent?
    ensures var db := ss[i].db;
      || a in db.reviews
      || (db.actions[a].kind.NoAction? && a in db.policies && db.policies[a].Ignored?
          && exists k :: 0 <= k < i && Provenance.DropsSpam(ss[k], steps[k], a))
      || (exists d :: 0 <= d < |db.deliveries| && db.deliveries[d].intent.action == a && Ongoing(db.deliveries[d]))
  {
    hide ConvInv, JobRows, LinkInv, DraftInv, AuditInv, PcInv, Protocol, Provenance.DropsSpam;
    RunsAreSafe(ss, steps, i);
    assert Accounted(a, ss[i].db.actions[a].kind, ss[i].db.policies, ss[i].db.reviews, ss[i].db.deliveries);
    if a in ss[i].db.policies && ss[i].db.policies[a].Ignored? {
      var k := Provenance.IgnoredWasSpam(ss, steps, i, a);
    }
  }

  /** Every delivery ever created answers an action that the policy had allowed by then. */
  lemma OnlyAllowedIsQueued(ss: seq<Sys>, steps: seq<Step>, i: nat, d: nat)
    requires IsRun(ss, steps) && i < |ss| && d < |ss[i].db.deliveries|
    ensures var db, a := ss[i].db, ss[i].db.deliveries[d].intent.action;
      && a < |db.actions| && a in db.policies && db.policies[a].Allowed?
      && (forall c :: 0 <= c < |db.deliveries| && db.deliveries[c].intent.action == a ==> c == d)
  {
    hide ConvInv, JobRows, DraftInv, AnswerInv, AuditInv, PcInv, Protocol;
    RunsAreSafe(ss, steps, i);
    assert IntentOk(ss[i].db.events, ss[i].db.actions, ss[i].db.policies, ss[i].db.deliveries[d].intent);
  }

  // ------------------------------------------------------------------- audit

  /** The last entry about a job, a review or a delivery names its state; only the pending-to-sending step of a
      delivery leaves no entry. */
  lemma AuditReplays(ss: seq<Sys>, steps: seq<Step>, i: nat)
    requires IsRun(ss, steps) && i < |ss|
    ensures var db := ss[i].db;
      && (forall j: nat :: j < |db.jobs| ==> LastJob(db.audit, j) == db.jobs[j].state)
      && (forall r: nat :: LastReview(db.audit, r) == if r in db.reviews then Some(db.reviews[r].status) else None)
      && (forall d: nat :: d < |db.deliveries| ==>
            LastDelivery(db.audit, d) == Some(if db.deliveries[d].status.Sending? then Waiting
                                              else db.deliveries[d].status))
  {
    hide ConvInv, JobRows, LinkInv, DraftInv, AnswerInv, PcInv, Protocol;
    RunsAreSafe(ss, steps, i);
  }

  // ----------------------------------------------------------------- reviews

  /** A draft has exactly the revisions 1 .. version, and the last one is its text. */
  lemma DraftLogIsContiguous(ss: seq<Sys>, steps: seq<Step>, i: nat, r: nat)
    requires IsRun(ss, steps) && i < |ss| && r in ss[i].db.reviews && ss[i].db.reviews[r].kind.Draft?
    ensures var review, revisions := ss[i].db.reviews[r], ss[i].db.revisions;
      && review.version >= 1
      && (forall v: nat :: (r, v) in revisions <==> 1 <= v <= review.version)
      && revisions[(r, review.version)] == review.text
  {
    hide ConvInv, JobRows, LinkInv, AnswerInv, AuditInv, PcInv, Protocol;
    RunsAreSafe(ss, steps, i);
    var reviews, revisions := ss[i].db.reviews, ss[i].db.revisions;
    assert DraftOk(r, reviews[r], revisions);
    forall v: nat | (r, v) in revisions
      ensures 1 <= v <= reviews[r].version
    {
      assert RevisionOk((r, v), reviews);
    }
  }

  /** A review that is no longer pending keeps its row and its revisions. */
  ghost predicate FinalsKept(a: Db, b: Db) {
    forall r :: r in a.reviews && !a.reviews[r].status.Pending? ==>
      && r in b.reviews && b.reviews[r] == a.reviews[r]
      && forall v: nat :: ((r, v) in a.revisions <==> (r, v) in b.revisions)
                          && ((r, v) in a.revisions ==> b.revisions[(r, v)] == a.revisions[(r, v)])
  }

  ghost predicate ReviewsExtended(a: map<nat, Review>, b: map<nat, Review>) {
    forall r :: r in a ==> r in b && b[r] == a[r]
  }

  lemma RecoverReviews(db: Db, d: nat)
    requires d < |db.deliveries|
    ensures ReviewsExtended(db.reviews, RecoverDelivery(db, d).reviews)
  {}

  lemma {:induction false} RecoverAllReviews(db: Db, ids: seq<nat>)
    requires forall k :: 0 <= k < |ids| ==> ids[k] < |db.deliveries|
    ensures ReviewsExtended(db.reviews, RecoverAll(db, ids).reviews)
  {
    hide RecoverDelivery;
    if ids != [] {
      var n := |ids| - 1;
      RecoverAllReviews(db, ids[..n]);
      RecoverReviews(RecoverAll(db, ids[..n]), ids[n]);
    }
  }

  lemma ExtendedFinals(a: Db, b: Db)
    requires ReviewsExtended(a.reviews, b.reviews) && b.revisions == a.revisions
    ensures FinalsKept(a, b)
  {}

  lemma ErrorReviews(db: Db, d: nat, n: nat, ambiguous: bool)
    requires d < |db.deliveries| && FinishError(db, d, n, ambiguous).Some?
    ensures FinalsKept(db, FinishError(db, d, n, ambiguous).value)
  {
    var after := FinishError(db, d, n, ambiguous).value;
    assert ReviewsExtended(db.reviews, after.reviews);
    ExtendedFinals(db, after);
  }

  lemma CommitReviews(db: Db, cfg: Config, j: nat, d: Decision, outcome: Outcome, mode: Mode, now: nat)
    requires LinkInv(db) && Aligned(db) && j < |db.jobs|
    requires CommitDecision(db, cfg, j, d, outcome, mode, now).Some?
    ensures FinalsKept(db, CommitDecision(db, cfg, j, d, outcome, mode, now).value)
  {
    hide CommitDecision, EnqueueDelivery, Queues;
    CommitShape(db, cfg, j, d, outcome, mode, now);
  }

  lemma ActFinals(s: Sys, w: nat, a: Act)
    requires LinkInv(s.db) && Aligned(s.db) && CanAct(s, w, a)
    ensures FinalsKept(s.db, DbAfter(s, w, a))
  {
    hide LinkInv, FinalsKept, ReviewsExtended, CommitDecision, Suppress, FinishSent, FinishError, LogJobs,
      PermissionReason, PolicyOutcome, Claim, Fail, Complete, Supersede, IsOldest, IsNewest, IsFirstAction;
    var p, db := s.workers[w], s.db;
    SameFinals(db, db);
    match a
    case CommitAnswer(f, now) =>
      var outcome := PolicyOutcome(db, p, f);
      if CommitDecision(db, s.cfg, p.job, p.stage.decision, outcome, p.stage.mode, now).Some? {
        CommitReviews(db, s.cfg, p.job, p.stage.decision, outcome, p.stage.mode, now);
      }
    case RecordError =>
      if FinishError(db, p.delivery, p.attempt, p.leg.ambiguous).Some? {
        ErrorReviews(db, p.delivery, p.attempt, p.leg.ambiguous);
      }
    case Withhold => if Suppress(db, p.delivery).Some? { SuppressFinals(db, p.delivery); }
    case _ => SameFinals(db, DbAfter(s, w, a));
  }

  lemma SameFinals(a: Db, b: Db)
    requires a.reviews == b.reviews && a.revisions == b.revisions
    ensures FinalsKept(a, b)
  {}

  lemma SuppressFinals(db: Db, d: nat)
    requires d < |db.deliveries| && Suppress(db, d).Some?
    ensures FinalsKept(db, Suppress(db, d).value)
  {
    hide Suppress;
  }

  lemma EditFinals(db: Db, r: nat, text: string)
    requires EditReview(db, r, text).Edited?
    ensures FinalsKept(db, EditReview(db, r, text).db)
  {}

  lemma TransitionFinals(db: Db, r: nat, target: ReviewStatus)
    requires !target.Pending? && TransitionReview(db, r, target).Moved?
    ensures FinalsKept(db, TransitionReview(db, r, target).db)
  {
    hide HasPending;
  }

  lemma OperationFinals(db: Db, op: Operation)
    requires Aligned(db) && CanOperate(op)
    ensures FinalsKept(db, Operated(db, op))
  {
    hide FinalsKept, EditReview, TransitionReview, Retry, Dismiss, SetBotPaused, SetConversationStatus,
      CreateHumanReply;
    match op
    case Edit(r, text) =>
      if EditReview(db, r, text).Edited? { EditFinals(db, r, text); } else { ExtendedFinals(db, db); }
    case Transition(r, target) =>
      if TransitionReview(db, r, target).Moved? { TransitionFinals(db, r, target); } else { ExtendedFinals(db, db); }
    case _ => ExtendedFinals(db, Operated(db, op));
  }

  /** No edit and no further transition follows a review's final transition. */
  lemma ReviewsEndOnce(s: Sys, step: Step)
    requires Inv(s) && Enabled(s, step)
    ensures FinalsKept(s.db, Next(s, step).db)
  {
    hide ConvInv, JobRows, LinkInv, DraftInv, AnswerInv, AuditInv, PcInv, Protocol, CallsAsWritten, DbAfter, PcAfter,
      Enqueue, Webhook, RecoverAll, RecoverStale, Operated, FinalsKept;
    match step
    case RecoverSends(now) =>
      RecoverAllReviews(s.db, ExpiredDeliveries(s.db.deliveries, now, |s.db.deliveries|));
      ExtendedFinals(s.db, Next(s, step).db);
    case Work(w, a) => ActFinals(s, w, a);
    case Operate(op) => OperationFinals(s.db, op);
    case _ => ExtendedFinals(s.db, Next(s, step).db);
  }

  // ----------------------------------------------------- bursts and backoff

  ghost function QueuedOf(jobs: seq<Job>, key: string): set<nat> {
    set j: nat | j < |jobs| && jobs[j].key == key && jobs[j].state.Queued?
  }

  /** With a debounce, an accepted message moves every queued job of its key to the same time and is the newest; jobs of
      other keys, and jobs that are not queued, stay as they are. */
  lemma BurstShares(db: Db, m: Inbound, now: nat, debounce: nat)
    requires JobInv(db) && debounce > 0 && Enqueue(db, m, now, debounce).Some?
    requires Enqueue(db, m, now, debounce).value.created
    ensures var jobs := Enqueue(db, m, now, debounce).value.db.jobs;
      && |jobs| == |db.jobs| + 1
      && (forall j :: j in QueuedOf(jobs, m.key) ==> jobs[j].availableAt == now + debounce)
      && QueuedOf(jobs, m.key) == QueuedOf(db.jobs, m.key) + {|db.jobs|}
      && (forall j: nat :: j < |db.jobs| && j !in QueuedOf(db.jobs, m.key) ==> jobs[j] == db.jobs[j])
      && jobs[|db.jobs|].availableAt == now + debounce && jobs[|db.jobs|].createdAt == now
  {
    hide EnsureConversation;
    var jobs := Enqueue(db, m, now, debounce).value.db.jobs;
    assert forall j :: 0 <= j < |db.jobs| ==> jobs[j] == db.jobs[j].(availableAt := jobs[j].availableAt);
    assert jobs[|db.jobs|].key == m.key && jobs[|db.jobs|].state.Queued?;
  }

  /** So a burst of unclaimed messages costs one answer: claiming takes the newest, and every other queued job of the
      key, however many, is superseded by it. */
  lemma BurstCollapses(db: Db, m: Inbound, now: nat, debounce: nat, later: nat, until: nat, w: nat)
    requires JobInv(db) && debounce > 0 && Enqueue(db, m, now, debounce).Some? && later >= now + debounce
    requires Enqueue(db, m, now, debounce).value.created && !Busy(db.jobs, m.key)
    ensures var mid, n := Enqueue(db, m, now, debounce).value.db, |db.jobs|;
      && JobInv(mid) && ClaimsFrom(mid, n, later)
      && var jobs := Claim(mid, n, later, until, w).jobs;
         && |jobs| == n + 1 && jobs[n].state.Processing?
         && (forall j :: j in QueuedOf(db.jobs, m.key) ==> jobs[j].state.Superseded? && jobs[j].successor == Some(n))
         && QueuedOf(jobs, m.key) == {}
  {
    hide EnsureConversation, JobRows, Claim;
    EnqueueKeepsJobs(db, m, now, debounce);
    var mid, n := Enqueue(db, m, now, debounce).value.db, |db.jobs|;
    JobInvAligned(mid);
    JobInvAligned(db);
    BurstShares(db, m, now, debounce);
    assert n in QueuedOf(mid.jobs, m.key);
    assert DueIn(mid.jobs, m.key, later, n);
    forall r | 0 <= r < |mid.jobs| && mid.jobs[r].key == m.key
      ensures !mid.jobs[r].state.Processing?
    {
      if r < n {
        assert mid.jobs[r] == db.jobs[r].(availableAt := mid.jobs[r].availableAt);
      }
    }
    ClaimRows(mid, n, later, until, w);
    ClaimRowsCount(mid, n, later, until, w);
    var jobs := Claim(mid, n, later, until, w).jobs;
    forall j: nat | j < |jobs|
      ensures j in QueuedOf(db.jobs, m.key) ==> jobs[j].state.Superseded? && jobs[j].successor == Some(n)
      ensures !(jobs[j].key == m.key && jobs[j].state.Queued?)
    {
      assert ClaimedRow(mid.jobs[j], jobs[j], j, n, m.key, later, until, w);
      assert j in QueuedOf(db.jobs, m.key) ==> j in QueuedOf(mid.jobs, m.key);
      assert mid.jobs[j].key == m.key && mid.jobs[j].state.Queued? ==> j in QueuedOf(mid.jobs, m.key);
    }
  }

  lemma ClaimRowsCount(db: Db, j: nat, now: nat, until: nat, w: nat)
    requires JobInv(db) && ClaimsFrom(db, j, now)
    ensures |Claim(db, j, now, until, w).jobs| == |db.jobs|
  {}

  function TotalBackoff(n: nat): nat {
    if n == 0 then 0 else TotalBackoff(n - 1) + Backoff(n)
  }

  lemma {:induction false} PowGrows(n: nat)
    requires n >= 6
    ensures Pow2(n) >= 64
  {
    if n == 6 {
      assert Pow2(2) == 4 && Pow2(4) == 16 && Pow2(6) == 64;
    } else {
      PowGrows(n - 1);
    }
  }

  /** The total wait over the first `n` failures: doubling from five seconds, capped at five minutes from the
      seventh on. */
  lemma {:induction false} BackoffTotals(n: nat)
    ensures TotalBackoff(n) == if n <= 6 then 5 * (Pow2(n) - 1) else 315 + 300 * (n - 6)
  {
    if n > 0 {
      BackoffTotals(n - 1);
      if n <= 6 {
        assert Pow2(2) == 4 && Pow2(4) == 16;
        assert Pow2(n) == 2 * Pow2(n - 1) <= 64;
      } else {
        PowGrows(n - 1);
        assert Pow2(6) == 64 by { assert Pow2(2) == 4 && Pow2(4) == 16; }
      }
    }
  }
}
