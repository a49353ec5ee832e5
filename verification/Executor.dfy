/** `executor.py`: one turn of a worker, from the claimed job to its end, proved to be steps of the transition system
    and no others. */
module Executor {
  import opened Types
  import opened Database
  import opened System
  import opened Safety
  import opened SendSteps
  import opened JobSteps
  import opened Queue
  import opened Delivery
  import opened LocalExecution
  import opened LinkInvariant
  import opened AnswerInvariant
  import Policy
  import Trace
  import Workspace
  import W = WorkspaceModel
  import QI = QueueInvariant
  import M = WorkerModel
  import D = DeliveryModel
  import Q = QueueModel
  import QueueRules
  import DecisionRules
  import DeliveryRules
  import WorkspaceRules

  /** What comes of looking for the action of a job: SupersededJob, another exception, or the action. */
  datatype Lookup = Superseded | Raised | Got(action: nat, queued: bool)

  /** Everything in a turn that is not decided by the bridge: how a send ends, the provider's answer (None for an
      unexpected exception), what the pattern tables report, and the clock readings. */
  datatype Turn = Turn(ending: Ending, sending: Clock, recovery: nat, claim: nat, lease: nat,
                       answer: Option<M.Decision>, facts: Policy.Facts, commit: nat, failure: nat)

  class Executor {
    const conn: Connection
    const cfg: D.Config
    const queue: JobQueue
    const deliveries: DeliveryExecutor
    const actions: LocalActionExecutor

    constructor (conn: Connection, remote: Remote, cfg: D.Config, debounceSeconds: nat)
      ensures Wired() && this.conn == conn && this.cfg == cfg && deliveries.remote == remote
    {
      var queue := new JobQueue(conn, debounceSeconds);
      var deliveries := new DeliveryExecutor(conn, remote, cfg);
      var actions := new LocalActionExecutor(conn, cfg);
      this.conn, this.cfg, this.queue, this.deliveries, this.actions := conn, cfg, queue, deliveries, actions;
    }

    /** All parts share one connection and one configuration. */
    predicate Wired() {
      queue.conn == conn && deliveries.conn == conn && deliveries.cfg == cfg && actions.conn == conn
      && actions.cfg == cfg
    }

    /** The deciding transaction of `_action_for_job`: all or nothing. */
    method CommitDecision(j: nat, d: M.Decision, outcome: Outcome, mode: Mode, now: nat) returns (r: Option<Lookup>)
      requires j < |conn.db.jobs| && conn.db.jobs[j].event < |conn.db.events|
      modifies conn
      ensures var committed := M.CommitDecision(old(conn.db), cfg, j, d, outcome, mode, now);
        && conn.db == OrElse(committed, old(conn.db))
        && r == (if committed.None? then None
                 else Some(Got(|old(conn.db).actions|, M.Queues(old(conn.db), cfg, j, outcome, mode))))
      ensures r.Some? ==>
        r.value.queued
        == DecisionRules.GoesOut(cfg, old(conn.db).events[old(conn.db).jobs[j].event].msg, outcome, mode)
      ensures LinkInv(old(conn.db)) && DraftInv(old(conn.db).reviews, old(conn.db).revisions) ==>
        DecisionRules.CommitOk(old(conn.db), if r.None? then None else Some(conn.db), cfg, j, d, outcome, mode, now)
    {
      hide D.EnqueueDelivery, M.CommitDecision, W.CreateReview, DecisionRules.CommitOk, DecisionRules.GoesOut, LinkInv,
        DraftInv;
      var before := conn.db;
      DecisionRules.DecidesIfSound(before, cfg, j, d, outcome, mode, now);
      CommitBranches(before, cfg, j, d, outcome, mode, now);
      var event := conn.db.events[conn.db.jobs[j].event];
      var action := |conn.db.actions|;
      conn.db := conn.db.(actions := conn.db.actions + [Action(conn.db.jobs[j].event, j, M.Intended(d), Agent, now)]);
      conn.db := conn.db.(policies := conn.db.policies[action := outcome]);
      assert conn.db == M.RecordDecision(before, j, M.Intended(d), outcome, now);
      var autoMode := mode.Live? || (mode.Canary? && event.msg.sender in cfg.canary);
      if outcome.Allowed? && autoMode && event.msg.recipient in cfg.senders {
        var intent := Intent(action, event.conv, event.msg.recipient, event.msg.sender, d.text, Agent);
        var queued := QueueReply(intent, now);
        if !queued {
          conn.Rollback(before);
          return None;
        }
        return Some(Got(action, true));
      }
      if M.Intended(d).NoAction? && outcome.Ignored? {
        conn.db := conn.db.(actionStates := conn.db.actionStates[action := ActionIgnored]);
        return Some(Got(action, false));
      }
      var kind := if d.text != "" then Draft else ReviewKind.Escalation;
      var created := AskForReview(action, kind, d.text, event.conv);
      if !created {
        conn.Rollback(before);
        return None;
      }
      return Some(Got(action, false));
    }

    /** Its first branch: a delivery. */
    method QueueReply(intent: Intent, now: nat) returns (ok: bool)
      modifies conn
      ensures var r := D.EnqueueDelivery(old(conn.db), Channel.Instagram, intent, now);
        && ok == r.Some?
        && (ok ==> conn.db == r.value.(actionStates := r.value.actionStates[intent.action := AwaitingDelivery]))
    {
      hide D.EnqueueDelivery, DeliveryRules.Deliverable, DeliveryRules.DeliveryNoted, DeliveryRules.DeliveryQueued;
      var delivery := EnqueueDelivery(conn, Channel.Instagram, intent, now);
      ok := delivery.Some?;
      if ok {
        conn.db := conn.db.(actionStates := conn.db.actionStates[intent.action := AwaitingDelivery]);
      }
    }

    /** Its last branch: a draft, or an escalation, for an operator. */
    method AskForReview(action: nat, kind: ReviewKind, text: string, c: nat) returns (ok: bool)
      modifies conn
      ensures var r := W.CreateReview(old(conn.db), action, kind, text);
        && ok == r.Some?
        && (ok ==>
              var db2 := r.value.(actionStates := old(conn.db).actionStates[action := AwaitingReview]);
              conn.db == if c < |old(conn.db).convs| then W.SetStatus(db2, c, PendingReview) else db2)
    {
      hide W.CreateReview, WorkspaceRules.ReviewCreated;
      ok := Workspace.CreateReview(conn, action, kind, text);
      if ok {
        conn.db := conn.db.(actionStates := conn.db.actionStates[action := AwaitingReview]);
        Workspace.SetStatus(conn, c, PendingReview);
      }
    }

    /** The completing transaction of `run_once`. */
    method Complete(j: nat)
      requires Wired() && Aligned(conn.db) && j < |conn.db.jobs|
      modifies conn
      ensures conn.db == Q.Complete(old(conn.db), j)
      ensures QueueRules.WritesOne(old(conn.db), conn.db, j,
                                   old(conn.db).jobs[j].(state := Completed, lease := None, worker := None),
                                   EvProcessed)
      ensures conn.db.jobs[j].state.Completed? && conn.db.status[j].EvProcessed?
      ensures QI.JobInv(old(conn.db)) ==> QI.JobInv(conn.db)
      ensures QI.JobInv(old(conn.db)) && old(conn.db).jobs[j].state.Processing? ==>
        !Q.Busy(conn.db.jobs, conn.db.jobs[j].key)
      ensures DoneInv(old(conn.db).jobs, conn.db.actions) && HasAction(conn.db.actions, j) ==>
        DoneInv(conn.db.jobs, conn.db.actions)
    {
      hide QI.JobRows, DoneInv, HasAction, Q.Busy;
      CompleteFacts(conn.db, j);
      QueueRules.CompletesJob(conn.db, j);
      var row := conn.db.jobs[j].(state := Completed, lease := None, worker := None);
      queue.Write(Q.JobWrite(j, row, Some(EvProcessed)));
    }

    /** `_supersede_job`, once it has looked up the newer job. */
    method SupersedeJob(j: nat, newer: Option<nat>)
      requires Wired() && Aligned(conn.db) && j < |conn.db.jobs|
      modifies conn
      ensures conn.db == Q.Supersede(old(conn.db), j, newer)
      ensures QueueRules.WritesOne(old(conn.db), conn.db, j,
                                   old(conn.db).jobs[j].(state := JobState.Superseded, successor := newer,
                                                         lease := None, worker := None), EvBatched)
      ensures conn.db.jobs[j].state.Superseded? && conn.db.status[j].EvBatched?
      ensures QI.JobInv(old(conn.db)) && IsLaterOfKey(conn.db.jobs, j, newer) ==> QI.JobInv(conn.db)
      ensures QI.JobInv(old(conn.db)) && old(conn.db).jobs[j].state.Processing? ==>
        !Q.Busy(conn.db.jobs, conn.db.jobs[j].key)
    {
      hide QI.JobRows, Q.Busy;
      SupersedeFacts(conn.db, j, newer);
      QueueRules.SupersedesJob(conn.db, j, newer);
      var row := conn.db.jobs[j].(state := JobState.Superseded, successor := newer, lease := None, worker := None);
      queue.Write(Q.JobWrite(j, row, Some(EvBatched)));
    }

    // ------------------------------------------------------------ following

    /** `t` is where these steps lead from `s`, it has the tables as they are, and only worker `w` has moved. */
    ghost predicate Following(s: Sys, steps: seq<Step>, t: Sys, w: nat)
      reads conn
    {
      && Trace.After(s, steps) == Some(t) && Inv(t) && t.db == conn.db && t.cfg == cfg
      && w < |s.workers| == |t.workers| && t.workers == s.workers[w := t.workers[w]] && t.sends == s.sends
    }

    /** `_action_for_job` */
    method ActionForJob(w: nat, j: nat, n: nat, turn: Turn, ghost s: Sys, ghost steps0: seq<Step>, ghost t0: Sys)
      returns (r: Lookup, ghost steps: seq<Step>, ghost t: Sys, ghost stage: Stage)
      requires Wired() && Following(s, steps0, t0, w) && HasStage(t0, w, j, n, Claimed)
      modifies conn
      ensures Following(s, steps, t, w) && HasStage(t, w, j, n, stage)
      ensures match r
              case Superseded => stage.Overtaken?
              case Raised => !stage.Fetching? && !stage.Overtaken? && !stage.Superseding?
              case Got(action, queued) => stage == Ready(action, queued)
    {
      hide Trace.After, Inv, Next, Enabled, M.CommitDecision, M.OutcomeOf, M.Queues, M.NewerInbound, M.FindFirst,
        D.HasDelivery, Grows, M.IsFirstAction, Aligned;
      steps, t := steps0, t0;
      InvParts(t);
      var existing := M.FindFirst(conn.db.actions, j);
      LookUpStep(t, w, j, n, existing);
      steps, t := Trace.Take(s, steps, t, Work(w, LookUp(existing)));
      if existing.Some? {
        var queued := D.HasDelivery(conn.db.deliveries, existing.value);
        return Got(existing.value, queued), steps, t, Ready(existing.value, queued);
      }
      ContextStep(t, w, j, n);
      var paused := conn.db.convs[conn.db.events[j].conv].paused;
      steps, t := Trace.Take(s, steps, t, Work(w, ReadContext));
      if turn.answer.None? {
        return Raised, steps, t, Asking(paused);
      }
      var d := turn.answer.value;
      AnswerStep(t, w, j, n, paused, d);
      steps, t := Trace.Take(s, steps, t, Work(w, Act.Answer(d)));
      NewerStep(t, w, j, n, paused, d);
      steps, t := Trace.Take(s, steps, t, Work(w, CheckNewer));
      if M.NewerInbound(conn.db, j) {
        return Lookup.Superseded, steps, t, Overtaken;
      }
      r, steps, t, stage := Decide(w, j, n, d, paused, turn, s, steps, t);
    }

    /** Its second half: the policy's verdict, the mode, and the deciding transaction. */
    method Decide(w: nat, j: nat, n: nat, d: M.Decision, paused: bool, turn: Turn,
                  ghost s: Sys, ghost steps0: seq<Step>, ghost t0: Sys)
      returns (r: Lookup, ghost steps: seq<Step>, ghost t: Sys, ghost stage: Stage)
      requires Wired() && Following(s, steps0, t0, w) && HasStage(t0, w, j, n, UpToDate(paused, d))
      modifies conn
      ensures Following(s, steps, t, w) && HasStage(t, w, j, n, stage)
      ensures match r
              case Superseded => false
              case Raised => stage.Failing?
              case Got(action, queued) => stage == Ready(action, queued)
    {
      hide Trace.After, Inv, Next, Enabled, M.CommitDecision, M.OutcomeOf, M.Queues, Grows;
      steps, t := steps0, t0;
      var outcome := M.OutcomeOf(d, conn.db.events[j].msg.channel, paused, turn.facts);
      var mode := conn.db.mode;
      ModeStep(t, w, j, n, paused, d);
      steps, t := Trace.Take(s, steps, t, Work(w, ReadMode));
      CommitStep(t, w, j, n, paused, d, mode, turn.facts, turn.commit);
      var committed := CommitDecision(j, d, outcome, mode, turn.commit);
      steps, t := Trace.Take(s, steps, t, Work(w, CommitAnswer(turn.facts, turn.commit)));
      if committed.None? {
        return Raised, steps, t, Failing;
      }
      return committed.value, steps, t, Ready(committed.value.action, committed.value.queued);
    }

    /** The call of the simulated sink. */
    method Simulate(w: nat, j: nat, n: nat, action: nat, mode: Mode,
                    ghost s: Sys, ghost steps0: seq<Step>, ghost t0: Sys)
      returns (ghost steps: seq<Step>, ghost t: Sys)
      requires Wired() && Following(s, steps0, t0, w) && HasStage(t0, w, j, n, Executing(action, mode))
      modifies conn
      ensures Following(s, steps, t, w) && HasStage(t, w, j, n, Finishing(action))
    {
      hide Trace.After, Inv, Next, Enabled, M.Find, Grows;
      steps, t := steps0, t0;
      InvParts(t);
      InspectStep(t, w, j, n, action, mode);
      steps, t := Trace.Take(s, steps, t, Work(w, Inspect));
      var outcome, customer := conn.db.policies[action], conn.db.events[j].msg.sender;
      ghost var finding := M.Find(conn.db, cfg, action, outcome, customer, mode);
      ghost var unseen := action !in conn.db.executions;
      if unseen { RecordStep(t, w, j, n, action, finding); }
      var executed := actions.Execute(action, outcome, customer, mode);
      if unseen { steps, t := Trace.Take(s, steps, t, Work(w, Record)); }
    }

    /** From the action to the completed job. */
    method Conclude(w: nat, j: nat, n: nat, action: nat, queued: bool,
                    ghost s: Sys, ghost steps0: seq<Step>, ghost t0: Sys)
      returns (ghost steps: seq<Step>, ghost t: Sys)
      requires Wired() && Following(s, steps0, t0, w) && HasStage(t0, w, j, n, Ready(action, queued))
      modifies conn
      ensures Following(s, steps, t, w) && t.workers[w].Idle?
      ensures j < |conn.db.jobs| && conn.db.jobs[j].state.Completed?
    {
      hide Trace.After, Inv, Next, Enabled, M.Find, Grows;
      steps, t := steps0, t0;
      InvParts(t);
      StartStep(t, w, j, n, action, queued);
      var mode := conn.db.mode;
      steps, t := Trace.Take(s, steps, t, Work(w, StartExecution));
      if !queued && !conn.db.actions[action].kind.NoAction? {
        steps, t := Simulate(w, j, n, action, mode, s, steps, t);
      }
      FinishStep(t, w, j, n, action);
      Complete(j);
      steps, t := Trace.Take(s, steps, t, Work(w, FinishJob));
    }

    /** What `run_once` does with a job it has claimed: completed, superseded, or handed to `fail`, but never left in
        progress. */
    method HandleJob(w: nat, j: nat, n: nat, turn: Turn, ghost s: Sys, ghost steps0: seq<Step>, ghost t0: Sys)
      returns (ghost steps: seq<Step>, ghost t: Sys)
      requires Wired() && Following(s, steps0, t0, w) && HasStage(t0, w, j, n, Claimed)
      modifies conn
      ensures Following(s, steps, t, w) && t.workers[w].Idle?
      ensures j < |conn.db.jobs| && !conn.db.jobs[j].state.Processing?
    {
      hide Trace.After, Inv, Next, Enabled, Grows;
      ghost var stage;
      var found;
      found, steps, t, stage := ActionForJob(w, j, n, turn, s, steps0, t0);
      match found {
        case Superseded =>
          SuccessorStep(t, w, j, n);
          var newer := M.LatestOther(conn.db.events, j, |conn.db.events|);
          steps, t := Trace.Take(s, steps, t, Work(w, FindSuccessor));
          SupersedeStep(t, w, j, n, newer);
          SupersedeJob(j, newer);
          steps, t := Trace.Take(s, steps, t, Work(w, CommitSupersede));
        case Raised =>
          GiveUpStep(t, w, j, n, stage, turn.failure);
          queue.Fail(j, n, cfg.maxAttempts, turn.failure);
          steps, t := Trace.Take(s, steps, t, Work(w, GiveUp(turn.failure)));
        case Got(action, queued) =>
          steps, t := Conclude(w, j, n, action, queued, s, steps, t);
      }
    }

    /** `run_once`, when nobody else moves meanwhile: whatever the provider and the messaging service answer, the turn
        is a stretch of a run of the transition system; it reports no work only when no delivery and no claimable job
        was there, and a job it claims is not left in progress. */
    method RunOnce(worker: nat, turn: Turn, ghost s: Sys)
      returns (worked: bool, ghost steps: seq<Step>, ghost claimed: Option<nat>)
      requires Wired() && deliveries.Synced(s, worker) && !turn.ending.Death?
      modifies conn, deliveries.remote
      ensures Trace.After(s, steps).Some?
      ensures deliveries.Synced(Trace.After(s, steps).value, worker)
      ensures Trace.After(s, steps).value.workers == s.workers
      ensures !worked ==>
        && NothingDue(conn.db.deliveries, turn.sending.claim) && AllBusy(conn.db.jobs, turn.claim)
        && deliveries.remote.calls == old(deliveries.remote.calls)
      ensures claimed.Some? ==> claimed.value < |conn.db.jobs| && !conn.db.jobs[claimed.value].state.Processing?
    {
      hide Trace.After, Inv, Next, Enabled, Grows, AllBusy, NothingDue, Q.RecoverStale, D.RecoverDeliveries;
      claimed := None;
      ghost var taken;
      worked, steps, taken := deliveries.RunOnce(worker, turn.sending, turn.ending, s);
      if worked {
        return;
      }
      ghost var t := Trace.After(s, steps).value;
      JobSteps.RecoverStep(t, turn.recovery);
      var recovered := queue.RecoverStale(cfg.maxAttempts, turn.recovery);
      steps, t := Trace.Take(s, steps, t, RecoverJobs(turn.recovery));
      var job, n;
      job, n, steps, t := TakeJob(worker, turn, s, steps, t);
      if job.Some? {
        worked, claimed := true, job;
        steps, t := HandleJob(worker, job.value, n, turn, s, steps, t);
      }
      assert t.workers == s.workers;
    }

    /** The claim, and the row that is read back after it. */
    method TakeJob(w: nat, turn: Turn, ghost s: Sys, ghost steps0: seq<Step>, ghost t0: Sys)
      returns (job: Option<nat>, n: nat, ghost steps: seq<Step>, ghost t: Sys)
      requires Wired() && Following(s, steps0, t0, w) && t0.workers[w].Idle? && Aligned(t0.db)
      modifies conn
      ensures Following(s, steps, t, w)
      ensures job.None? ==> t == t0 && conn.db == old(conn.db) && AllBusy(conn.db.jobs, turn.claim)
      ensures job.Some? ==> HasStage(t, w, job.value, n, Claimed)
    {
      hide Trace.After, Inv, Next, Enabled, Grows, Q.IsOldest, Q.IsNewest, Q.Claim, AllBusy, QueueRules.ClaimOk,
        QueueRules.OfOldest, QueueRules.Servable;
      steps, t, n := steps0, t0, 0;
      job := queue.ClaimNext(w, turn.claim, turn.lease);
      if job.None? {
        return;
      }
      var j := job.value;
      ghost var oldest: nat :| Q.IsOldest(t.db.jobs, turn.claim, oldest) && oldest < |t.db.jobs|
                               && t.db.jobs[oldest].key == t.db.jobs[j].key;
      ClaimStep(t, w, oldest, j, turn.claim, turn.lease);
      ghost var n0 := conn.db.jobs[j].attempts;
      steps, t := Trace.Take(s, steps, t, Work(w, ClaimJob(oldest, j, turn.claim, turn.lease)));
      JobSteps.FetchStep(t, w, j, n0);
      n := conn.db.jobs[j].attempts;
      steps, t := Trace.Take(s, steps, t, Work(w, FetchJob));
    }
  }

  /** The successor is a job of the same key whose event came later, as `LatestOther` finds it for an overtaken job. */
  predicate IsLaterOfKey(jobs: seq<Job>, j: nat, newer: Option<nat>)
    requires j < |jobs|
  {
    newer.Some? && j < newer.value < |jobs| && jobs[newer.value].key == jobs[j].key
  }

  lemma CompleteFacts(db: Db, j: nat)
    requires Aligned(db) && j < |db.jobs|
    ensures var after := Q.Complete(db, j);
      && (QI.JobInv(db) ==>
            QI.JobInv(after) && (db.jobs[j].state.Processing? ==> !Q.Busy(after.jobs, db.jobs[j].key)))
      && (DoneInv(db.jobs, db.actions) && HasAction(db.actions, j) ==> DoneInv(after.jobs, db.actions))
  {
    hide QI.JobRows, HasAction, Q.Busy;
    if QI.JobInv(db) {
      QI.CompleteKeeps(db, j);
      KeyFreed(db, j, Q.Released(db.jobs[j], Completed));
    }
  }

  lemma SupersedeFacts(db: Db, j: nat, newer: Option<nat>)
    requires Aligned(db) && j < |db.jobs|
    ensures var after := Q.Supersede(db, j, newer);
      && |after.jobs| == |db.jobs|
      && (QI.JobInv(db) && db.jobs[j].state.Processing? ==> !Q.Busy(after.jobs, db.jobs[j].key))
      && (QI.JobInv(db) && IsLaterOfKey(db.jobs, j, newer) ==> QI.JobInv(after))
      && (IsLaterOfKey(after.jobs, j, newer) <==> IsLaterOfKey(db.jobs, j, newer))
  {
    hide QI.JobRows, Q.Busy;
    if QI.JobInv(db) {
      KeyFreed(db, j, Q.Released(db.jobs[j], JobState.Superseded).(successor := newer));
      if IsLaterOfKey(db.jobs, j, newer) {
        QI.SupersedeKeeps(db, j, newer.value);
      }
    }
  }

  /** Taking the job in progress out of progress frees its key. */
  lemma KeyFreed(db: Db, j: nat, row: Job)
    requires QI.JobInv(db) && j < |db.jobs| && row.key == db.jobs[j].key && !row.state.Processing?
    ensures db.jobs[j].state.Processing? ==> !Q.Busy(db.jobs[j := row], row.key)
  {}
}
