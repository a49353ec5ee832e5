/** `queue.py`: the durable job queue, statement by statement, against what each transaction promises. */
module Queue {
  import opened Types
  import opened Database
  import opened QueueInvariant
  import Workspace
  import W = WorkspaceModel
  import Q = QueueModel
  import R = QueueRules
  import WorkspaceRules

  datatype Accepted = Accepted(event: nat, created: bool)

  class JobQueue {
    const conn: Connection
    const debounceSeconds: nat

    constructor (conn: Connection, debounceSeconds: nat)
      ensures this.conn == conn && this.debounceSeconds == debounceSeconds
    {
      this.conn := conn;
      this.debounceSeconds := debounceSeconds;
    }

    /** `enqueue_in_transaction`; None when it raises, and the caller's transaction rolls back. */
    method EnqueueInTransaction(m: Inbound, now: nat) returns (r: Option<Accepted>)
      modifies conn
      ensures var e := Q.Enqueue(old(conn.db), m, now, debounceSeconds);
        && (r.Some? <==> e.Some?)
        && (r.Some? ==> e.value == Q.Enqueued(conn.db, r.value.event, r.value.created))
      ensures Aligned(old(conn.db)) && r.Some? ==>
        R.EnqueueOk(old(conn.db), conn.db, m, now, debounceSeconds, r.value.event, r.value.created)
      ensures WorkspaceRules.Indexed(old(conn.db).accounts, old(conn.db).convs) ==>
        (r.None? <==> Refused(old(conn.db), m))
    {
      hide R.EnqueueOk, WorkspaceRules.Indexed, Refused;
      EnqueueFacts(conn.db, m, now, debounceSeconds);
      var existing := Q.FindEvent(conn.db.events, m.channel, m.mid);
      if existing.Some? {
        conn.Record(EventEntry(existing.value, false));
        return Some(Accepted(existing.value, false));
      }
      var conversation := Workspace.EnsureConversation(conn, m);
      if conversation.None? {
        return None;
      }
      var event := |conn.db.events|;
      conn.db := conn.db.(events := conn.db.events + [Event(m, conversation.value)],
                          status := conn.db.status + [EvQueued]);
      var availableAt := now + debounceSeconds;
      conn.db := conn.db.(jobs := conn.db.jobs + [Q.NewJob(event, m.key, now, availableAt)]);
      if debounceSeconds > 0 {
        conn.db := conn.db.(jobs := Q.Postpone(conn.db.jobs, m.key, availableAt));
      }
      conn.db := conn.db.(messages := conn.db.messages + [Message(conversation.value, FromEvent(event), m.body)]);
      conn.Record(EventEntry(event, true));
      return Some(Accepted(event, true));
    }

    /** `enqueue`: all or nothing. */
    method Enqueue(m: Inbound, now: nat) returns (r: Option<Accepted>)
      modifies conn
      ensures var e := Q.Enqueue(old(conn.db), m, now, debounceSeconds);
        && (r.Some? ==> e == Some(Q.Enqueued(conn.db, r.value.event, r.value.created)))
        && (r.None? ==> e.None? && conn.db == old(conn.db))
      ensures Aligned(old(conn.db)) && r.Some? ==>
        R.EnqueueOk(old(conn.db), conn.db, m, now, debounceSeconds, r.value.event, r.value.created)
      ensures WorkspaceRules.Indexed(old(conn.db).accounts, old(conn.db).convs) ==>
        (r.None? <==> Refused(old(conn.db), m))
    {
      hide R.EnqueueOk, WorkspaceRules.Indexed, Refused;
      var before := conn.db;
      r := EnqueueInTransaction(m, now);
      if r.None? {
        conn.Rollback(before);
      }
    }

    /** One job's state, its event's status and the audit entry: three statements that always go together. */
    method Write(w: Q.JobWrite)
      requires w.job < |conn.db.jobs| && conn.db.jobs[w.job].event < |conn.db.status|
      modifies conn
      ensures conn.db == Q.LogJob(old(conn.db), w)
    {
      var event := conn.db.jobs[w.job].event;
      conn.db := conn.db.(jobs := conn.db.jobs[w.job := w.row]);
      if w.status.Some? {
        conn.db := conn.db.(status := conn.db.status[event := w.status.value]);
      }
      conn.Record(JobEntry(w.job, w.row.state));
    }

    /** The batching loop of `claim_next`. */
    method Batch(job: nat, now: nat)
      requires Aligned(conn.db) && job < |conn.db.jobs|
      modifies conn
      ensures conn.db == Q.Batched(old(conn.db), job, now)
    {
      hide Q.LogJobs, Q.LogJob, Q.BatchWrites, Apart, Logged;
      ghost var db0 := conn.db;
      var batched := Q.DueOthers(conn.db.jobs, conn.db.jobs[job].key, now, job, |conn.db.jobs|);
      ghost var ws := Q.BatchWrites(db0.jobs, batched, job);
      BatchApart(db0, batched, job);
      LoggedEnds(db0, ws);
      for k := 0 to |batched|
        invariant conn.db == Logged(db0, ws, k)
      {
        BatchTurn(db0, batched, job, k);
        var older := batched[k];
        Write(Q.JobWrite(older, conn.db.jobs[older].(state := Superseded, successor := Some(job)), Some(EvBatched)));
      }
    }

    /** `claim_next`: nothing when every available queued job's key is busy, and only then; otherwise the newest
        available job of the key of an oldest claimable one, the key's other available jobs being batched into it. */
    method ClaimNext(worker: nat, now: nat, until: nat) returns (r: Option<nat>)
      requires Aligned(conn.db)
      modifies conn
      ensures r.None? <==> AllBusy(old(conn.db).jobs, now)
      ensures r.None? ==> conn.db == old(conn.db)
      ensures r.Some? ==>
        && ClaimsFrom(old(conn.db), r.value, now)
        && (exists oldest: nat :: Q.IsOldest(old(conn.db).jobs, now, oldest) && oldest < |old(conn.db).jobs|
                                  && old(conn.db).jobs[oldest].key == old(conn.db).jobs[r.value].key)
        && conn.db == Q.Claim(old(conn.db), r.value, now, until, worker)
      ensures r.None? <==> forall i: nat :: !R.Servable(old(conn.db).jobs, i, now)
      ensures r.Some? ==>
        && R.ClaimOk(old(conn.db), conn.db, r.value, now, until, worker)
        && R.OfOldest(old(conn.db).jobs, r.value, now)
    {
      hide Q.Batched, Q.Due, Q.Busy, R.Servable, R.ClaimOk, R.OfOldest;
      ServableFacts(conn.db.jobs, now);
      var candidate := Q.FindOldest(conn.db.jobs, now, |conn.db.jobs|);
      if candidate.None? {
        forall j: nat | j < |conn.db.jobs| && Q.Due(conn.db.jobs[j], now)
          ensures Q.Busy(conn.db.jobs, conn.db.jobs[j].key)
        {
          assert !Q.Claimable(conn.db.jobs, j, now);
        }
        return None;
      }
      assert Q.IsOldest(conn.db.jobs, now, candidate.value);
      var key := conn.db.jobs[candidate.value].key;
      assert Q.DueIn(conn.db.jobs, key, now, candidate.value);
      var job := Q.FindNewest(conn.db.jobs, key, now, |conn.db.jobs|).value;
      R.ClaimIsOnTime(conn.db, job, now, until, worker);
      R.OldestOf(conn.db.jobs, candidate.value, job, now);
      BatchSpares(conn.db, job, now);
      Batch(job, now);
      Write(Q.JobWrite(job, conn.db.jobs[job].(state := Processing, attempts := conn.db.jobs[job].attempts + 1,
                                               lease := Some(until), worker := Some(worker)), None));
      return Some(job);
    }

    /** `fail`, with the attempt count of the row the worker was handed. */
    method Fail(job: nat, attempts: nat, maxAttempts: nat, now: nat)
      requires Aligned(conn.db) && job < |conn.db.jobs|
      modifies conn
      ensures conn.db == Q.Fail(old(conn.db), job, attempts, maxAttempts, now)
      ensures R.FailOk(old(conn.db), conn.db, job, attempts, maxAttempts, now)
      ensures JobInv(old(conn.db)) ==> JobInv(conn.db)
    {
      hide R.FailOk;
      R.FailsWithDelay(conn.db, job, attempts, maxAttempts, now);
      if JobInv(conn.db) {
        FailKeeps(conn.db, job, attempts, maxAttempts, now);
      }
      var terminal := attempts >= maxAttempts;
      var state := if terminal then DeadLetter else Queued;
      var delay := Q.Backoff(attempts);
      var availableAt := if terminal then now else now + delay;
      var row := conn.db.jobs[job].(state := state, availableAt := availableAt, lease := None, worker := None);
      Write(Q.JobWrite(job, row, Some(if terminal then EvFailed else EvRetrying)));
    }

    /** `recover_stale`: every job whose lease has run out goes back to the queue, or to the dead letters. */
    method RecoverStale(maxAttempts: nat, now: nat) returns (recovered: nat)
      requires Aligned(conn.db)
      modifies conn
      ensures conn.db == Q.RecoverStale(old(conn.db), maxAttempts, now)
      ensures recovered == |Q.StaleJobs(old(conn.db).jobs, now, |old(conn.db).jobs|)|
      ensures R.RecoverOk(old(conn.db), conn.db, maxAttempts, now)
      ensures recovered == R.CountRanOut(old(conn.db).jobs, now, |old(conn.db).jobs|)
    {
      hide Q.LogJobs, Q.LogJob, Q.RecoverWrites, Apart, Logged, R.RecoverOk;
      R.RecoversExpired(conn.db, maxAttempts, now);
      R.StaleCount(conn.db.jobs, now, |conn.db.jobs|);
      ghost var db0 := conn.db;
      var rows := Q.StaleJobs(conn.db.jobs, now, |conn.db.jobs|);
      ghost var ws := Q.RecoverWrites(db0.jobs, rows, maxAttempts, now);
      RecoverApart(db0, rows, maxAttempts, now);
      LoggedEnds(db0, ws);
      for k := 0 to |rows|
        invariant conn.db == Logged(db0, ws, k)
      {
        RecoverTurn(db0, rows, maxAttempts, now, k);
        var job := rows[k];
        var terminal := conn.db.jobs[job].attempts >= maxAttempts;
        var state := if terminal then DeadLetter else Queued;
        var row := conn.db.jobs[job].(state := state, availableAt := now, lease := None, worker := None);
        Write(Q.JobWrite(job, row, Some(if terminal then EvFailed else EvRetrying)));
      }
      return |rows|;
    }

    /** `retry`: dead-lettered jobs only. */
    method Retry(job: nat, now: nat) returns (ok: bool)
      requires Aligned(conn.db)
      modifies conn
      ensures ok == (job < |old(conn.db).jobs| && old(conn.db).jobs[job].state.DeadLetter?)
      ensures if ok then Q.Retry(old(conn.db), job, now) == Some(conn.db) else conn.db == old(conn.db)
      ensures ok ==> R.RetryOk(old(conn.db), conn.db, job, now)
      ensures JobInv(old(conn.db)) ==> JobInv(conn.db)
    {
      if JobInv(conn.db) {
        RetryKeeps(conn.db, job, now);
      }
      R.RetriesDeadLetters(conn.db, job, now);
      if job >= |conn.db.jobs| || !conn.db.jobs[job].state.DeadLetter? {
        return false;
      }
      var row := conn.db.jobs[job].(state := Queued, attempts := 0, availableAt := now, lease := None, worker := None);
      Write(Q.JobWrite(job, row, Some(EvQueued)));
      return true;
    }

    /** `dismiss`: dead-lettered jobs only. */
    method Dismiss(job: nat) returns (ok: bool)
      requires Aligned(conn.db)
      modifies conn
      ensures ok == (job < |old(conn.db).jobs| && old(conn.db).jobs[job].state.DeadLetter?)
      ensures if ok then Q.Dismiss(old(conn.db), job) == Some(conn.db) else conn.db == old(conn.db)
      ensures ok ==>
        R.WritesOne(old(conn.db), conn.db, job, old(conn.db).jobs[job].(state := Dismissed), EvDismissed)
      ensures JobInv(old(conn.db)) ==> JobInv(conn.db)
    {
      if JobInv(conn.db) {
        RetryKeeps(conn.db, job, 0);
      }
      R.DismissesDeadLetters(conn.db, job);
      if job >= |conn.db.jobs| || !conn.db.jobs[job].state.DeadLetter? {
        return false;
      }
      Write(Q.JobWrite(job, conn.db.jobs[job].(state := Dismissed), Some(EvDismissed)));
      return true;
    }
  }

  /** An unknown message whose account and customer belong to a conversation of another key. */
  ghost predicate Refused(db: Db, m: Inbound) {
    (forall i: nat :: !R.Known(db.events, m, i)) && WorkspaceRules.RouteClashes(db.accounts, db.convs, m)
  }

  lemma EnqueueFacts(db: Db, m: Inbound, now: nat, debounce: nat)
    ensures var r := Q.Enqueue(db, m, now, debounce);
      && (Aligned(db) && r.Some? ==> R.EnqueueOk(db, r.value.db, m, now, debounce, r.value.event, r.value.created))
      && (WorkspaceRules.Indexed(db.accounts, db.convs) ==> (r.None? <==> Refused(db, m)))
  {
    hide Q.Enqueue, R.EnqueueOk, WorkspaceRules.Indexed, WorkspaceRules.RouteClashes, Aligned;
    if Aligned(db) { R.EnqueueMeans(db, m, now, debounce); }
    if WorkspaceRules.Indexed(db.accounts, db.convs) { R.EnqueueFailsExactly(db, m, now, debounce); }
  }

  lemma ServableFacts(jobs: seq<Job>, now: nat)
    ensures AllBusy(jobs, now) <==> forall i: nat :: !R.Servable(jobs, i, now)
  {
    hide R.Servable, Q.Busy, Q.Due;
    forall i: nat
      ensures R.Servable(jobs, i, now) <==> i < |jobs| && Q.Due(jobs[i], now) && !Q.Busy(jobs, jobs[i].key)
    {
      R.ServableExactly(jobs, i, now);
    }
  }

  /** Every available queued job has a key with a job in progress. */
  ghost predicate AllBusy(jobs: seq<Job>, now: nat) {
    forall j :: 0 <= j < |jobs| && Q.Due(jobs[j], now) ==> Q.Busy(jobs, jobs[j].key)
  }

  /** Writes that fit and concern different jobs. */
  ghost predicate Apart(db: Db, ws: seq<Q.JobWrite>) {
    Q.WritesFit(db, ws) && forall k, l :: 0 <= k < l < |ws| ==> ws[k].job != ws[l].job
  }

  lemma BatchApart(db: Db, ids: seq<nat>, newest: nat)
    requires Aligned(db) && (forall k :: 0 <= k < |ids| ==> ids[k] < |db.jobs|)
    requires forall k, l :: 0 <= k < l < |ids| ==> ids[k] < ids[l]
    ensures var ws := Q.BatchWrites(db.jobs, ids, newest);
      && Apart(db, ws) && |ws| == |ids|
      && forall k :: 0 <= k < |ids| ==> ws[k] == Q.BatchWrite(db.jobs, ids[k], newest)
  {}

  lemma RecoverApart(db: Db, ids: seq<nat>, max: nat, now: nat)
    requires Aligned(db) && (forall k :: 0 <= k < |ids| ==> ids[k] < |db.jobs|)
    requires forall k, l :: 0 <= k < l < |ids| ==> ids[k] < ids[l]
    ensures var ws := Q.RecoverWrites(db.jobs, ids, max, now);
      && Apart(db, ws) && |ws| == |ids|
      && forall k :: 0 <= k < |ids| ==> ws[k] == Q.RecoverWrite(db.jobs, ids[k], max, now)
  {}

  /** The tables after the first `k` of these writes. */
  ghost function Logged(db: Db, ws: seq<Q.JobWrite>, k: nat): Db
    requires Apart(db, ws) && k <= |ws|
  {
    Q.LogJobs(db, ws[..k])
  }

  lemma LoggedEnds(db: Db, ws: seq<Q.JobWrite>)
    requires Apart(db, ws)
    ensures Logged(db, ws, 0) == db && Logged(db, ws, |ws|) == Q.LogJobs(db, ws)
  {
    assert ws[..|ws|] == ws;
  }

  /** Before its own write, a job's row is still the original one. */
  lemma NextWrite(db: Db, ws: seq<Q.JobWrite>, k: nat)
    requires Apart(db, ws) && k < |ws|
    ensures var mid := Logged(db, ws, k);
      && Aligned(mid) && |mid.jobs| == |db.jobs| && ws[k].job < |db.jobs|
      && mid.jobs[ws[k].job] == db.jobs[ws[k].job]
      && Logged(db, ws, k + 1) == Q.LogJob(mid, ws[k])
  {
    LogJobsAt(db, ws[..k]);
    assert ws[..k + 1][..k] == ws[..k];
  }

  /** One turn of the batching loop. */
  lemma BatchTurn(db: Db, ids: seq<nat>, newest: nat, k: nat)
    requires Aligned(db) && (forall i :: 0 <= i < |ids| ==> ids[i] < |db.jobs|) && k < |ids|
    requires forall i, l :: 0 <= i < l < |ids| ==> ids[i] < ids[l]
    ensures var ws := Q.BatchWrites(db.jobs, ids, newest);
      && Apart(db, ws) && |ws| == |ids|
      && var mid := Logged(db, ws, k);
         && Aligned(mid) && ids[k] < |mid.jobs|
         && Logged(db, ws, k + 1) == Q.LogJob(mid, Q.BatchWrite(mid.jobs, ids[k], newest))
  {
    hide Q.LogJob, Q.BatchWrites, Apart, Logged;
    BatchApart(db, ids, newest);
    NextWrite(db, Q.BatchWrites(db.jobs, ids, newest), k);
  }

  /** One turn of the recovery loop. */
  lemma RecoverTurn(db: Db, ids: seq<nat>, max: nat, now: nat, k: nat)
    requires Aligned(db) && (forall i :: 0 <= i < |ids| ==> ids[i] < |db.jobs|) && k < |ids|
    requires forall i, l :: 0 <= i < l < |ids| ==> ids[i] < ids[l]
    ensures var ws := Q.RecoverWrites(db.jobs, ids, max, now);
      && Apart(db, ws) && |ws| == |ids|
      && var mid := Logged(db, ws, k);
         && Aligned(mid) && ids[k] < |mid.jobs|
         && Logged(db, ws, k + 1) == Q.LogJob(mid, Q.RecoverWrite(mid.jobs, ids[k], max, now))
  {
    hide Q.LogJob, Q.RecoverWrites, Apart, Logged;
    RecoverApart(db, ids, max, now);
    NextWrite(db, Q.RecoverWrites(db.jobs, ids, max, now), k);
  }

  /** The batching leaves the row of the newest job alone. */
  lemma BatchSpares(db: Db, j: nat, now: nat)
    requires Aligned(db) && j < |db.jobs|
    ensures Q.Batched(db, j, now).jobs[j] == db.jobs[j]
  {
    hide Q.BatchWrites;
    var ids := Q.DueOthers(db.jobs, db.jobs[j].key, now, j, |db.jobs|);
    BatchApart(db, ids, j);
    LogJobsAt(db, Q.BatchWrites(db.jobs, ids, j));
  }

  /** Recovery leaves no expired lease, and keeps the invariant of the job table. */
  lemma NoneStale(db: Db, max: nat, now: nat)
    requires JobInv(db)
    ensures var after := Q.RecoverStale(db, max, now);
      JobInv(after) && forall j :: 0 <= j < |after.jobs| && after.jobs[j].state.Processing? ==>
        after.jobs[j].lease.Some? && after.jobs[j].lease.value > now
  {
    hide JobRows;
    JobInvAligned(db);
    RecoverKeeps(db, max, now);
    RecoverRows(db, max, now);
    RecoverCount(db, max, now);
    Leased(db);
  }

  lemma Leased(db: Db)
    requires JobInv(db)
    ensures forall j :: 0 <= j < |db.jobs| && db.jobs[j].state.Processing? ==> db.jobs[j].lease.Some?
  {
    assert forall j :: 0 <= j < |db.jobs| ==> JobOk(db.jobs[j], db.status[j]);
  }

  lemma RecoverCount(db: Db, max: nat, now: nat)
    requires Aligned(db)
    ensures |Q.RecoverStale(db, max, now).jobs| == |db.jobs|
  {}
}
