/** The durable job queue: what each transaction of `queue.py` does to the tables. */
module QueueModel {
  import opened Types
  import opened WorkspaceModel

  function Pow2(n: nat): (r: nat)
    ensures r >= 1
  {
    if n == 0 then 1 else 2 * Pow2(n - 1)
  }

  /** Seconds until the next try: min(5 * 2 ** max(0, attempts - 1), 300). */
  function Backoff(attempts: nat): (delay: nat)
  {
    var delay := 5 * Pow2(if attempts == 0 then 0 else attempts - 1);
    if delay <= 300 then delay else 300
  }

  /** One write of a job's state: the job row, the status of its event when given, and the audit entry. */
  datatype JobWrite = JobWrite(job: nat, row: Job, status: Option<EventStatus>)

  function LogJob(db: Db, w: JobWrite): Db
    requires w.job < |db.jobs| && db.jobs[w.job].event < |db.status|
  {
    db.(jobs := db.jobs[w.job := w.row],
        status := if w.status.Some? then db.status[db.jobs[w.job].event := w.status.value] else db.status,
        audit := db.audit + [JobEntry(w.job, w.row.state)])
  }

  ghost predicate WritesFit(db: Db, ws: seq<JobWrite>) {
    && Aligned(db)
    && forall k :: 0 <= k < |ws| ==>
      ws[k].job < |db.jobs| && ws[k].row.event == ws[k].job && ws[k].row.key == db.jobs[ws[k].job].key
  }

  function LogJobs(db: Db, ws: seq<JobWrite>): (r: Db)
    requires WritesFit(db, ws)
    ensures Aligned(r) && |r.jobs| == |db.jobs|
    ensures r == db.(jobs := r.jobs, status := r.status, audit := r.audit)
  {
    if ws == [] then db
    else LogJob(LogJobs(db, ws[..|ws| - 1]), ws[|ws| - 1])
  }

  // ---------------------------------------------------------------- enqueue

  /** The event of a channel with this message id, if it is known. */
  function FindEvent(events: seq<Event>, channel: Channel, mid: string): (r: Option<nat>)
    ensures r.Some? ==> r.value < |events| && events[r.value].msg.channel == channel && events[r.value].msg.mid == mid
    ensures r.None? ==> forall i :: 0 <= i < |events| ==> events[i].msg.channel != channel || events[i].msg.mid != mid
  {
    if events == [] then None
    else
      var n := |events| - 1;
      if events[n].msg.channel == channel && events[n].msg.mid == mid then Some(n)
      else FindEvent(events[..n], channel, mid)
  }

  /** Makes all queued jobs of a key due at the same time. */
  function Postpone(jobs: seq<Job>, key: string, due: nat): (r: seq<Job>)
    ensures |r| == |jobs|
  {
    seq(|jobs|, i requires 0 <= i < |jobs| =>
      if jobs[i].key == key && jobs[i].state.Queued? then jobs[i].(availableAt := due) else jobs[i])
  }

  function NewJob(e: nat, key: string, now: nat, due: nat): Job {
    Job(e, key, now, Queued, 0, due, None, None, None)
  }

  datatype Enqueued = Enqueued(db: Db, event: nat, created: bool)

  /** `enqueue_in_transaction`; None when the insertion breaks a constraint and the transaction rolls back. */
  function Enqueue(db: Db, m: Inbound, now: nat, debounce: nat): (r: Option<Enqueued>)
    ensures r.Some? ==>
      r.value.db == db.(accounts := r.value.db.accounts, convs := r.value.db.convs, events := r.value.db.events,
                        status := r.value.db.status, jobs := r.value.db.jobs, messages := r.value.db.messages,
                        audit := r.value.db.audit)
  {
    var known := FindEvent(db.events, m.channel, m.mid);
    if known.Some? then
      Some(Enqueued(db.(audit := db.audit + [EventEntry(known.value, false)]), known.value, false))
    else
      var routed := EnsureConversation(db.accounts, db.convs, m);
      if routed.None? then None
      else
        var e := |db.events|;
        var jobs := db.jobs + [NewJob(e, m.key, now, now + debounce)];
        Some(Enqueued(
          db.(accounts := routed.value.accounts,
              convs := routed.value.convs,
              events := db.events + [Event(m, routed.value.conv)],
              status := db.status + [EvQueued],
              jobs := if debounce > 0 then Postpone(jobs, m.key, now + debounce) else jobs,
              messages := db.messages + [Message(routed.value.conv, FromEvent(e), m.body)],
              audit := db.audit + [EventEntry(e, true)]),
          e, true))
  }

  // ------------------------------------------------------------------ claim

  predicate Due(job: Job, now: nat) {
    job.state.Queued? && job.availableAt <= now
  }

  predicate Busy(jobs: seq<Job>, key: string) {
    exists r :: 0 <= r < |jobs| && jobs[r].key == key && jobs[r].state.Processing?
  }

  predicate Claimable(jobs: seq<Job>, j: nat, now: nat) {
    j < |jobs| && Due(jobs[j], now) && !Busy(jobs, jobs[j].key)
  }

  /** The first query of `claim_next`: an oldest available job whose key has no job in progress. */
  ghost predicate IsOldest(jobs: seq<Job>, now: nat, c: nat) {
    && Claimable(jobs, c, now)
    && forall i :: 0 <= i < |jobs| && Claimable(jobs, i, now) ==> jobs[c].createdAt <= jobs[i].createdAt
  }

  predicate DueIn(jobs: seq<Job>, key: string, now: nat, j: nat) {
    j < |jobs| && jobs[j].key == key && Due(jobs[j], now)
  }

  /** Its second query: the available job of the key whose event came last. */
  ghost predicate IsNewest(jobs: seq<Job>, key: string, now: nat, j: nat) {
    && DueIn(jobs, key, now, j)
    && forall i :: 0 <= i < |jobs| && DueIn(jobs, key, now, i) ==> jobs[i].event <= jobs[j].event
  }

  /** The oldest claimable job among the rows below `n`; of equally old ones the first inserted. */
  function FindOldest(jobs: seq<Job>, now: nat, n: nat): (r: Option<nat>)
    requires n <= |jobs|
    ensures r.Some? ==> r.value < n && Claimable(jobs, r.value, now)
                        && forall i :: 0 <= i < n && Claimable(jobs, i, now) ==>
                          jobs[r.value].createdAt <= jobs[i].createdAt
    ensures r.None? ==> forall i :: 0 <= i < n ==> !Claimable(jobs, i, now)
  {
    if n == 0 then None
    else
      var r := FindOldest(jobs, now, n - 1);
      if Claimable(jobs, n - 1, now) && (r.None? || jobs[n - 1].createdAt < jobs[r.value].createdAt) then Some(n - 1)
      else r
  }

  /** The available job of a key whose event came last, among the rows below `n`. */
  function FindNewest(jobs: seq<Job>, key: string, now: nat, n: nat): (r: Option<nat>)
    requires n <= |jobs|
    ensures r.Some? ==> r.value < n && DueIn(jobs, key, now, r.value)
                        && forall i :: 0 <= i < n && DueIn(jobs, key, now, i) ==> jobs[i].event <= jobs[r.value].event
    ensures r.None? ==> forall i :: 0 <= i < n ==> !DueIn(jobs, key, now, i)
  {
    if n == 0 then None
    else
      var r := FindNewest(jobs, key, now, n - 1);
      if DueIn(jobs, key, now, n - 1) && (r.None? || jobs[r.value].event < jobs[n - 1].event) then Some(n - 1) else r
  }

  function BatchWrite(jobs: seq<Job>, older: nat, newest: nat): JobWrite
    requires older < |jobs|
  {
    JobWrite(older, jobs[older].(state := Superseded, successor := Some(newest)), Some(EvBatched))
  }

  /** Its third query: the other available jobs of the key, among the rows below `n`. */
  function DueOthers(jobs: seq<Job>, key: string, now: nat, newest: nat, n: nat): (ids: seq<nat>)
    requires n <= |jobs|
    ensures forall k :: 0 <= k < |ids| ==> ids[k] < n && ids[k] != newest && DueIn(jobs, key, now, ids[k])
    ensures forall i: nat :: i < n && i != newest && DueIn(jobs, key, now, i) ==> i in ids
    ensures forall k, l :: 0 <= k < l < |ids| ==> ids[k] < ids[l]
  {
    if n == 0 then []
    else
      var ids := DueOthers(jobs, key, now, newest, n - 1);
      if n - 1 != newest && DueIn(jobs, key, now, n - 1) then ids + [n - 1] else ids
  }

  /** The writes of the batching loop. */
  function BatchWrites(jobs: seq<Job>, ids: seq<nat>, newest: nat): (ws: seq<JobWrite>)
    requires forall k :: 0 <= k < |ids| ==> ids[k] < |jobs|
  {
    seq(|ids|, k requires 0 <= k < |ids| => BatchWrite(jobs, ids[k], newest))
  }

  function ClaimWrite(jobs: seq<Job>, j: nat, until: nat, worker: nat): JobWrite
    requires j < |jobs|
  {
    JobWrite(j, jobs[j].(state := Processing, attempts := jobs[j].attempts + 1, lease := Some(until),
                         worker := Some(worker)), None)
  }

  /** The batching loop: every other available job of the key is superseded by `j`. */
  function Batched(db: Db, j: nat, now: nat): (r: Db)
    requires Aligned(db) && j < |db.jobs|
    ensures Aligned(r) && |r.jobs| == |db.jobs|
    ensures r == db.(jobs := r.jobs, status := r.status, audit := r.audit)
  {
    LogJobs(db, BatchWrites(db.jobs, DueOthers(db.jobs, db.jobs[j].key, now, j, |db.jobs|), j))
  }

  /** `claim_next` once its queries have settled on job `j`. */
  function Claim(db: Db, j: nat, now: nat, until: nat, worker: nat): (r: Db)
    requires Aligned(db) && j < |db.jobs|
    ensures r == db.(jobs := r.jobs, status := r.status, audit := r.audit)
  {
    LogJob(Batched(db, j, now), ClaimWrite(db.jobs, j, until, worker))
  }

  // ------------------------------------------------- leaving the queue again

  function Released(row: Job, state: JobState): Job {
    row.(state := state, lease := None, worker := None)
  }

  /** `fail`: decides from the row the worker was handed, `attempts`, and writes over the current row. */
  function Fail(db: Db, j: nat, attempts: nat, max: nat, now: nat): (r: Db)
    requires Aligned(db) && j < |db.jobs|
    ensures r == db.(jobs := r.jobs, status := r.status, audit := r.audit)
  {
    var terminal := attempts >= max;
    LogJob(db, JobWrite(j, Released(db.jobs[j], if terminal then DeadLetter else Queued).(
                             availableAt := if terminal then now else now + Backoff(attempts)),
                        Some(if terminal then EvFailed else EvRetrying)))
  }

  predicate Stale(job: Job, now: nat) {
    job.state.Processing? && job.lease.Some? && job.lease.value <= now
  }

  function RecoverWrite(jobs: seq<Job>, j: nat, max: nat, now: nat): JobWrite
    requires j < |jobs|
  {
    var terminal := jobs[j].attempts >= max;
    JobWrite(j, Released(jobs[j], if terminal then DeadLetter else Queued).(availableAt := now),
             Some(if terminal then EvFailed else EvRetrying))
  }

  /** The jobs whose lease has run out, among the rows below `n`. */
  function StaleJobs(jobs: seq<Job>, now: nat, n: nat): (ids: seq<nat>)
    requires n <= |jobs|
    ensures forall k :: 0 <= k < |ids| ==> ids[k] < n && Stale(jobs[ids[k]], now)
    ensures forall i: nat :: i < n && Stale(jobs[i], now) ==> i in ids
    ensures forall k, l :: 0 <= k < l < |ids| ==> ids[k] < ids[l]
  {
    if n == 0 then []
    else
      var ids := StaleJobs(jobs, now, n - 1);
      if Stale(jobs[n - 1], now) then ids + [n - 1] else ids
  }

  function RecoverWrites(jobs: seq<Job>, ids: seq<nat>, max: nat, now: nat): (ws: seq<JobWrite>)
    requires forall k :: 0 <= k < |ids| ==> ids[k] < |jobs|
  {
    seq(|ids|, k requires 0 <= k < |ids| => RecoverWrite(jobs, ids[k], max, now))
  }

  /** `recover_stale` */
  function RecoverStale(db: Db, max: nat, now: nat): (r: Db)
    requires Aligned(db)
    ensures r == db.(jobs := r.jobs, status := r.status, audit := r.audit)
  {
    LogJobs(db, RecoverWrites(db.jobs, StaleJobs(db.jobs, now, |db.jobs|), max, now))
  }

  /** `retry` and `dismiss` act on dead-lettered jobs only. */
  function Retry(db: Db, j: nat, now: nat): (r: Option<Db>)
    requires Aligned(db)
    ensures r.Some? ==> r.value == db.(jobs := r.value.jobs, status := r.value.status, audit := r.value.audit)
  {
    if j >= |db.jobs| || !db.jobs[j].state.DeadLetter? then None
    else Some(LogJob(db, JobWrite(j, Released(db.jobs[j], Queued).(attempts := 0, availableAt := now), Some(EvQueued))))
  }

  function Dismiss(db: Db, j: nat): (r: Option<Db>)
    requires Aligned(db)
    ensures r.Some? ==> r.value == db.(jobs := r.value.jobs, status := r.value.status, audit := r.value.audit)
  {
    if j >= |db.jobs| || !db.jobs[j].state.DeadLetter? then None
    else Some(LogJob(db, JobWrite(j, db.jobs[j].(state := Dismissed), Some(EvDismissed))))
  }

  /** The worker's completing transaction, `Executor.run_once`. */
  function Complete(db: Db, j: nat): (r: Db)
    requires Aligned(db) && j < |db.jobs|
    ensures r == db.(jobs := r.jobs, status := r.status, audit := r.audit)
  {
    LogJob(db, JobWrite(j, Released(db.jobs[j], Completed), Some(EvProcessed)))
  }

  /** The writing half of `Executor._supersede_job`. */
  function Supersede(db: Db, j: nat, successor: Option<nat>): (r: Db)
    requires Aligned(db) && j < |db.jobs|
    ensures r == db.(jobs := r.jobs, status := r.status, audit := r.audit)
  {
    LogJob(db, JobWrite(j, Released(db.jobs[j], Superseded).(successor := successor), Some(EvBatched)))
  }
}
