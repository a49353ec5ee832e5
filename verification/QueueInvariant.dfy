/** What every transaction keeps of conversations, jobs and the audit log, under any interleaving. */
module QueueInvariant {
  import opened Types
  import opened Text
  import opened WorkspaceModel
  import opened QueueModel
  import opened System

  // ----------------------------------------------------------- conversations

  ghost predicate ConvInv(events: seq<Event>, convs: seq<Conversation>, accounts: seq<Account>) {
    && (forall e :: 0 <= e < |events| ==>
          events[e].conv < |convs| && convs[events[e].conv].channel == events[e].msg.channel
          && convs[events[e].conv].key == events[e].msg.key && Keyed(events[e].msg))
    && (forall c, d ::
          0 <= c < |convs| && 0 <= d < |convs| && convs[c].channel == convs[d].channel && convs[c].key == convs[d].key
          ==> c == d)
    && (forall c :: 0 <= c < |convs| ==> convs[c].account < |accounts|)
  }

  /** A work key begins with its channel's name, so it cannot belong to both channels. */
  lemma KeyFixesChannel(a: Inbound, b: Inbound)
    requires Keyed(a) && Keyed(b) && a.key == b.key
    ensures a.channel == b.channel
  {
    assert ChannelName(a.channel) + ":" <= a.key && ChannelName(b.channel) + ":" <= a.key;
    assert a.key[0] == ChannelName(a.channel)[0] == ChannelName(b.channel)[0];
  }

  /** Two events have the same work key exactly when they are in the same conversation. */
  lemma KeyIsConversation(db: Db, i: nat, k: nat)
    requires ConvInv(db.events, db.convs, db.accounts) && i < |db.events| && k < |db.events|
    ensures db.events[i].msg.key == db.events[k].msg.key <==> db.events[i].conv == db.events[k].conv
  {
    if db.events[i].msg.key == db.events[k].msg.key {
      KeyFixesChannel(db.events[i].msg, db.events[k].msg);
    }
  }

  lemma EnqueueKeepsConvs(db: Db, m: Inbound, now: nat, debounce: nat)
    requires ConvInv(db.events, db.convs, db.accounts) && Keyed(m)
    requires Enqueue(db, m, now, debounce).Some?
    ensures var db' := Enqueue(db, m, now, debounce).value.db;
      && ConvInv(db'.events, db'.convs, db'.accounts)
      && |db'.convs| >= |db.convs| && forall c :: 0 <= c < |db.convs| ==> db'.convs[c].paused == db.convs[c].paused
  {
    hide FindEvent, FindAccount, Clashes, Postpone, Keyed;
    var r := EnsureConversation(db.accounts, db.convs, m);
    if FindEvent(db.events, m.channel, m.mid).None? && r.Some? {
      var convs := r.value.convs;
      assert forall c :: 0 <= c < |db.convs| ==>
        convs[c].channel == db.convs[c].channel && convs[c].key == db.convs[c].key;
    }
  }

  // -------------------------------------------------------------------- jobs

  /** The event status that goes with each job state. */
  predicate StatusFits(state: JobState, status: EventStatus) {
    match state
    case Queued => status.EvQueued? || status.EvRetrying?
    case Processing => status.EvQueued? || status.EvRetrying?
    case Completed => status.EvProcessed?
    case DeadLetter => status.EvFailed?
    case Dismissed => status.EvDismissed?
    case Superseded => status.EvBatched?
  }

  predicate JobOk(row: Job, status: EventStatus) {
    && (row.state.Processing? <==> row.lease.Some?)
    && (row.state.Processing? <==> row.worker.Some?)
    && StatusFits(row.state, status)
  }

  /** A superseded job points at a job of the same key whose event came strictly later. */
  predicate SuccessorOk(jobs: seq<Job>, j: nat, row: Job) {
    row.state.Superseded? ==>
      row.successor.Some? && j < row.successor.value < |jobs| && jobs[row.successor.value].key == row.key
  }

  ghost predicate Exclusive(jobs: seq<Job>) {
    forall i, k ::
      0 <= i < |jobs| && 0 <= k < |jobs| && jobs[i].state.Processing? && jobs[k].state.Processing?
      && jobs[i].key == jobs[k].key
      ==> i == k
  }

  ghost predicate JobRows(events: seq<Event>, status: seq<EventStatus>, jobs: seq<Job>) {
    && RowsAligned(events, status, jobs)
    && (forall j :: 0 <= j < |jobs| ==> JobOk(jobs[j], status[j]) && SuccessorOk(jobs, j, jobs[j]))
    && Exclusive(jobs)
  }

  ghost predicate JobInv(db: Db) {
    JobRows(db.events, db.status, db.jobs)
  }

  lemma JobInvAligned(db: Db)
    requires JobInv(db)
    ensures Aligned(db)
  {}

  ghost predicate WriteOk(db: Db, w: JobWrite) {
    && w.job < |db.jobs| == |db.status|
    && w.row.event == w.job && w.row.key == db.jobs[w.job].key
    && JobOk(w.row, if w.status.Some? then w.status.value else db.status[w.job])
    && SuccessorOk(db.jobs, w.job, w.row)
    && (w.row.state.Processing? ==> !Busy(db.jobs, w.row.key))
  }

  lemma LogJobKeeps(db: Db, w: JobWrite)
    requires JobInv(db) && WriteOk(db, w)
    ensures JobInv(LogJob(db, w))
  {
    var db' := LogJob(db, w);
    assert forall j :: 0 <= j < |db.jobs| ==> db'.jobs[j].key == db.jobs[j].key;
    forall i, k | 0 <= i < |db'.jobs| && 0 <= k < |db'.jobs| && db'.jobs[i].state.Processing?
                  && db'.jobs[k].state.Processing? && db'.jobs[i].key == db'.jobs[k].key
      ensures i == k
    {
      if w.row.state.Processing? {
        assert i != w.job ==> !(db.jobs[i].state.Processing? && db.jobs[i].key == w.row.key);
        assert k != w.job ==> !(db.jobs[k].state.Processing? && db.jobs[k].key == w.row.key);
      }
    }
  }

  /** A write that takes a job out of processing is fine whatever else is going on. */
  predicate Passive(jobs: seq<Job>, w: JobWrite) {
    && w.job < |jobs| && w.row.event == w.job && w.row.key == jobs[w.job].key
    && !w.row.state.Processing? && w.status.Some? && JobOk(w.row, w.status.value)
    && SuccessorOk(jobs, w.job, w.row)
  }

  ghost predicate AllPassive(jobs: seq<Job>, ws: seq<JobWrite>) {
    forall k :: 0 <= k < |ws| ==> Passive(jobs, ws[k])
  }

  lemma {:induction false} LogJobsKeep(db: Db, ws: seq<JobWrite>)
    requires JobInv(db) && WritesFit(db, ws) && AllPassive(db.jobs, ws)
    ensures JobInv(LogJobs(db, ws))
    ensures forall j :: 0 <= j < |db.jobs| ==> LogJobs(db, ws).jobs[j].key == db.jobs[j].key
  {
    if ws != [] {
      var n := |ws| - 1;
      var w := ws[n];
      LogJobsKeep(db, ws[..n]);
      var mid := LogJobs(db, ws[..n]);
      assert Passive(db.jobs, w);
      assert WriteOk(mid, w);
      LogJobKeeps(mid, w);
    }
  }

  /** Row by row, what a list of writes to different jobs does. */
  lemma {:induction false} LogJobsAt(db: Db, ws: seq<JobWrite>)
    requires WritesFit(db, ws)
    requires forall k, l :: 0 <= k < l < |ws| ==> ws[k].job != ws[l].job
    ensures var jobs := LogJobs(db, ws).jobs;
      && (forall k :: 0 <= k < |ws| ==> jobs[ws[k].job] == ws[k].row)
      && (forall j :: 0 <= j < |db.jobs| && (forall k :: 0 <= k < |ws| ==> ws[k].job != j) ==> jobs[j] == db.jobs[j])
  {
    if ws != [] {
      var n := |ws| - 1;
      LogJobsAt(db, ws[..n]);
      var mid := LogJobs(db, ws[..n]).jobs;
      forall k | 0 <= k < n
        ensures mid[ws[k].job] == ws[k].row
      {
        assert ws[..n][k] == ws[k];
      }
    }
  }

  // ------------------------------------------------------------------- claim

  /** What `claim_next` promises of the row of job `i` after claiming `j`. */
  predicate ClaimedRow(before: Job, after: Job, i: nat, j: nat, key: string, now: nat, until: nat, worker: nat) {
    if i == j then
      after == before.(state := Processing, attempts := before.attempts + 1, lease := Some(until),
                       worker := Some(worker))
    else if before.key == key && before.state.Queued? && before.availableAt <= now then
      after == before.(state := Superseded, successor := Some(j))
    else after == before
  }

  ghost predicate ClaimsFrom(db: Db, j: nat, now: nat) {
    && j < |db.jobs| && IsNewest(db.jobs, db.jobs[j].key, now, j) && !Busy(db.jobs, db.jobs[j].key)
  }

  lemma BatchIsPassive(db: Db, j: nat, now: nat)
    requires JobInv(db) && ClaimsFrom(db, j, now)
    ensures var ws := BatchWrites(db.jobs, DueOthers(db.jobs, db.jobs[j].key, now, j, |db.jobs|), j);
      && WritesFit(db, ws) && AllPassive(db.jobs, ws)
  {
    var ids := DueOthers(db.jobs, db.jobs[j].key, now, j, |db.jobs|);
    var ws := BatchWrites(db.jobs, ids, j);
    forall k | 0 <= k < |ws|
      ensures Passive(db.jobs, ws[k])
    {
      assert ws[k] == BatchWrite(db.jobs, ids[k], j);
      assert DueIn(db.jobs, db.jobs[j].key, now, ids[k]);
      assert db.jobs[ids[k]].event <= db.jobs[j].event;
    }
  }

  /** What the batching loop makes of row `i`. */
  function BatchedRow(jobs: seq<Job>, i: nat, j: nat, now: nat): Job
    requires i < |jobs| && j < |jobs|
  {
    if i != j && DueIn(jobs, jobs[j].key, now, i) then BatchWrite(jobs, i, j).row else jobs[i]
  }

  lemma BatchRow(db: Db, j: nat, now: nat, i: nat)
    requires JobInv(db) && ClaimsFrom(db, j, now) && i < |db.jobs|
    ensures Batched(db, j, now).jobs[i] == BatchedRow(db.jobs, i, j, now)
  {
    hide JobRows, LogJobs, IsNewest, Busy;
    var ids := DueOthers(db.jobs, db.jobs[j].key, now, j, |db.jobs|);
    var ws := BatchWrites(db.jobs, ids, j);
    BatchIsPassive(db, j, now);
    LogJobsAt(db, ws);
    if i != j && DueIn(db.jobs, db.jobs[j].key, now, i) {
      assert i in ids;
      var k :| 0 <= k < |ids| && ids[k] == i;
      assert ws[k] == BatchWrite(db.jobs, i, j);
    } else {
      assert forall k :: 0 <= k < |ws| ==> ws[k].job == ids[k] != i;
    }
  }

  lemma BatchRows(db: Db, j: nat, now: nat)
    requires JobInv(db) && ClaimsFrom(db, j, now)
    ensures forall i :: 0 <= i < |db.jobs| ==> Batched(db, j, now).jobs[i] == BatchedRow(db.jobs, i, j, now)
  {
    hide JobRows, Batched, BatchedRow, IsNewest, Busy;
    JobInvAligned(db);
    forall i | 0 <= i < |db.jobs|
      ensures Batched(db, j, now).jobs[i] == BatchedRow(db.jobs, i, j, now)
    {
      BatchRow(db, j, now, i);
    }
  }

  lemma BatchKeeps(db: Db, j: nat, now: nat)
    requires JobInv(db) && ClaimsFrom(db, j, now)
    ensures JobInv(Batched(db, j, now))
  {
    BatchIsPassive(db, j, now);
    LogJobsKeep(db, BatchWrites(db.jobs, DueOthers(db.jobs, db.jobs[j].key, now, j, |db.jobs|), j));
  }

  /** The claim, row by row. */
  lemma ClaimRows(db: Db, j: nat, now: nat, until: nat, worker: nat)
    requires JobInv(db) && ClaimsFrom(db, j, now)
    ensures var jobs := Claim(db, j, now, until, worker).jobs;
      forall i :: 0 <= i < |db.jobs| ==> ClaimedRow(db.jobs[i], jobs[i], i, j, db.jobs[j].key, now, until, worker)
  {
    BatchRows(db, j, now);
  }

  lemma ClaimKeeps(db: Db, j: nat, now: nat, until: nat, worker: nat)
    requires JobInv(db) && ClaimsFrom(db, j, now)
    ensures JobInv(Claim(db, j, now, until, worker))
  {
    BatchRows(db, j, now);
    BatchKeeps(db, j, now);
    var mid := Batched(db, j, now);
    assert mid.jobs[j] == db.jobs[j];
    forall r | 0 <= r < |mid.jobs| && mid.jobs[r].key == db.jobs[j].key
      ensures !mid.jobs[r].state.Processing?
    {
      assert !(db.jobs[r].key == db.jobs[j].key && db.jobs[r].state.Processing?);
    }
    assert JobOk(mid.jobs[j], mid.status[j]);
    LogJobKeeps(mid, ClaimWrite(db.jobs, j, until, worker));
  }

  // ------------------------------------------------------ the other job writes

  lemma RecoverIsPassive(db: Db, max: nat, now: nat)
    requires JobInv(db)
    ensures var ws := RecoverWrites(db.jobs, StaleJobs(db.jobs, now, |db.jobs|), max, now);
      WritesFit(db, ws) && AllPassive(db.jobs, ws)
  {
    var ids := StaleJobs(db.jobs, now, |db.jobs|);
    var ws := RecoverWrites(db.jobs, ids, max, now);
    forall k | 0 <= k < |ws|
      ensures Passive(db.jobs, ws[k])
    {
      assert ws[k] == RecoverWrite(db.jobs, ids[k], max, now);
    }
  }

  lemma RecoverKeeps(db: Db, max: nat, now: nat)
    requires JobInv(db)
    ensures JobInv(RecoverStale(db, max, now))
  {
    RecoverIsPassive(db, max, now);
    LogJobsKeep(db, RecoverWrites(db.jobs, StaleJobs(db.jobs, now, |db.jobs|), max, now));
  }

  /** `recover_stale`, row by row. */
  lemma RecoverRows(db: Db, max: nat, now: nat)
    requires JobInv(db)
    ensures var jobs := RecoverStale(db, max, now).jobs;
      forall i :: 0 <= i < |db.jobs| ==>
        var row := db.jobs[i];
        jobs[i] ==
          if row.state.Processing? && row.lease.Some? && row.lease.value <= now then
            row.(state := if row.attempts >= max then DeadLetter else Queued, availableAt := now, lease := None,
                 worker := None)
          else row
  {
    var ids := StaleJobs(db.jobs, now, |db.jobs|);
    var ws := RecoverWrites(db.jobs, ids, max, now);
    RecoverIsPassive(db, max, now);
    LogJobsAt(db, ws);
    var jobs := RecoverStale(db, max, now).jobs;
    forall i | 0 <= i < |db.jobs|
      ensures jobs[i] == if Stale(db.jobs[i], now) then RecoverWrite(db.jobs, i, max, now).row else db.jobs[i]
    {
      if Stale(db.jobs[i], now) {
        assert i in ids;
        var k :| 0 <= k < |ids| && ids[k] == i;
        assert jobs[ws[k].job] == ws[k].row;
      } else {
        assert forall k :: 0 <= k < |ws| ==> ws[k].job != i;
      }
    }
  }

  lemma FailKeeps(db: Db, j: nat, attempts: nat, max: nat, now: nat)
    requires JobInv(db) && j < |db.jobs|
    ensures JobInv(Fail(db, j, attempts, max, now))
  {
    var terminal := attempts >= max;
    LogJobKeeps(db, JobWrite(j, Released(db.jobs[j], if terminal then DeadLetter else Queued).(
                             availableAt := if terminal then now else now + Backoff(attempts)),
                        Some(if terminal then EvFailed else EvRetrying)));
  }

  lemma RetryKeeps(db: Db, j: nat, now: nat)
    requires JobInv(db)
    ensures JobInv(OrElse(Retry(db, j, now), db)) && JobInv(OrElse(Dismiss(db, j), db))
  {
    if j < |db.jobs| && db.jobs[j].state.DeadLetter? {
      LogJobKeeps(db, JobWrite(j, Released(db.jobs[j], Queued).(attempts := 0, availableAt := now), Some(EvQueued)));
      LogJobKeeps(db, JobWrite(j, db.jobs[j].(state := Dismissed), Some(EvDismissed)));
    }
  }

  lemma CompleteKeeps(db: Db, j: nat)
    requires JobInv(db) && j < |db.jobs|
    ensures JobInv(Complete(db, j))
  {
    LogJobKeeps(db, JobWrite(j, Released(db.jobs[j], Completed), Some(EvProcessed)));
  }

  lemma SupersedeKeeps(db: Db, j: nat, successor: nat)
    requires JobInv(db) && j < successor < |db.jobs| && db.jobs[successor].key == db.jobs[j].key
    ensures JobInv(Supersede(db, j, Some(successor)))
  {
    LogJobKeeps(db, JobWrite(j, Released(db.jobs[j], Superseded).(successor := Some(successor)), Some(EvBatched)));
  }

  lemma PostponeKeeps(events: seq<Event>, status: seq<EventStatus>, jobs: seq<Job>, key: string, due: nat)
    requires JobRows(events, status, jobs)
    ensures JobRows(events, status, Postpone(jobs, key, due))
  {
    var later := Postpone(jobs, key, due);
    assert forall j :: 0 <= j < |jobs| ==> later[j] == jobs[j].(availableAt := later[j].availableAt);
    assert forall j :: 0 <= j < |jobs| ==> JobOk(jobs[j], status[j]) && SuccessorOk(jobs, j, jobs[j]);
  }

  lemma NewJobKeeps(db: Db, event: Event, now: nat, due: nat)
    requires JobInv(db)
    ensures JobRows(db.events + [event], db.status + [EvQueued],
                    db.jobs + [NewJob(|db.events|, event.msg.key, now, due)])
  {
    assert forall j :: 0 <= j < |db.jobs| ==> JobOk(db.jobs[j], db.status[j]) && SuccessorOk(db.jobs, j, db.jobs[j]);
  }

  lemma EnqueueKeepsJobs(db: Db, m: Inbound, now: nat, debounce: nat)
    requires JobInv(db) && Enqueue(db, m, now, debounce).Some?
    ensures JobInv(Enqueue(db, m, now, debounce).value.db)
  {
    var routed := EnsureConversation(db.accounts, db.convs, m);
    if FindEvent(db.events, m.channel, m.mid).None? && routed.Some? {
      var event := Event(m, routed.value.conv);
      NewJobKeeps(db, event, now, now + debounce);
      PostponeKeeps(db.events + [event], db.status + [EvQueued],
                    db.jobs + [NewJob(|db.events|, m.key, now, now + debounce)], m.key, now + debounce);
    }
  }
}
