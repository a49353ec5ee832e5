/** What the transactions of the job queue promise, said of the rows before and after them alone: which rows are
    written, under which condition, and what they then hold. */
module QueueRules {
  import opened Types
  import opened Text
  import opened WorkspaceModel
  import opened QueueModel
  import opened QueueInvariant
  import opened WorkspaceRules

  // ------------------------------------------------------------------- claim

  /** What a claim of job `j` at `now` makes of another job and its event: a queued one of the key whose time has come
      is batched into it. */
  predicate RowBatched(a: Job, s: EventStatus, b: Job, t: EventStatus, key: string, j: nat, now: nat) {
    if a.key == key && a.state.Queued? && a.availableAt <= now then
      b == a.(state := Superseded, successor := Some(j)) && t == EvBatched
    else b == a && t == s
  }

  /** The claim of job `j` at `now`: it was queued and its time had come, no job of its key was in progress, and of the
      queued jobs of the key whose time had come it is the newest. */
  ghost predicate ClaimOk(a: Db, b: Db, j: nat, now: nat, until: nat, worker: nat) {
    && j < |a.jobs| == |b.jobs| && |a.status| == |b.status| == |a.jobs|
    && a.jobs[j].state.Queued? && a.jobs[j].availableAt <= now
    && (forall i :: 0 <= i < |a.jobs| && a.jobs[i].key == a.jobs[j].key ==> !a.jobs[i].state.Processing?)
    && (forall i :: j < i < |a.jobs| && a.jobs[i].key == a.jobs[j].key && a.jobs[i].state.Queued? ==>
          a.jobs[i].availableAt > now)
    && b.jobs[j] == a.jobs[j].(state := Processing, attempts := a.jobs[j].attempts + 1, lease := Some(until),
                               worker := Some(worker))
    && b.status[j] == a.status[j]
    && forall i :: 0 <= i < |a.jobs| && i != j ==>
         RowBatched(a.jobs[i], a.status[i], b.jobs[i], b.status[i], a.jobs[j].key, j, now)
  }

  /** Job `i` is queued, its time has come and its key is free. */
  ghost predicate Servable(jobs: seq<Job>, i: nat, now: nat) {
    && i < |jobs| && jobs[i].state.Queued? && jobs[i].availableAt <= now
    && forall r :: 0 <= r < |jobs| && jobs[r].key == jobs[i].key ==> !jobs[r].state.Processing?
  }

  /** The key of job `j` is that of an oldest job that can be served. */
  ghost predicate OfOldest(jobs: seq<Job>, j: nat, now: nat)
    requires j < |jobs|
  {
    exists o: nat :: Servable(jobs, o, now) && jobs[o].key == jobs[j].key
                     && forall i: nat :: Servable(jobs, i, now) ==> jobs[o].createdAt <= jobs[i].createdAt
  }

  lemma ServableExactly(jobs: seq<Job>, i: nat, now: nat)
    ensures Servable(jobs, i, now) <==> Claimable(jobs, i, now)
  {}

  lemma OldestOf(jobs: seq<Job>, o: nat, j: nat, now: nat)
    requires IsOldest(jobs, now, o) && j < |jobs| && jobs[o].key == jobs[j].key
    ensures OfOldest(jobs, j, now)
  {
    ServableExactly(jobs, o, now);
    forall i: nat | Servable(jobs, i, now)
      ensures jobs[o].createdAt <= jobs[i].createdAt
    {
      ServableExactly(jobs, i, now);
    }
  }

  lemma BatchFits(db: Db, j: nat, now: nat)
    requires Aligned(db) && j < |db.jobs|
    ensures var ids := DueOthers(db.jobs, db.jobs[j].key, now, j, |db.jobs|);
      var ws := BatchWrites(db.jobs, ids, j);
      && WritesFit(db, ws) && |ws| == |ids| && (forall k, l :: 0 <= k < l < |ws| ==> ws[k].job != ws[l].job)
      && (forall k :: 0 <= k < |ids| ==> ws[k] == BatchWrite(db.jobs, ids[k], j))
  {}

  /** The statuses after a list of writes to different jobs. */
  lemma {:induction false} LogStatusAt(db: Db, ws: seq<JobWrite>)
    requires WritesFit(db, ws) && forall k :: 0 <= k < |ws| ==> ws[k].status.Some?
    requires forall k, l :: 0 <= k < l < |ws| ==> ws[k].job != ws[l].job
    ensures var status := LogJobs(db, ws).status;
      && |status| == |db.status|
      && (forall k :: 0 <= k < |ws| ==> status[ws[k].job] == ws[k].status.value)
      && (forall j :: 0 <= j < |db.jobs| && (forall k :: 0 <= k < |ws| ==> ws[k].job != j) ==> status[j] == db.status[j])
  {
    if ws != [] {
      var n := |ws| - 1;
      LogStatusAt(db, ws[..n]);
      var mid := LogJobs(db, ws[..n]).status;
      forall k | 0 <= k < n
        ensures mid[ws[k].job] == ws[k].status.value
      {
        assert ws[..n][k] == ws[k];
      }
    }
  }

  lemma BatchedIn(db: Db, j: nat, now: nat, i: nat)
    requires Aligned(db) && j < |db.jobs| && i < |db.jobs| && i != j && DueIn(db.jobs, db.jobs[j].key, now, i)
    ensures var b := Batched(db, j, now);
      && |b.jobs| == |db.jobs| && |b.status| == |db.status|
      && b.jobs[i] == BatchWrite(db.jobs, i, j).row && b.status[i] == EvBatched
  {
    hide LogJobs, BatchWrites;
    var ids := DueOthers(db.jobs, db.jobs[j].key, now, j, |db.jobs|);
    var ws := BatchWrites(db.jobs, ids, j);
    BatchFits(db, j, now);
    LogJobsAt(db, ws);
    LogStatusAt(db, ws);
    assert i in ids;
    var k :| 0 <= k < |ids| && ids[k] == i;
    assert ws[k] == BatchWrite(db.jobs, i, j);
  }

  lemma SparedBy(db: Db, j: nat, now: nat, i: nat)
    requires Aligned(db) && j < |db.jobs| && i < |db.jobs| && (i == j || !DueIn(db.jobs, db.jobs[j].key, now, i))
    ensures var b := Batched(db, j, now);
      && |b.jobs| == |db.jobs| && |b.status| == |db.status| && b.jobs[i] == db.jobs[i] && b.status[i] == db.status[i]
  {
    hide LogJobs, BatchWrites;
    var ids := DueOthers(db.jobs, db.jobs[j].key, now, j, |db.jobs|);
    var ws := BatchWrites(db.jobs, ids, j);
    BatchFits(db, j, now);
    LogJobsAt(db, ws);
    LogStatusAt(db, ws);
    assert forall k :: 0 <= k < |ws| ==> ws[k].job == ids[k] != i;
  }

  /** Row `i` after the batching loop. */
  lemma BatchedAt(db: Db, j: nat, now: nat, i: nat)
    requires Aligned(db) && j < |db.jobs| && i < |db.jobs|
    ensures var b := Batched(db, j, now);
      && |b.jobs| == |db.jobs| && |b.status| == |db.status|
      && (i != j ==> RowBatched(db.jobs[i], db.status[i], b.jobs[i], b.status[i], db.jobs[j].key, j, now))
      && (i == j ==> b.jobs[i] == db.jobs[i] && b.status[i] == db.status[i])
  {
    hide Batched, RowBatched, DueIn, BatchWrite;
    if i != j && DueIn(db.jobs, db.jobs[j].key, now, i) {
      BatchedIn(db, j, now, i);
      IsBatched(db.jobs, i, j, db.status[i], now);
    } else {
      SparedBy(db, j, now, i);
      if i != j { IsSpared(db.jobs, i, j, db.status[i], now); }
    }
  }

  lemma IsBatched(jobs: seq<Job>, i: nat, j: nat, s: EventStatus, now: nat)
    requires i < |jobs| && j < |jobs| && DueIn(jobs, jobs[j].key, now, i)
    ensures RowBatched(jobs[i], s, BatchWrite(jobs, i, j).row, EvBatched, jobs[j].key, j, now)
    ensures BatchWrite(jobs, i, j).status == Some(EvBatched)
  {}

  lemma IsSpared(jobs: seq<Job>, i: nat, j: nat, s: EventStatus, now: nat)
    requires i < |jobs| && j < |jobs| && !DueIn(jobs, jobs[j].key, now, i)
    ensures RowBatched(jobs[i], s, jobs[i], s, jobs[j].key, j, now)
  {}

  lemma ClaimIsOnTime(db: Db, j: nat, now: nat, until: nat, worker: nat)
    requires Aligned(db) && ClaimsFrom(db, j, now)
    ensures ClaimOk(db, Claim(db, j, now, until, worker), j, now, until, worker)
  {
    hide Batched, RowBatched;
    assert DueIn(db.jobs, db.jobs[j].key, now, j);
    var b := Claim(db, j, now, until, worker);
    BatchedAt(db, j, now, j);
    forall i | 0 <= i < |db.jobs| && i != j
      ensures RowBatched(db.jobs[i], db.status[i], b.jobs[i], b.status[i], db.jobs[j].key, j, now)
    {
      BatchedAt(db, j, now, i);
    }
    assert forall i: nat :: j < i < |db.jobs| ==> !DueIn(db.jobs, db.jobs[j].key, now, i);
  }

  // ---------------------------------------------------------------- recovery

  /** What a recovery at `now` makes of a job and its event: a job in progress whose lease has run out by then leaves
      progress, as a dead letter when it has had all its attempts and for an immediate retry otherwise. */
  predicate RowRecovered(a: Job, s: EventStatus, b: Job, t: EventStatus, max: nat, now: nat) {
    if a.state.Processing? && a.lease.Some? && a.lease.value <= now then
      var dead := a.attempts >= max;
      && b == a.(state := if dead then DeadLetter else Queued, availableAt := now, lease := None, worker := None)
      && t == (if dead then EvFailed else EvRetrying)
    else b == a && t == s
  }

  ghost predicate RecoverOk(a: Db, b: Db, max: nat, now: nat) {
    && |a.jobs| == |b.jobs| && |a.status| == |b.status| == |a.jobs|
    && forall i :: 0 <= i < |a.jobs| ==> RowRecovered(a.jobs[i], a.status[i], b.jobs[i], b.status[i], max, now)
  }

  lemma RecoverFits(db: Db, max: nat, now: nat)
    requires Aligned(db)
    ensures var ids := StaleJobs(db.jobs, now, |db.jobs|);
      var ws := RecoverWrites(db.jobs, ids, max, now);
      && WritesFit(db, ws) && |ws| == |ids| && (forall k, l :: 0 <= k < l < |ws| ==> ws[k].job != ws[l].job)
      && (forall k :: 0 <= k < |ids| ==> ws[k] == RecoverWrite(db.jobs, ids[k], max, now))
  {}

  lemma RecoveredAt(db: Db, max: nat, now: nat, i: nat)
    requires Aligned(db) && i < |db.jobs|
    ensures var b := RecoverStale(db, max, now);
      && |b.jobs| == |db.jobs| && |b.status| == |db.status|
      && RowRecovered(db.jobs[i], db.status[i], b.jobs[i], b.status[i], max, now)
  {
    hide LogJobs, RecoverWrites;
    var ids := StaleJobs(db.jobs, now, |db.jobs|);
    var ws := RecoverWrites(db.jobs, ids, max, now);
    RecoverFits(db, max, now);
    LogJobsAt(db, ws);
    LogStatusAt(db, ws);
    if Stale(db.jobs[i], now) {
      assert i in ids;
      var k :| 0 <= k < |ids| && ids[k] == i;
      assert ws[k] == RecoverWrite(db.jobs, i, max, now);
    } else {
      assert forall k :: 0 <= k < |ws| ==> ws[k].job == ids[k] != i;
    }
  }

  lemma RecoversExpired(db: Db, max: nat, now: nat)
    requires Aligned(db)
    ensures RecoverOk(db, RecoverStale(db, max, now), max, now)
  {
    hide RecoverStale, RowRecovered;
    var b := RecoverStale(db, max, now);
    RecoverCounts(db, max, now);
    forall i | 0 <= i < |db.jobs|
      ensures RowRecovered(db.jobs[i], db.status[i], b.jobs[i], b.status[i], max, now)
    {
      RecoveredAt(db, max, now, i);
    }
  }

  lemma RecoverCounts(db: Db, max: nat, now: nat)
    requires Aligned(db)
    ensures var b := RecoverStale(db, max, now); |b.jobs| == |db.jobs| == |b.status| == |db.status|
  {
  }

  /** How many of the first `n` jobs a recovery at `now` takes out of progress. */
  function CountRanOut(jobs: seq<Job>, now: nat, n: nat): nat
    requires n <= |jobs|
  {
    if n == 0 then 0
    else
      var row := jobs[n - 1];
      CountRanOut(jobs, now, n - 1)
      + (if row.state.Processing? && row.lease.Some? && row.lease.value <= now then 1 else 0)
  }

  lemma {:induction false} StaleCount(jobs: seq<Job>, now: nat, n: nat)
    requires n <= |jobs|
    ensures |StaleJobs(jobs, now, n)| == CountRanOut(jobs, now, n)
  {
    if n > 0 {
      StaleCount(jobs, now, n - 1);
    }
  }

  // ---------------------------------------------------------- one job's write

  /** One transaction wrote this row, this event status and their audit entry, and nothing else. */
  ghost predicate WritesOne(a: Db, b: Db, j: nat, row: Job, status: EventStatus) {
    && j < |a.jobs| && j < |a.status|
    && b == a.(jobs := a.jobs[j := row], status := a.status[j := status], audit := a.audit + [JobEntry(j, row.state)])
  }

  /** Seconds to wait after this many attempts: five, doubled for each attempt after the first, at most 300. */
  function Delay(attempts: nat): nat {
    if attempts <= 1 then 5 else var twice := 2 * Delay(attempts - 1); if twice <= 300 then twice else 300
  }

  lemma {:induction false} DelayIsBackoff(attempts: nat)
    ensures Backoff(attempts) == Delay(attempts)
  {
    if attempts > 1 {
      DelayIsBackoff(attempts - 1);
    }
  }

  /** A failure at `now` of a job handed over at this attempt: a dead letter from the last attempt on, and otherwise in
      the queue again, to be served no sooner than the delay allows. */
  ghost predicate FailOk(a: Db, b: Db, j: nat, attempts: nat, max: nat, now: nat) {
    && j < |a.jobs|
    && if attempts >= max then
         WritesOne(a, b, j, a.jobs[j].(state := DeadLetter, availableAt := now, lease := None, worker := None), EvFailed)
       else
         WritesOne(a, b, j, a.jobs[j].(state := Queued, availableAt := now + Delay(attempts), lease := None,
                                       worker := None), EvRetrying)
  }

  lemma FailsWithDelay(db: Db, j: nat, attempts: nat, max: nat, now: nat)
    requires Aligned(db) && j < |db.jobs|
    ensures FailOk(db, Fail(db, j, attempts, max, now), j, attempts, max, now)
  {
    hide Backoff, Delay;
    DelayIsBackoff(attempts);
  }

  /** Back in the queue for an immediate start with all attempts left. */
  ghost predicate RetryOk(a: Db, b: Db, j: nat, now: nat) {
    && j < |a.jobs|
    && WritesOne(a, b, j, a.jobs[j].(state := Queued, attempts := 0, availableAt := now, lease := None, worker := None),
                 EvQueued)
  }

  lemma RetriesDeadLetters(db: Db, j: nat, now: nat)
    requires Aligned(db)
    ensures Retry(db, j, now).Some? <==> j < |db.jobs| && db.jobs[j].state.DeadLetter?
    ensures Retry(db, j, now).Some? ==> RetryOk(db, Retry(db, j, now).value, j, now)
  {}

  lemma DismissesDeadLetters(db: Db, j: nat)
    requires Aligned(db)
    ensures Dismiss(db, j).Some? <==> j < |db.jobs| && db.jobs[j].state.DeadLetter?
    ensures Dismiss(db, j).Some? ==>
      WritesOne(db, Dismiss(db, j).value, j, db.jobs[j].(state := Dismissed), EvDismissed)
  {}

  lemma CompletesJob(db: Db, j: nat)
    requires Aligned(db) && j < |db.jobs|
    ensures WritesOne(db, Complete(db, j), j, db.jobs[j].(state := Completed, lease := None, worker := None), EvProcessed)
  {}

  lemma SupersedesJob(db: Db, j: nat, successor: Option<nat>)
    requires Aligned(db) && j < |db.jobs|
    ensures WritesOne(db, Supersede(db, j, successor), j,
                      db.jobs[j].(state := Superseded, successor := successor, lease := None, worker := None), EvBatched)
  {}

  // ----------------------------------------------------------------- arrival

  /** A message that was not known: one event, one job that is served no sooner than the debounce allows, one message
      in the timeline.  With a debounce the queued jobs of its key wait with it; no other job is touched. */
  ghost predicate AcceptOk(a: Db, b: Db, m: Inbound, e: nat, now: nat, debounce: nat) {
    && e == |a.events| == |a.jobs| && |b.jobs| == e + 1
    && b.jobs[e] == Job(e, m.key, now, Queued, 0, now + debounce, None, None, None)
    && (forall i :: 0 <= i < e ==>
          b.jobs[i] == if debounce > 0 && a.jobs[i].key == m.key && a.jobs[i].state.Queued?
                       then a.jobs[i].(availableAt := now + debounce) else a.jobs[i])
    && |b.events| == e + 1
    && var c := b.events[e].conv;
       && b == a.(events := a.events + [Event(m, c)], jobs := b.jobs, status := a.status + [EvQueued],
                  messages := a.messages + [Message(c, FromEvent(e), m.body)],
                  accounts := b.accounts, convs := b.convs, audit := a.audit + [EventEntry(e, true)])
       && RoutedOk(a.accounts, a.convs, b.accounts, b.convs, m, c)
  }

  ghost predicate Known(events: seq<Event>, m: Inbound, e: nat) {
    e < |events| && events[e].msg.channel == m.channel && events[e].msg.mid == m.mid
  }

  /** One insertion: a message whose id its channel has had already is only noted, and an unknown one accepted. */
  ghost predicate EnqueueOk(a: Db, b: Db, m: Inbound, now: nat, debounce: nat, e: nat, created: bool) {
    && (created <==> forall i: nat :: !Known(a.events, m, i))
    && if created then AcceptOk(a, b, m, e, now, debounce)
       else Known(a.events, m, e) && b == a.(audit := a.audit + [EventEntry(e, false)])
  }

  lemma Accepts(db: Db, m: Inbound, now: nat, debounce: nat)
    requires Aligned(db) && FindEvent(db.events, m.channel, m.mid).None? && Enqueue(db, m, now, debounce).Some?
    ensures var r := Enqueue(db, m, now, debounce).value;
      r.created && r.event == |db.events| && AcceptOk(db, r.db, m, r.event, now, debounce)
  {
    hide EnsureConversation, RoutedOk, FindEvent;
    RoutesMessage(db.accounts, db.convs, m);
  }

  lemma EnqueueMeans(db: Db, m: Inbound, now: nat, debounce: nat)
    requires Aligned(db)
    ensures var r := Enqueue(db, m, now, debounce);
      r.Some? ==> EnqueueOk(db, r.value.db, m, now, debounce, r.value.event, r.value.created)
  {
    hide EnsureConversation, AcceptOk;
    var known := FindEvent(db.events, m.channel, m.mid);
    if known.Some? {
      assert Known(db.events, m, known.value);
    } else if Enqueue(db, m, now, debounce).Some? {
      Accepts(db, m, now, debounce);
    }
  }

  lemma EnqueueFailsExactly(db: Db, m: Inbound, now: nat, debounce: nat)
    requires Indexed(db.accounts, db.convs)
    ensures Enqueue(db, m, now, debounce).None? <==>
      (forall i: nat :: !Known(db.events, m, i)) && RouteClashes(db.accounts, db.convs, m)
  {
    hide EnsureConversation, RouteClashes, Indexed;
    RouteFailsExactly(db.accounts, db.convs, m);
    var known := FindEvent(db.events, m.channel, m.mid);
    assert known.Some? ==> Known(db.events, m, known.value);
  }
}
