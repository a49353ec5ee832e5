/** What holds on every run of a single worker, whatever crashes, whatever is retried and whoever recovers its lease. */
module Solo {
  import opened Types
  import opened WorkspaceModel
  import opened QueueModel
  import opened DeliveryModel
  import opened WorkerModel
  import opened System
  import opened QueueInvariant
  import opened LinkInvariant
  import opened AnswerInvariant
  import opened AuditInvariant
  import opened Safety
  import opened Trace
  import opened Lease

  /** There is one worker at most; each job has one agent action at most, and none while the worker is deciding. */
  ghost predicate SoloInv(s: Sys) {
    |s.workers| <= 1 && OneAnswer(s.db.actions) && Undecided(s.db.actions, s.workers)
  }

  lemma DecideKeepsSolo(s: Sys, w: nat, a: Act)
    requires SoloInv(s) && Aligned(s.db) && CanAct(s, w, a) && a.CommitAnswer?
    ensures SoloInv(Acted(s, w, a))
  {
    hide CanAct, DbAfter, PcAfter;
    DecidedAction(s, w, a);
    assert NoAgentAction(s.db.actions, s.workers[w].job);
  }

  lemma ActKeepsSolo(s: Sys, w: nat, a: Act)
    requires SoloInv(s) && Aligned(s.db) && CanAct(s, w, a)
    ensures SoloInv(Acted(s, w, a))
  {
    hide CanAct, DbAfter, PcAfter, HasAction;
    InRange(s, w, a);
    if a.CommitAnswer? {
      DecideKeepsSolo(s, w, a);
    } else {
      OtherActions(s, w, a);
      NoneIsNoAgent(s.db.actions);
    }
  }

  lemma NoneIsNoAgent(actions: seq<Action>)
    ensures forall j: nat :: !HasAction(actions, j) ==> NoAgentAction(actions, j)
  {}

  /** A human action counts for nothing here. */
  lemma HumanActions(s: Sys, db: Db)
    requires SoloInv(s)
    requires db.actions == s.db.actions
             || exists a: Action :: a.author.Human? && db.actions == s.db.actions + [a]
    ensures SoloInv(s.(db := db))
  {}

  lemma StepKeepsSolo(s: Sys, step: Step)
    requires SoloInv(s) && Enabled(s, step)
    ensures SoloInv(Next(s, step))
  {
    hide SoloInv, CanAct, Acted, Operated, Enqueue, Webhook, RecoverStale, RecoverDeliveries, FromInstagram;
    match step
    case Work(w, a) => ActKeepsSolo(s, w, a);
    case Operate(op) =>
      OperationActions(s.db, op);
      HumanActions(s, Operated(s.db, op));
    case _ => HumanActions(s, Next(s, step).db);
  }

  /** Exactly-once generation for one worker: no run gives a job two agent actions. */
  lemma {:induction false} AloneAnswersOnce(s0: Sys, steps: seq<Step>)
    requires Initial(s0) && |s0.workers| <= 1 && After(s0, steps).Some?
    ensures SoloInv(After(s0, steps).value) && OneAnswer(After(s0, steps).value.db.actions)
  {
    hide Next, Enabled;
    if steps != [] {
      var n := |steps| - 1;
      AloneAnswersOnce(s0, steps[..n]);
      StepKeepsSolo(After(s0, steps[..n]).value, steps[n]);
    }
  }
}
