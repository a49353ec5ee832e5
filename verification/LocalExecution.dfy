/** `action_executor.py`: the simulated sink, statement by statement. */
module LocalExecution {
  import opened Types
  import opened Database
  import opened Gates
  import WorkerModel
  import DecisionRules
  import D = DeliveryModel

  class LocalActionExecutor {
    const conn: Connection
    const cfg: D.Config

    constructor (conn: Connection, cfg: D.Config)
      ensures this.conn == conn && this.cfg == cfg
    {
      this.conn := conn;
      this.cfg := cfg;
    }

    /** `execute`: an action is executed at most once; a repeated call reports the first result and writes nothing. */
    method Execute(a: nat, outcome: Outcome, customer: string, mode: Mode) returns (executed: bool)
      modifies conn
      ensures a in old(conn.db).executions ==>
        conn.db == old(conn.db) && executed == old(conn.db).executions[a].executed
      ensures a !in old(conn.db).executions ==>
        && WorkerModel.RecordExecution(old(conn.db), a,
                                       WorkerModel.Find(old(conn.db), cfg, a, outcome, customer, mode)) == Some(conn.db)
        && executed == EnqueueGate(mode, outcome, customer, cfg.canary)
        && DecisionRules.ExecutionOk(old(conn.db), conn.db, a, cfg, outcome, customer, mode)
      ensures a in conn.db.executions && conn.db.executions[a].executed == executed
    {
      DecisionRules.Executes(conn.db, a, cfg, outcome, customer, mode);
      if a in conn.db.executions {
        return conn.db.executions[a].executed;
      }
      var result := DecideExecution(mode, outcome, customer, cfg.canary);
      executed := result.SimulatedSink?;
      var pendingReview := a in conn.db.reviews && conn.db.reviews[a].status.Pending?;
      var state;
      if outcome.PendingApproval? || outcome.Escalated? || pendingReview {
        state := AwaitingReview;
      } else {
        state := if executed then ExecutedSimulated else ActionSuppressed;
      }
      conn.db := conn.db.(executions := conn.db.executions[a := Execution(executed, mode)]);
      conn.db := conn.db.(actionStates := conn.db.actionStates[a := state]);
      GatesAgree(mode, outcome, customer, cfg.canary);
    }
  }
}
