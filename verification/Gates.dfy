/** The three places that decide, independently, whether the runtime mode lets an action out. */
module Gates {
  import opened Types

  /** Which customers' case-folded ids are on the canary list. */
  type Canary = set<string>

  /** The condition under which `_action_for_job` enqueues a delivery, as far as policy and mode go. */
  predicate EnqueueGate(mode: Mode, outcome: Outcome, customer: string, canary: Canary) {
    outcome.Allowed? && (mode.Live? || (mode.Canary? && customer in canary))
  }

  datatype Verdict =
    | PolicySuppressed(outcome: Outcome) | ModeShadow | ModeDryRun | CanaryNotAllowed | InvalidMode
    | SimulatedSink

  /** `decide_execution` */
  function DecideExecution(mode: Mode, outcome: Outcome, customer: string, canary: Canary): Verdict {
    if !outcome.Allowed? then PolicySuppressed(outcome)
    else if mode.Shadow? then ModeShadow
    else if mode.DryRun? then ModeDryRun
    else if mode.Canary? && customer !in canary then CanaryNotAllowed
    else if mode.Canary? || mode.Live? then SimulatedSink
    else InvalidMode
  }

  datatype Refusal =
    | PolicyBlock | ModeNotLive | CanaryRestriction | InvalidRecipient | SendDisabled | AccountNotConfigured
    | MissingAccessToken | IdempotencyGuard

  /** The policy and mode checks of `_permission_reason`, in its order. */
  function ModeRefusal(mode: Mode, customer: string, canary: Canary): Option<Refusal> {
    if mode.Shadow? || mode.DryRun? then Some(ModeNotLive)
    else if mode.Canary? && customer !in canary then Some(CanaryRestriction)
    else if !mode.Canary? && !mode.Live? then Some(ModeNotLive)
    else None
  }

  predicate PermissionGate(mode: Mode, outcome: Outcome, customer: string, canary: Canary) {
    outcome.Allowed? && ModeRefusal(mode, customer, canary).None?
  }

  /** The three gates accept the same tuples, whatever the canary list. */
  lemma GatesAgree(mode: Mode, outcome: Outcome, customer: string, canary: Canary)
    ensures EnqueueGate(mode, outcome, customer, canary)
       <==> DecideExecution(mode, outcome, customer, canary).SimulatedSink?
    ensures EnqueueGate(mode, outcome, customer, canary) <==> PermissionGate(mode, outcome, customer, canary)
  {}

  /** A mode can only restrict: nothing passes without the policy, shadow, dry-run and unknown modes pass nothing,
      and canary passes exactly the part of live that is on the list. */
  lemma ModesOnlyRestrict(outcome: Outcome, customer: string, canary: Canary)
    ensures !outcome.Allowed? ==> forall m: Mode :: !EnqueueGate(m, outcome, customer, canary)
    ensures forall m: Mode :: m in {Shadow, DryRun, Invalid} ==> !EnqueueGate(m, outcome, customer, canary)
    ensures EnqueueGate(Mode.Canary, outcome, customer, canary)
       <==> EnqueueGate(Live, outcome, customer, canary) && customer in canary
  {}
}
