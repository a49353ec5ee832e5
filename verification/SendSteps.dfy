/** The steps of a worker that handles one delivery, each with the state it leads to. */
module SendSteps {
  import opened Types
  import opened DeliveryModel
  import opened QueueModel
  import opened WorkspaceModel
  import opened System
  import opened LinkInvariant
  import opened QueueInvariant
  import opened AnswerInvariant
  import opened AuditInvariant
  import opened Safety
  import opened Gates
  import P = ProtocolInvariant

  /** The state after worker `w` has taken its step. */
  ghost predicate Leads(s: Sys, w: nat, a: Act, t: Sys) {
    Enabled(s, Work(w, a)) && Next(s, Work(w, a)) == t
  }

  /** Worker `w` is at this leg of delivery `d`, whose row is in flight. */
  ghost predicate HasLeg(s: Sys, w: nat, d: nat, leg: Leg) {
    && w < |s.workers| && d < |s.db.deliveries|
    && s.workers[w] == OnDelivery(d, 1, leg) && s.db.deliveries[d].status.Sending? && s.db.deliveries[d].attempts == 1
  }

  ghost function Moved(s: Sys, w: nat, d: nat, leg: Leg): Sys
    requires w < |s.workers|
  {
    s.(workers := s.workers[w := OnDelivery(d, 1, leg)])
  }

  ghost function Freed(s: Sys, w: nat, db: Db): Sys
    requires w < |s.workers|
  {
    s.(db := db, workers := s.workers[w := Idle])
  }

  lemma RecoverStep(s: Sys, now: nat)
    requires Inv(s)
    ensures Enabled(s, RecoverSends(now)) && Next(s, RecoverSends(now)) == s.(db := RecoverDeliveries(s.db, now))
  {
    hide ConvInv, LinkInv, DraftInv, AnswerInv, DoneInv, AuditInv, PcInv, CallsAsWritten, JobRows, Protocol,
      RecoverDeliveries;
    JobInvAligned(s.db);
  }

  lemma TakeStep(s: Sys, w: nat, d: nat, now: nat, until: nat)
    requires Inv(s) && w < |s.workers| && s.workers[w].Idle? && IsNext(s.db.deliveries, now, d)
    ensures var t := Moved(s.(db := ClaimDelivery(s.db, d, until, w)), w, d, Reloading);
      Leads(s, w, TakeDelivery(d, now, until), t) && HasLeg(t, w, d, Reloading)
  {
    hide ConvInv, LinkInv, DraftInv, AnswerInv, DoneInv, AuditInv, PcInv, CallsAsWritten, JobRows;
    JobInvAligned(s.db);
    var p := P.ProtocolOf(s);
    assert P.StatusTrue(p.rows[d], P.Recorded(p.attempts, d), P.Called(p.sends, d), d in p.accepted);
    assert CanAct(s, w, TakeDelivery(d, now, until));
  }

  lemma FetchStep(s: Sys, w: nat, d: nat)
    requires Inv(s) && HasLeg(s, w, d, Reloading)
    ensures Leads(s, w, FetchDelivery, Moved(s, w, d, Holding)) && HasLeg(Moved(s, w, d, Holding), w, d, Holding)
  {
    hide ConvInv, LinkInv, DraftInv, AnswerInv, DoneInv, AuditInv, PcInv, CallsAsWritten, JobRows, Protocol;
    JobInvAligned(s.db);
    assert CanAct(s, w, FetchDelivery);
  }

  lemma CheckStep(s: Sys, w: nat, d: nat)
    requires Inv(s) && HasLeg(s, w, d, Holding)
    ensures var reason := PermissionReason(s.db, s.cfg, d);
      var leg := if reason.Some? then Denied(reason.value) else Cleared;
      Leads(s, w, CheckPermission, Moved(s, w, d, leg)) && HasLeg(Moved(s, w, d, leg), w, d, leg)
  {
    hide ConvInv, LinkInv, DraftInv, AnswerInv, DoneInv, AuditInv, PcInv, CallsAsWritten, JobRows, Protocol,
      PermissionReason;
    JobInvAligned(s.db);
    assert CanAct(s, w, CheckPermission);
  }

  /** Nothing can stop a suppression: the invariant has its revision free whenever it needs a review. */
  lemma WithholdStep(s: Sys, w: nat, d: nat, refusal: Refusal)
    requires Inv(s) && HasLeg(s, w, d, Denied(refusal))
    ensures Suppress(s.db, d).Some? && Leads(s, w, Withhold, Freed(s, w, Suppress(s.db, d).value))
  {
    hide ConvInv, LinkInv, AnswerInv, DoneInv, AuditInv, PcInv, CallsAsWritten, JobRows, Protocol, Suppress;
    JobInvAligned(s.db);
    var a := s.db.deliveries[d].intent.action;
    assert (a, 1) in s.db.revisions ==> RevisionOk((a, 1), s.db.reviews);
    assert CanAct(s, w, Withhold);
  }

  ghost function Called(s: Sys, w: nat, d: nat, ending: Ending, leg: Leg): Sys
    requires w < |s.workers| && d < |s.db.deliveries|
  {
    Moved(s, w, d, leg).(sends := s.sends + [CallOf(s.db, d)],
                         accepted := if Taken(ending) then s.accepted + {d} else s.accepted)
  }

  function LegAfter(ending: Ending): Leg {
    if ending.MessageId? then Confirmed else Errored(ending.Ambiguity?)
  }

  lemma CallStep(s: Sys, w: nat, d: nat, ending: Ending)
    requires Inv(s) && HasLeg(s, w, d, Cleared) && !ending.Death?
    ensures var t := Called(s, w, d, ending, LegAfter(ending));
      Leads(s, w, Send(ending), t) && HasLeg(t, w, d, LegAfter(ending))
  {
    hide ConvInv, LinkInv, DraftInv, AnswerInv, DoneInv, AuditInv, PcInv, CallsAsWritten, JobRows, Protocol;
    JobInvAligned(s.db);
    assert CanAct(s, w, Send(ending));
  }

  /** A delivery in flight has neither an attempt row nor an outbound message, so recording cannot fail. */
  lemma RecordSentStep(s: Sys, w: nat, d: nat)
    requires Inv(s) && HasLeg(s, w, d, Confirmed)
    ensures FinishSent(s.db, d, 1).Some? && Leads(s, w, RecordSent, Freed(s, w, FinishSent(s.db, d, 1).value))
  {
    hide ConvInv, LinkInv, DraftInv, AnswerInv, DoneInv, AuditInv, PcInv, CallsAsWritten, JobRows;
    JobInvAligned(s.db);
    var p := P.ProtocolOf(s);
    assert P.StatusTrue(p.rows[d], P.Recorded(p.attempts, d), P.Called(p.sends, d), d in p.accepted);
    assert CanAct(s, w, RecordSent);
  }

  lemma RecordErrorStep(s: Sys, w: nat, d: nat, ambiguous: bool)
    requires Inv(s) && HasLeg(s, w, d, Errored(ambiguous))
    ensures FinishError(s.db, d, 1, ambiguous).Some?
    ensures Leads(s, w, RecordError, Freed(s, w, FinishError(s.db, d, 1, ambiguous).value))
  {
    hide ConvInv, LinkInv, DraftInv, AnswerInv, DoneInv, AuditInv, PcInv, CallsAsWritten, JobRows, FinishError;
    JobInvAligned(s.db);
    var p := P.ProtocolOf(s);
    assert P.StatusTrue(p.rows[d], P.Recorded(p.attempts, d), P.Called(p.sends, d), d in p.accepted);
    assert CanAct(s, w, RecordError);
  }
}
