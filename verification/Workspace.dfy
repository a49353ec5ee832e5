/** `workspace.py`: the procedures on conversations and reviews, statement by statement. */
module Workspace {
  import opened Types
  import opened Text
  import opened Database
  import W = WorkspaceModel
  import R = WorkspaceRules

  /** `_receiver_account` */
  method ReceiverAccount(conn: Connection, channel: Channel, recipient: string) returns (account: nat)
    modifies conn
    ensures conn.db == old(conn.db).(accounts := conn.db.accounts)
    ensures var known := W.FindAccount(old(conn.db).accounts, channel, Strip(recipient));
      if known.Some? then account == known.value && conn.db == old(conn.db)
      else account == |old(conn.db).accounts|
           && conn.db.accounts == old(conn.db).accounts + [Account(channel, Strip(recipient))]
    ensures account < |conn.db.accounts| && conn.db.accounts[account].channel == channel
    ensures Fold(conn.db.accounts[account].external) == Fold(Strip(recipient))
  {
    var row := W.FindAccount(conn.db.accounts, channel, Strip(recipient));
    if row.Some? {
      return row.value;
    }
    account := |conn.db.accounts|;
    conn.db := conn.db.(accounts := conn.db.accounts + [Account(channel, Strip(recipient))]);
  }

  /** `ensure_conversation`; None when the index on account and customer rejects the row, which leaves the enclosing
      transaction to be rolled back. */
  method EnsureConversation(conn: Connection, m: Inbound) returns (r: Option<nat>)
    modifies conn
    ensures conn.db == old(conn.db).(accounts := conn.db.accounts, convs := conn.db.convs)
    ensures var routed := W.EnsureConversation(old(conn.db).accounts, old(conn.db).convs, m);
      && (r.Some? <==> routed.Some?)
      && (r.Some? ==> routed.value == W.Routed(conn.db.accounts, conn.db.convs, r.value))
    ensures r.Some? ==>
      R.RoutedOk(old(conn.db).accounts, old(conn.db).convs, conn.db.accounts, conn.db.convs, m, r.value)
    ensures R.Indexed(old(conn.db).accounts, old(conn.db).convs) ==>
      (r.None? <==> R.RouteClashes(old(conn.db).accounts, old(conn.db).convs, m))
  {
    hide R.RoutedOk, R.Indexed, R.RouteClashes;
    R.RoutesMessage(conn.db.accounts, conn.db.convs, m);
    if R.Indexed(conn.db.accounts, conn.db.convs) { R.RouteFailsExactly(conn.db.accounts, conn.db.convs, m); }
    var row := W.FindConversation(conn.db.convs, m.channel, m.key);
    var account := ReceiverAccount(conn, m.channel, m.recipient);
    var convs := conn.db.convs;
    if row.Some? {
      var c := row.value;
      var status := if convs[c].status.Closed? then (if convs[c].paused then PendingReview else Open)
                    else convs[c].status;
      if W.Clashes(convs, c, m.channel, account, m.sender) {
        return None;
      }
      conn.db := conn.db.(convs := convs[c := convs[c].(account := account, customer := m.sender, status := status)]);
      return Some(c);
    }
    if W.Clashes(convs, |convs|, m.channel, account, m.sender) {
      return None;
    }
    conn.db := conn.db.(convs := convs + [Conversation(m.channel, m.key, Open, account, m.sender, false)]);
    return Some(|convs|);
  }

  /** Writes the status of one conversation; an unknown id changes nothing. */
  method SetStatus(conn: Connection, c: nat, status: ConvStatus)
    modifies conn
    ensures conn.db == if c < |old(conn.db).convs| then W.SetStatus(old(conn.db), c, status) else old(conn.db)
    ensures c < |old(conn.db).convs| ==>
      conn.db == old(conn.db).(convs := old(conn.db).convs[c := old(conn.db).convs[c].(status := status)])
  {
    if c < |conn.db.convs| {
      conn.db := conn.db.(convs := conn.db.convs[c := conn.db.convs[c].(status := status)]);
    }
  }

  /** `set_conversation_status`; None when it raises ValueError. */
  method SetConversationStatus(conn: Connection, c: nat, status: ConvStatus) returns (changed: Option<bool>)
    modifies conn
    ensures changed.None? <==> status.PendingReview?
    ensures changed.None? ==> conn.db == old(conn.db)
    ensures changed.Some? ==>
      changed.value == (c < |old(conn.db).convs|) && conn.db == W.SetConversationStatus(old(conn.db), c, status)
    ensures changed == Some(true) ==>
      conn.db == old(conn.db).(convs := old(conn.db).convs[c := old(conn.db).convs[c].(status := status)])
    ensures changed == Some(false) ==> conn.db == old(conn.db)
  {
    if status.PendingReview? {
      return None;
    }
    SetStatus(conn, c, status);
    return Some(c < |conn.db.convs|);
  }

  /** `set_bot_paused` */
  method SetBotPaused(conn: Connection, c: nat, paused: bool) returns (changed: bool)
    modifies conn
    ensures changed == (c < |old(conn.db).convs|)
    ensures conn.db == W.SetBotPaused(old(conn.db), c, paused)
    ensures changed ==>
      && conn.db.convs[c].paused == paused && (conn.db.convs[c].status.PendingReview? <==> paused)
      && (!paused ==> conn.db.convs[c].status.Open?)
      && conn.db.convs[c].customer == old(conn.db).convs[c].customer
    ensures |conn.db.convs| == |old(conn.db).convs|
    ensures forall k :: 0 <= k < |conn.db.convs| && k != c ==> conn.db.convs[k] == old(conn.db).convs[k]
  {
    changed := c < |conn.db.convs|;
    if changed {
      var row := conn.db.convs[c].(paused := paused, status := if paused then PendingReview else Open);
      conn.db := conn.db.(convs := conn.db.convs[c := row]);
    }
  }

  /** `create_review`; false when one of its insertions meets a UNIQUE constraint. */
  method CreateReview(conn: Connection, action: nat, kind: ReviewKind, text: string) returns (ok: bool)
    modifies conn
    ensures conn.db == old(conn.db).(reviews := conn.db.reviews, revisions := conn.db.revisions,
                                     audit := conn.db.audit)
    ensures var r := W.CreateReview(old(conn.db), action, kind, text);
      ok == r.Some? && (ok ==> conn.db == r.value)
    ensures ok <==> action !in old(conn.db).reviews && !(kind.Draft? && (action, 1) in old(conn.db).revisions)
    ensures ok ==> R.ReviewCreated(old(conn.db), conn.db, action, kind, text)
  {
    R.CreatesReview(conn.db, action, kind, text);
    if action in conn.db.reviews {
      return false;
    }
    conn.db := conn.db.(reviews := conn.db.reviews[action := Review(kind, Pending, text, 1)]);
    if kind.Draft? {
      if (action, 1) in conn.db.revisions {
        return false;
      }
      conn.db := conn.db.(revisions := conn.db.revisions[(action, 1) := text]);
    }
    conn.Record(ReviewEntry(action, Pending));
    return true;
  }

  datatype EditResult = Raised | Returned(edited: bool)

  /** `edit_review`; it raises on an unusable text and, rolled back, on a version that is already taken. */
  method EditReview(conn: Connection, r: nat, raw: string) returns (result: EditResult)
    modifies conn
    ensures var e := W.EditReview(old(conn.db), r, raw);
      && (result.Raised? <==> e.InvalidText? || e.VersionTaken?)
      && (result == Returned(true) <==> e.Edited?)
      && conn.db == (if e.Edited? then e.db else old(conn.db))
    ensures var usable := 1 <= |Strip(raw)| <= 20000;
      && (result == Returned(false) <==> usable && !R.Editable(old(conn.db), r))
      && (result == Returned(true) ==>
            R.Editable(old(conn.db), r) && R.DraftEdited(old(conn.db), conn.db, r, Strip(raw)))
      && (result.Raised? ==> conn.db == old(conn.db))
      && (result.Raised? && usable ==>
            R.Editable(old(conn.db), r) && (r, old(conn.db).reviews[r].version + 1) in old(conn.db).revisions)
  {
    R.EditsDraft(conn.db, r, raw);
    var text := Strip(raw);
    if text == "" || |text| > 20000 {
      return Raised;
    }
    if r !in conn.db.reviews || !conn.db.reviews[r].kind.Draft? || !conn.db.reviews[r].status.Pending? {
      return Returned(false);
    }
    var before := conn.db;
    var version := conn.db.reviews[r].version + 1;
    conn.db := conn.db.(reviews := conn.db.reviews[r := conn.db.reviews[r].(text := text, version := version)]);
    if (r, version) in conn.db.revisions {
      conn.Rollback(before);
      return Raised;
    }
    conn.db := conn.db.(revisions := conn.db.revisions[(r, version) := text]);
    conn.Record(ReviewEntry(r, Pending));
    return Returned(true);
  }

  datatype TransitionResult = Invalid | Answered(moved: bool)

  /** `transition_review`; it raises on a target that does not go with the review's kind. */
  method TransitionReview(conn: Connection, r: nat, target: ReviewStatus) returns (result: TransitionResult)
    modifies conn
    ensures target.Pending? ==> result.Invalid? && conn.db == old(conn.db)
    ensures !target.Pending? ==>
      var t := W.TransitionReview(old(conn.db), r, target);
      && (result.Invalid? <==> t.Refused?)
      && (result == Answered(true) <==> t.Moved?)
      && conn.db == (if t.Moved? then t.db else old(conn.db))
    ensures var open := r in old(conn.db).reviews && old(conn.db).reviews[r].status.Pending?;
      && (result == Answered(false) <==> !target.Pending? && !open)
      && (result == Answered(true) ==>
            && open && (old(conn.db).reviews[r].kind.Draft? <==> !target.Resolved?)
            && R.ReviewMoved(old(conn.db), conn.db, r, target))
  {
    hide R.ReviewMoved;
    if !target.Pending? { R.MovesReview(conn.db, r, target); }
    if target.Pending? {
      return TransitionResult.Invalid;
    }
    if r !in conn.db.reviews || !conn.db.reviews[r].status.Pending? {
      return Answered(false);
    }
    var review := conn.db.reviews[r];
    if review.kind.Draft? && target.Resolved? {
      return TransitionResult.Invalid;
    }
    if review.kind.Escalation? && !target.Resolved? {
      return TransitionResult.Invalid;
    }
    conn.db := conn.db.(reviews := conn.db.reviews[r := review.(status := target)]);
    conn.db := conn.db.(actionStates := conn.db.actionStates[r := W.TargetState(target)]);
    if r < |conn.db.actions| && conn.db.actions[r].event < |conn.db.events| {
      var c := conn.db.events[conn.db.actions[r].event].conv;
      var pending := W.HasPending(conn.db, c);
      SetStatus(conn, c, if pending then PendingReview else Open);
    }
    conn.Record(ReviewEntry(r, target));
    return Answered(true);
  }
}
