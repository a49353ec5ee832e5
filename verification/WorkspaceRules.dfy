/** What the transactions on conversations and reviews promise, said of the rows before and after them alone. */
module WorkspaceRules {
  import opened Types
  import opened Text
  import opened WorkspaceModel

  // ----------------------------------------------------------- conversations

  /** The row of this account, up to the case of ASCII letters. */
  ghost predicate SameAccount(row: Account, channel: Channel, external: string) {
    && row.channel == channel && |row.external| == |external|
    && forall k :: 0 <= k < |external| ==> SameLetter(row.external[k], external[k])
  }

  lemma SameAccountExactly(row: Account, channel: Channel, external: string)
    ensures SameAccount(row, channel, external) <==> row.channel == channel && Fold(row.external) == Fold(external)
  {
    FoldExactly(row.external, external);
  }

  /** The account rows hold one for this recipient at index `k`; a new row was added only for want of one. */
  ghost predicate AccountOk(a: seq<Account>, b: seq<Account>, m: Inbound, k: nat) {
    && k < |b| && SameAccount(b[k], m.channel, Strip(m.recipient))
    && (b == a
        || (b == a + [Account(m.channel, Strip(m.recipient))] && k == |a|
            && forall i :: 0 <= i < |a| ==> !SameAccount(a[i], m.channel, Strip(m.recipient))))
  }

  ghost predicate Names(row: Conversation, m: Inbound) {
    row.channel == m.channel && row.key == m.key
  }

  /** The conversation of a message: that of its key, if there is one, which now has the message's account and customer
      and is no longer closed; and a new open one otherwise.  No other conversation changes. */
  ghost predicate RoutedOk(accounts: seq<Account>, convs: seq<Conversation>, accounts': seq<Account>,
                           convs': seq<Conversation>, m: Inbound, c: nat) {
    && c < |convs'| && AccountOk(accounts, accounts', m, convs'[c].account)
    && if c < |convs| then
         var row := convs[c];
         && Names(row, m)
         && convs' == convs[c := row.(account := convs'[c].account, customer := m.sender,
                                      status := if !row.status.Closed? then row.status
                                                else if row.paused then PendingReview else Open)]
       else
         && (forall i :: 0 <= i < |convs| ==> !Names(convs[i], m))
         && convs' == convs + [Conversation(m.channel, m.key, Open, convs'[c].account, m.sender, false)]
  }

  /** What the UNIQUE indexes guarantee: no two account rows of a channel that are equal up to case, no two
      conversations of a channel with the same key, and every conversation has an account row. */
  ghost predicate Indexed(accounts: seq<Account>, convs: seq<Conversation>) {
    && (forall i, k :: 0 <= i < k < |accounts| ==> !SameAccount(accounts[i], accounts[k].channel, accounts[k].external))
    && (forall c, d ::
          0 <= c < |convs| && 0 <= d < |convs| && convs[c].channel == convs[d].channel && convs[c].key == convs[d].key
          ==> c == d)
    && (forall c :: 0 <= c < |convs| ==> convs[c].account < |accounts|)
  }

  /** A conversation of another key already has this message's account and customer. */
  ghost predicate RouteClashes(accounts: seq<Account>, convs: seq<Conversation>, m: Inbound) {
    exists i :: 0 <= i < |convs| && !Names(convs[i], m) && convs[i].channel == m.channel && convs[i].customer == m.sender
                && convs[i].account < |accounts|
                && SameAccount(accounts[convs[i].account], m.channel, Strip(m.recipient))
  }

  lemma AccountFound(accounts: seq<Account>, m: Inbound)
    ensures var known := FindAccount(accounts, m.channel, Strip(m.recipient));
      var account := if known.Some? then known.value else |accounts|;
      var after := if known.Some? then accounts else accounts + [Account(m.channel, Strip(m.recipient))];
      && AccountOk(accounts, after, m, account)
      && (known.None? ==> forall i :: 0 <= i < |accounts| ==> !SameAccount(accounts[i], m.channel, Strip(m.recipient)))
  {
    hide Strip, Fold, SameAccount, FindAccount;
    forall i | 0 <= i < |accounts|
      ensures SameAccount(accounts[i], m.channel, Strip(m.recipient)) <==>
        accounts[i].channel == m.channel && Fold(accounts[i].external) == Fold(Strip(m.recipient))
    {
      SameAccountExactly(accounts[i], m.channel, Strip(m.recipient));
    }
    SameAccountExactly(Account(m.channel, Strip(m.recipient)), m.channel, Strip(m.recipient));
  }

  /** Finding or making the conversation of a message. */
  lemma RoutesMessage(accounts: seq<Account>, convs: seq<Conversation>, m: Inbound)
    ensures var r := EnsureConversation(accounts, convs, m);
      r.Some? ==> RoutedOk(accounts, convs, r.value.accounts, r.value.convs, m, r.value.conv)
  {
    hide Strip, AccountOk, Clashes, FindAccount, FindConversation;
    AccountFound(accounts, m);
  }

  /** Only one row can be meant by an id. */
  lemma OneAccount(accounts: seq<Account>, i: nat, k: nat, channel: Channel, external: string)
    requires i < |accounts| && k < |accounts|
    requires forall x, y :: 0 <= x < y < |accounts| ==>
      !SameAccount(accounts[x], accounts[y].channel, accounts[y].external)
    requires SameAccount(accounts[i], channel, external) && SameAccount(accounts[k], channel, external)
    ensures i == k
  {
    hide SameAccount, Fold;
    SameAccountExactly(accounts[i], channel, external);
    SameAccountExactly(accounts[k], channel, external);
    SameAccountExactly(accounts[i], accounts[k].channel, accounts[k].external);
    SameAccountExactly(accounts[k], accounts[i].channel, accounts[i].external);
  }

  /** It fails exactly when another conversation stands in the way. */
  lemma RouteFailsExactly(accounts: seq<Account>, convs: seq<Conversation>, m: Inbound)
    requires Indexed(accounts, convs)
    ensures EnsureConversation(accounts, convs, m).None? <==> RouteClashes(accounts, convs, m)
  {
    hide Strip, SameAccount, FindAccount;
    AccountFound(accounts, m);
    var known := FindAccount(accounts, m.channel, Strip(m.recipient));
    var account := if known.Some? then known.value else |accounts|;
    var found := FindConversation(convs, m.channel, m.key);
    var c := if found.Some? then found.value else |convs|;
    if Clashes(convs, c, m.channel, account, m.sender) {
      var i :| 0 <= i < |convs| && i != c && convs[i].channel == m.channel && convs[i].account == account
               && convs[i].customer == m.sender;
      assert !Names(convs[i], m);
      assert RouteClashes(accounts, convs, m);
    }
    if RouteClashes(accounts, convs, m) {
      var i :| 0 <= i < |convs| && !Names(convs[i], m) && convs[i].channel == m.channel && convs[i].customer == m.sender
               && convs[i].account < |accounts|
               && SameAccount(accounts[convs[i].account], m.channel, Strip(m.recipient));
      OneAccount(accounts, convs[i].account, account, m.channel, Strip(m.recipient));
    }
  }

  // ----------------------------------------------------------------- reviews

  ghost predicate ReviewCreated(a: Db, b: Db, action: nat, kind: ReviewKind, text: string) {
    && action !in a.reviews
    && b == a.(reviews := a.reviews[action := Review(kind, Pending, text, 1)],
               revisions := if kind.Draft? then a.revisions[(action, 1) := text] else a.revisions,
               audit := a.audit + [ReviewEntry(action, Pending)])
  }

  lemma CreatesReview(db: Db, action: nat, kind: ReviewKind, text: string)
    ensures var r := CreateReview(db, action, kind, text);
      && (r.Some? <==> action !in db.reviews && !(kind.Draft? && (action, 1) in db.revisions))
      && (r.Some? ==> ReviewCreated(db, r.value, action, kind, text))
  {}

  predicate Editable(db: Db, r: nat) {
    r in db.reviews && db.reviews[r].kind.Draft? && db.reviews[r].status.Pending?
  }

  /** The draft has one more revision, this text. */
  ghost predicate DraftEdited(a: Db, b: Db, r: nat, text: string) {
    && r in a.reviews
    && var v := a.reviews[r].version + 1;
       b == a.(reviews := a.reviews[r := Review(a.reviews[r].kind, a.reviews[r].status, text, v)],
               revisions := a.revisions[(r, v) := text], audit := a.audit + [ReviewEntry(r, Pending)])
  }

  lemma EditsDraft(db: Db, r: nat, raw: string)
    ensures var e, usable := EditReview(db, r, raw), 1 <= |Strip(raw)| <= 20000;
      && (e.InvalidText? <==> !usable)
      && (e.NotEditable? <==> usable && !Editable(db, r))
      && (e.VersionTaken? <==> usable && Editable(db, r) && (r, db.reviews[r].version + 1) in db.revisions)
      && (e.Edited? ==> DraftEdited(db, e.db, r, Strip(raw)))
  {
    hide Strip;
  }

  /** What becomes of an action with its review. */
  predicate StateFollows(state: ActionState, target: ReviewStatus) {
    || (target.Prepared? && state.ActionPrepared?)
    || (target.Rejected? && state.ActionRejected?)
    || (target.Resolved? && state.ActionResolved?)
  }

  /** Review `x` concerns conversation `c`. */
  predicate Concerns(db: Db, x: nat, c: nat) {
    x < |db.actions| && db.actions[x].event < |db.events| && db.events[db.actions[x].event].conv == c
  }

  /** The review and its action have moved to the target, and its conversation is pending review exactly if another
      pending review concerns it, and open otherwise. */
  ghost predicate ReviewMoved(a: Db, b: Db, r: nat, target: ReviewStatus) {
    && r in a.reviews && r in b.actionStates && StateFollows(b.actionStates[r], target)
    && b == a.(reviews := a.reviews[r := a.reviews[r].(status := target)],
               actionStates := a.actionStates[r := b.actionStates[r]],
               convs := b.convs, audit := a.audit + [ReviewEntry(r, target)])
    && |b.convs| == |a.convs|
    && forall c :: 0 <= c < |a.convs| ==>
         if Concerns(a, r, c) then
           var pending := exists x :: x in a.reviews && x != r && a.reviews[x].status.Pending? && Concerns(a, x, c);
           b.convs[c] == a.convs[c].(status := if pending then PendingReview else Open)
         else b.convs[c] == a.convs[c]
  }

  lemma PendingElsewhere(a: Db, db1: Db, r: nat, target: ReviewStatus, c: nat)
    requires !target.Pending? && r in a.reviews && db1.reviews == a.reviews[r := a.reviews[r].(status := target)]
    requires db1.actions == a.actions && db1.events == a.events
    ensures HasPending(db1, c) <==>
      exists x :: x in a.reviews && x != r && a.reviews[x].status.Pending? && Concerns(a, x, c)
  {
    if HasPending(db1, c) {
      var x :| x in db1.reviews && db1.reviews[x].status.Pending? && x < |db1.actions|
               && db1.actions[x].event < |db1.events| && db1.events[db1.actions[x].event].conv == c;
      assert x != r && x in a.reviews && Concerns(a, x, c);
    }
    if x :| x in a.reviews && x != r && a.reviews[x].status.Pending? && Concerns(a, x, c) {
      assert x in db1.reviews && db1.reviews[x].status.Pending?;
    }
  }

  /** The conversations after a transition, and the rest. */
  lemma TransitionBranches(db: Db, r: nat, target: ReviewStatus)
    requires !target.Pending? && TransitionReview(db, r, target).Moved?
    ensures var b, state := TransitionReview(db, r, target).db, TargetState(target);
      var db1 := db.(reviews := db.reviews[r := db.reviews[r].(status := target)],
                     actionStates := db.actionStates[r := state]);
      && r in db.reviews && StateFollows(state, target)
      && b == db1.(convs := b.convs, audit := db.audit + [ReviewEntry(r, target)])
      && |b.convs| == |db.convs|
      && forall c :: 0 <= c < |db.convs| ==>
           b.convs[c] == if Concerns(db, r, c)
                         then db.convs[c].(status := if HasPending(db1, c) then PendingReview else Open) else db.convs[c]
  {
    hide HasPending;
  }

  lemma ReviewMoves(db: Db, r: nat, target: ReviewStatus)
    requires !target.Pending? && TransitionReview(db, r, target).Moved?
    ensures ReviewMoved(db, TransitionReview(db, r, target).db, r, target)
  {
    hide HasPending, TransitionReview, StateFollows, Concerns, TargetState;
    TransitionBranches(db, r, target);
    var db1 := db.(reviews := db.reviews[r := db.reviews[r].(status := target)],
                   actionStates := db.actionStates[r := TargetState(target)]);
    forall c | 0 <= c < |db.convs|
      ensures HasPending(db1, c) <==>
        exists x :: x in db.reviews && x != r && db.reviews[x].status.Pending? && Concerns(db, x, c)
    {
      PendingElsewhere(db, db1, r, target, c);
    }
  }

  lemma MovesReview(db: Db, r: nat, target: ReviewStatus)
    requires !target.Pending?
    ensures var t, open := TransitionReview(db, r, target), r in db.reviews && db.reviews[r].status.Pending?;
      && (t.NotPending? <==> !open)
      && (t.Refused? <==> open && (if db.reviews[r].kind.Draft? then target.Resolved? else !target.Resolved?))
      && (t.Moved? ==> ReviewMoved(db, t.db, r, target))
  {
    hide HasPending, ReviewMoved;
    if TransitionReview(db, r, target).Moved? { ReviewMoves(db, r, target); }
  }
}
