/** Conversations and human reviews: what each transaction of `workspace.py` does to the tables. */
module WorkspaceModel {
  import opened Types
  import opened Text

  /** The account of a channel with this external id, up to the case of ASCII letters. */
  function FindAccount(accounts: seq<Account>, channel: Channel, external: string): (r: Option<nat>)
    ensures r.Some? ==> r.value < |accounts| && accounts[r.value].channel == channel
                        && Fold(accounts[r.value].external) == Fold(external)
    ensures r.None? ==> forall i :: 0 <= i < |accounts| && accounts[i].channel == channel
                                    ==> Fold(accounts[i].external) != Fold(external)
  {
    if accounts == [] then None
    else
      var n := |accounts| - 1;
      if accounts[n].channel == channel && Fold(accounts[n].external) == Fold(external) then Some(n)
      else FindAccount(accounts[..n], channel, external)
  }

  /** The conversation of a channel with this external key. */
  function FindConversation(convs: seq<Conversation>, channel: Channel, key: string): (r: Option<nat>)
    ensures r.Some? ==> r.value < |convs| && convs[r.value].channel == channel && convs[r.value].key == key
    ensures r.None? ==> forall i :: 0 <= i < |convs| ==> convs[i].channel != channel || convs[i].key != key
  {
    if convs == [] then None
    else
      var n := |convs| - 1;
      if convs[n].channel == channel && convs[n].key == key then Some(n)
      else FindConversation(convs[..n], channel, key)
  }

  /** idx_conversations_account_customer: another conversation already has this account and customer. */
  predicate Clashes(convs: seq<Conversation>, self: nat, channel: Channel, account: nat, customer: string) {
    exists i :: 0 <= i < |convs| && i != self && convs[i].channel == channel && convs[i].account == account
                && convs[i].customer == customer
  }

  function Reopened(c: Conversation): ConvStatus {
    if c.status.Closed? then (if c.paused then PendingReview else Open) else c.status
  }

  datatype Routed = Routed(accounts: seq<Account>, convs: seq<Conversation>, conv: nat)

  /** `ensure_conversation`; None when the unique index on account and customer is violated. */
  function EnsureConversation(accounts: seq<Account>, convs: seq<Conversation>, m: Inbound): (r: Option<Routed>)
  {
    var known := FindAccount(accounts, m.channel, Strip(m.recipient));
    var account := if known.Some? then known.value else |accounts|;
    var accounts' := if known.Some? then accounts else accounts + [Account(m.channel, Strip(m.recipient))];
    var found := FindConversation(convs, m.channel, m.key);
    var c := if found.Some? then found.value else |convs|;
    if Clashes(convs, c, m.channel, account, m.sender) then None
    else if found.Some? then
      var row := convs[c].(account := account, customer := m.sender, status := Reopened(convs[c]));
      Some(Routed(accounts', convs[c := row], c))
    else
      Some(Routed(accounts', convs + [Conversation(m.channel, m.key, Open, account, m.sender, false)], c))
  }

  function SetStatus(db: Db, c: nat, status: ConvStatus): (r: Db)
    requires c < |db.convs|
    ensures r == db.(convs := r.convs) && |r.convs| == |db.convs|
  {
    db.(convs := db.convs[c := db.convs[c].(status := status)])
  }

  /** `set_conversation_status`: only the operator's two targets, only an existing conversation. */
  function SetConversationStatus(db: Db, c: nat, status: ConvStatus): (r: Db)
    requires !status.PendingReview?
    ensures r == db.(convs := r.convs) && |r.convs| == |db.convs|
  {
    if c < |db.convs| then SetStatus(db, c, status) else db
  }

  /** `set_bot_paused` */
  function SetBotPaused(db: Db, c: nat, paused: bool): (r: Db)
    ensures r == db.(convs := r.convs) && |r.convs| == |db.convs|
  {
    if c < |db.convs| then
      db.(convs := db.convs[c := db.convs[c].(paused := paused, status := if paused then PendingReview else Open)])
    else db
  }

  /** `create_review`; None when the action already has one (UNIQUE(action_id)). */
  function CreateReview(db: Db, action: nat, kind: ReviewKind, text: string): (r: Option<Db>)
    ensures r.Some? ==> r.value == db.(reviews := r.value.reviews, revisions := r.value.revisions,
                                       audit := r.value.audit)
  {
    if action in db.reviews || (kind.Draft? && (action, 1) in db.revisions) then None
    else
      Some(db.(reviews := db.reviews[action := Review(kind, Pending, text, 1)],
               revisions := if kind.Draft? then db.revisions[(action, 1) := text] else db.revisions,
               audit := db.audit + [ReviewEntry(action, Pending)]))
  }

  datatype Edit = InvalidText | NotEditable | VersionTaken | Edited(db: Db)

  /** `edit_review`, a review being identified by its action. */
  function EditReview(db: Db, r: nat, raw: string): (e: Edit)
    ensures e.Edited? ==> e.db == db.(reviews := e.db.reviews, revisions := e.db.revisions, audit := e.db.audit)
  {
    var text := Strip(raw);
    if text == "" || |text| > 20000 then InvalidText
    else if r !in db.reviews || !db.reviews[r].kind.Draft? || !db.reviews[r].status.Pending? then NotEditable
    else
      var v := db.reviews[r].version + 1;
      if (r, v) in db.revisions then VersionTaken
      else Edited(db.(reviews := db.reviews[r := db.reviews[r].(text := text, version := v)],
                      revisions := db.revisions[(r, v) := text],
                      audit := db.audit + [ReviewEntry(r, Pending)]))
  }

  datatype Transition = NotPending | Refused | Moved(db: Db)

  /** Whether any review of the conversation is still pending. */
  predicate HasPending(db: Db, c: nat) {
    exists r :: r in db.reviews && db.reviews[r].status.Pending? && r < |db.actions|
                && db.actions[r].event < |db.events| && db.events[db.actions[r].event].conv == c
  }

  function TargetState(target: ReviewStatus): ActionState
    requires !target.Pending?
  {
    match target
    case Prepared => ActionPrepared
    case Rejected => ActionRejected
    case Resolved => ActionResolved
  }

  /** `transition_review` */
  function TransitionReview(db: Db, r: nat, target: ReviewStatus): (t: Transition)
    requires !target.Pending?
    ensures t.Moved? ==> t.db == db.(reviews := t.db.reviews, actionStates := t.db.actionStates, convs := t.db.convs,
                                     audit := t.db.audit)
  {
    if r !in db.reviews || !db.reviews[r].status.Pending? then NotPending
    else if db.reviews[r].kind.Draft? <==> target.Resolved? then Refused
    else
      var db1 := db.(reviews := db.reviews[r := db.reviews[r].(status := target)],
                     actionStates := db.actionStates[r := TargetState(target)]);
      var db2 :=
        if r < |db.actions| && db.actions[r].event < |db.events| then
          var c := db.events[db.actions[r].event].conv;
          if c < |db.convs| then SetStatus(db1, c, if HasPending(db1, c) then PendingReview else Open) else db1
        else db1;
      Moved(db2.(audit := db.audit + [ReviewEntry(r, target)]))
  }
}
