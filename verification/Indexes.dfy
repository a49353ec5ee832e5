/** The UNIQUE indexes on accounts and conversations, as what they guarantee in every state of every run. */
module Indexes {
  import opened Types
  import opened Text
  import opened WorkspaceModel
  import opened QueueModel
  import opened DeliveryModel
  import opened System
  import opened QueueInvariant
  import opened Safety
  import opened WorkspaceRules
  import opened Ingress

  /** No two conversations of a channel belong to the same account and customer. */
  ghost predicate CustomersDistinct(convs: seq<Conversation>) {
    forall c, d ::
      0 <= c < |convs| && 0 <= d < |convs| && convs[c].channel == convs[d].channel
      && convs[c].account == convs[d].account && convs[c].customer == convs[d].customer
      ==> c == d
  }

  ghost predicate IndexInv(accounts: seq<Account>, convs: seq<Conversation>) {
    Indexed(accounts, convs) && CustomersDistinct(convs)
  }

  lemma AccountsStay(a: seq<Account>, b: seq<Account>, m: Inbound, k: nat)
    requires AccountOk(a, b, m, k)
    requires forall i, j :: 0 <= i < j < |a| ==> !SameAccount(a[i], a[j].channel, a[j].external)
    ensures forall i, j :: 0 <= i < j < |b| ==> !SameAccount(b[i], b[j].channel, b[j].external)
    ensures |a| <= |b| && k < |b|
  {
    hide SameAccount;
  }

  lemma RoutedIndexes(accounts: seq<Account>, convs: seq<Conversation>, m: Inbound)
    requires IndexInv(accounts, convs) && EnsureConversation(accounts, convs, m).Some?
    ensures var r := EnsureConversation(accounts, convs, m).value; IndexInv(r.accounts, r.convs)
  {
    hide FindAccount, SameAccount, Fold, Strip, AccountOk;
    RoutesMessage(accounts, convs, m);
    var r := EnsureConversation(accounts, convs, m).value;
    AccountsStay(accounts, r.accounts, m, r.convs[r.conv].account);
    NoClash(accounts, convs, m);
  }

  lemma NoClash(accounts: seq<Account>, convs: seq<Conversation>, m: Inbound)
    requires EnsureConversation(accounts, convs, m).Some?
    ensures var r := EnsureConversation(accounts, convs, m).value;
      && r.conv < |r.convs|
      && forall i :: 0 <= i < |convs| && i != r.conv && convs[i].channel == m.channel && convs[i].customer == m.sender
           ==> convs[i].account != r.convs[r.conv].account
  {
    hide FindAccount, Fold, Strip;
  }

  lemma EnqueueIndexes(db: Db, m: Inbound, now: nat, debounce: nat)
    requires IndexInv(db.accounts, db.convs) && Enqueue(db, m, now, debounce).Some?
    ensures var b := Enqueue(db, m, now, debounce).value.db; IndexInv(b.accounts, b.convs)
  {
    hide IndexInv, EnsureConversation, Postpone;
    if FindEvent(db.events, m.channel, m.mid).None? { RoutedIndexes(db.accounts, db.convs, m); }
  }

  lemma {:induction false} EnqueueAllIndexes(db: Db, msgs: seq<Inbound>, now: nat, debounce: nat)
    requires IndexInv(db.accounts, db.convs) && EnqueueAll(db, msgs, now, debounce).Some?
    ensures var b := EnqueueAll(db, msgs, now, debounce).value.db; IndexInv(b.accounts, b.convs)
  {
    hide IndexInv, Enqueue;
    if msgs != [] {
      var n := |msgs| - 1;
      EnqueueAllIndexes(db, msgs[..n], now, debounce);
      EnqueueIndexes(EnqueueAll(db, msgs[..n], now, debounce).value.db, msgs[n], now, debounce);
    }
  }

  lemma SameIdentityIndexed(accounts: seq<Account>, a: seq<Conversation>, b: seq<Conversation>)
    requires IndexInv(accounts, a) && SameConvs(a, b)
    ensures IndexInv(accounts, b)
  {
    hide SameAccount;
  }

  lemma PostIndexes(db: Db, digest: string, msgs: seq<Inbound>, ignored: nat, now: nat, debounce: nat)
    requires IndexInv(db.accounts, db.convs)
    ensures var b := OrElse(Webhook(db, digest, msgs, ignored, now, debounce), db); IndexInv(b.accounts, b.convs)
  {
    hide IndexInv, EnqueueAll, HasReceipt;
    if EnqueueAll(db, msgs, now, debounce).Some? { EnqueueAllIndexes(db, msgs, now, debounce); }
  }

  lemma StepIndexes(s: Sys, step: Step)
    requires Inv(s) && Enabled(s, step) && IndexInv(s.db.accounts, s.db.convs)
    ensures IndexInv(Next(s, step).db.accounts, Next(s, step).db.convs)
  {
    hide IndexInv, Inv, Enqueue, Webhook, CanAct, Acted, Operated, RecoverStale, RecoverDeliveries, FromInstagram;
    match step
    case Ingest(m, now, debounce) =>
      if Enqueue(s.db, m, now, debounce).Some? { EnqueueIndexes(s.db, m, now, debounce); }
    case Post(digest, msgs, ignored, now, debounce) => PostIndexes(s.db, digest, msgs, ignored, now, debounce);
    case _ => OtherIndexes(s, step);
  }

  lemma OtherIndexes(s: Sys, step: Step)
    requires Inv(s) && Enabled(s, step) && IndexInv(s.db.accounts, s.db.convs) && !step.Ingest? && !step.Post?
    ensures IndexInv(Next(s, step).db.accounts, Next(s, step).db.convs)
  {
    hide IndexInv, Inv, Next, Enabled;
    HasConvs(s);
    SameConvsStep(s, step);
    SameIdentityIndexed(s.db.accounts, s.db.convs, Next(s, step).db.convs);
  }

  lemma HasConvs(s: Sys)
    requires Inv(s)
    ensures Convs(s.db)
  {}

  /** In every reachable state the account ids of a channel differ by more than case, and a conversation is the only one
      with its key and the only one with its account and customer. */
  lemma {:induction false} IndexesHold(ss: seq<Sys>, steps: seq<Step>, i: nat)
    requires IsRun(ss, steps) && i < |ss|
    ensures IndexInv(ss[i].db.accounts, ss[i].db.convs)
  {
    hide Inv, Next, Enabled, IndexInv;
    if i == 0 {
      assert IndexInv([], []) by { NoRows(); }
    } else {
      IndexesHold(ss, steps, i - 1);
      RunsAreSafe(ss, steps, i - 1);
      assert Enabled(ss[i - 1], steps[i - 1]) && ss[i - 1 + 1] == Next(ss[i - 1], steps[i - 1]);
      StepIndexes(ss[i - 1], steps[i - 1]);
    }
  }

  lemma NoRows()
    ensures IndexInv([], [])
  {}
}
