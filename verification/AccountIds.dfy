/** What the bridge needs of the configured account ids, and no more: each condition is met exactly when every run is
    as it should be, the runs that go wrong being two posts long. */
module AccountIds {
  import opened Types
  import opened Text
  import opened WorkspaceModel
  import opened QueueModel
  import opened System
  import opened Safety
  import opened Routing
  import opened Ingress
  import opened LateSend
  import opened Trace

  /** The configuration strips every id that it reads. */
  ghost predicate AllTrimmed(accounts: set<string>) {
    forall a :: a in accounts ==> Strip(a) == a
  }

  function Direct(account: string, customer: string, mid: string): Inbound {
    Inbound(Channel.Instagram, mid, customer, account, "hello", KeyOf(account, customer))
  }

  // ---------------------------------------------------------- fresh customers

  function Repeated(n: nat): string {
    seq(n, _ => 'c')
  }

  /** Some length is beyond every id of a set. */
  lemma {:induction false} Bound(ids: set<string>) returns (n: nat)
    ensures n > 0 && forall a :: a in ids ==> |a| < n
    decreases |ids|
  {
    if ids == {} {
      n := 1;
    } else {
      var a :| a in ids;
      var k := Bound(ids - {a});
      n := if |a| < k then k else |a| + 1;
      assert forall b :: b in ids ==> b == a || b in ids - {a};
    }
  }

  /** A customer whose id, and every longer one, is no account's. */
  lemma Fresh(ids: set<string>) returns (y: string)
    ensures IsCustomer(y) && forall x: string :: |x| >= |y| ==> x !in ids
  {
    var n := Bound(ids);
    y := Repeated(n);
    assert y[0] == 'c' && y[n - 1] == 'c';
  }

  // ----------------------------------------------------------------- two posts

  /** The tables after the first message, that of `m`. */
  ghost predicate JustReceived(db: Db, m: Inbound) {
    && db.accounts == [Account(m.channel, m.recipient)]
    && db.convs == [Conversation(m.channel, m.key, Open, 0, m.sender, false)]
    && db.events == [Event(m, 0)] && db.receipts == [Receipt("first", 1, 0, 0)]
  }

  lemma FirstMessage(db: Db, m: Inbound)
    requires db == EMPTY.(mode := db.mode) && Strip(m.recipient) == m.recipient
    ensures var r := Webhook(db, "first", [m], 0, 0, 0); r.Some? && JustReceived(r.value, m)
  {
    hide Webhook, Strip;
    OnePost(db, "first", m);
  }

  lemma FirstReceived(s0: Sys, m: Inbound) returns (t: Sys)
    requires Initial(s0) && FromInstagram(m, s0.cfg.accounts)
    ensures After(s0, [Post("first", [m], 0, 0, 0)]) == Some(t) && Inv(t) && Aligned(t.db) && t.cfg == s0.cfg
    ensures JustReceived(t.db, m)
  {
    hide Inv, Next, Enabled, After, Webhook, JustReceived;
    InitialInv(s0);
    Begin(s0);
    FirstMessage(s0.db, m);
    PostStep(s0, "first", m);
    var steps;
    steps, t := Take(s0, [], s0, Post("first", [m], 0, 0, 0));
    assert steps == [Post("first", [m], 0, 0, 0)];
  }

  /** A second message that insertion lets in is one more event, of the conversation it was put in. */
  lemma SecondMessage(db: Db, m1: Inbound, m2: Inbound)
    requires JustReceived(db, m1) && m1.mid != m2.mid && m1.channel == m2.channel
    ensures var e, r := EnsureConversation(db.accounts, db.convs, m2), Webhook(db, "second", [m2], 0, 0, 0);
      && (r.Some? <==> e.Some?)
      && (r.Some? ==> r.value.accounts == e.value.accounts && r.value.convs == e.value.convs
                      && r.value.events == [Event(m1, 0), Event(m2, e.value.conv)])
  {
    hide EnsureConversation;
    assert FindEvent(db.events, m2.channel, m2.mid).None?;
    assert [m2][..|[m2]| - 1] == [] && EnqueueAll(db, [], 0, 0) == Some(Counted(db, 0, 0));
    assert !HasReceipt(db.receipts, "second");
    if Enqueue(db, m2, 0, 0).Some? {
      hide Webhook;
      OnePost(db, "second", m2);
    }
  }

  /** Two posts, the second of which commits. */
  lemma BothReceived(s0: Sys, m1: Inbound, m2: Inbound) returns (steps: seq<Step>)
    requires Initial(s0) && FromInstagram(m1, s0.cfg.accounts) && FromInstagram(m2, s0.cfg.accounts)
    requires m1.mid != m2.mid
    requires EnsureConversation([Account(m1.channel, m1.recipient)],
                                [Conversation(m1.channel, m1.key, Open, 0, m1.sender, false)], m2).Some?
    ensures After(s0, steps).Some?
    ensures var db := After(s0, steps).value.db;
      var e := EnsureConversation([Account(m1.channel, m1.recipient)],
                                  [Conversation(m1.channel, m1.key, Open, 0, m1.sender, false)], m2).value;
      db.accounts == e.accounts && db.convs == e.convs && db.events == [Event(m1, 0), Event(m2, e.conv)]
  {
    hide Inv, Next, Enabled, After, Webhook, EnsureConversation, Strip;
    var t := FirstReceived(s0, m1);
    SecondMessage(t.db, m1, m2);
    PostStep(t, "second", m2);
    steps, t := Take(s0, [Post("first", [m1], 0, 0, 0)], t, Post("second", [m2], 0, 0, 0));
  }

  // ------------------------------------------------------------------- routing

  /** Ids equal up to case share an account row, so the second one's customers are shown under the first one. */
  lemma CaseMisroutes(s0: Sys, a: string, b: string, x: string, y: string) returns (steps: seq<Step>)
    requires Initial(s0) && a in s0.cfg.accounts && b in s0.cfg.accounts && a != b && Fold(a) == Fold(b)
    requires Strip(a) == a && Strip(b) == b
    requires IsCustomer(x) && IsCustomer(y) && x != y && x !in s0.cfg.accounts && y !in s0.cfg.accounts
    ensures After(s0, steps).Some?
    ensures var db := After(s0, steps).value.db; !ConvsRouted(db.events, db.convs, db.accounts)
  {
    hide Inv, After, Strip, Fold;
    var m1, m2 := Direct(a, x, "m1"), Direct(b, y, "m2");
    assert m1.key != m2.key by { SameLengthKeys(a, b, x, y); }
    steps := BothReceived(s0, m1, m2);
    var db := After(s0, steps).value.db;
    assert db.events[1].msg.recipient == b && db.accounts[db.convs[1].account].external == a;
  }

  lemma SameLengthKeys(a: string, b: string, x: string, y: string)
    requires Fold(a) == Fold(b) && a != b && IsCustomer(x)
    ensures KeyOf(a, x) != KeyOf(b, y)
  {
    if KeyOf(a, x) == KeyOf(b, y) {
      KeyEnds(a, b, x, y);
      SameStart(a, b, x, y);
    }
  }

  /** When one id extends another, a customer of each share a conversation, which follows whoever wrote last. */
  lemma ExtensionMisroutes(s0: Sys, a: string, b: string, y: string) returns (steps: seq<Step>)
    requires Initial(s0) && a in s0.cfg.accounts && b in s0.cfg.accounts && Extends(a, b)
    requires Strip(a) == a && Strip(b) == b
    requires IsCustomer(y) && y !in s0.cfg.accounts && Rest(a, b) + ":" + y !in s0.cfg.accounts
    ensures After(s0, steps).Some?
    ensures var db := After(s0, steps).value.db; !ConvsRouted(db.events, db.convs, db.accounts)
  {
    hide Inv, After, Strip, Fold;
    Meet(a, b, y);
    var m1, m2 := Direct(a, Rest(a, b) + ":" + y, "m1"), Direct(b, y, "m2");
    steps := BothReceived(s0, m1, m2);
    var db := After(s0, steps).value.db;
    assert db.events[0].msg.recipient == a && db.accounts[db.convs[0].account].external == b;
  }

  /** Every run keeps conversations with the account and the customer of their messages precisely when the account ids
      are distinguishable. */
  lemma RoutedExactly(s0: Sys)
    requires Initial(s0) && AllTrimmed(s0.cfg.accounts)
    ensures (forall steps :: After(s0, steps).Some? ==>
               var db := After(s0, steps).value.db; ConvsRouted(db.events, db.convs, db.accounts))
       <==> Distinguishable(s0.cfg.accounts)
  {
    hide Initial, After, ConvsRouted, Extends, IsCustomer, Fold, Strip;
    var accounts := s0.cfg.accounts;
    if Distinguishable(accounts) {
      forall steps | After(s0, steps).Some?
        ensures var db := After(s0, steps).value.db; ConvsRouted(db.events, db.convs, db.accounts)
      {
        StretchIsRouted(s0, steps);
      }
    } else {
      var y := Fresh(accounts);
      if !UniqueIds(accounts) {
        var a, b :| a in accounts && b in accounts && Fold(a) == Fold(b) && a != b;
        var yy := y + y;
        assert IsCustomer(yy) by { Doubled(y); }
        var steps := CaseMisroutes(s0, a, b, yy, y);
      } else {
        var a, b :| a in accounts && b in accounts && Extends(a, b);
        var steps := ExtensionMisroutes(s0, a, b, y);
      }
    }
  }

  lemma Doubled(y: string)
    requires IsCustomer(y)
    ensures IsCustomer(y + y) && y + y != y
  {
    assert |y + y| != |y|;
  }

  lemma StretchIsRouted(s0: Sys, steps: seq<Step>)
    requires Initial(s0) && Distinguishable(s0.cfg.accounts) && After(s0, steps).Some?
    ensures var db := After(s0, steps).value.db; ConvsRouted(db.events, db.convs, db.accounts)
  {
    hide Initial, After, Distinguishable, ConvsRouted, EventsRouted, AccountsKnown, DeliveriesRouted;
    var ss := StretchIsRun(s0, steps);
    RunsAreRouted(ss, steps, |steps|);
  }

  // ---------------------------------------------------------------- committing

  /** This post, coming now, is not rolled back. */
  ghost predicate Commits(s: Sys, p: Step)
    requires p.Post?
  {
    Webhook(s.db, p.digest, p.msgs, p.ignored, p.now, p.debounce).Some?
  }

  ghost predicate PostsCommitHere(s: Sys) {
    forall p: Step :: p.Post? && Enabled(s, p) ==> Commits(s, p)
  }

  /** Ids equal up to case share an account row, so a customer of both cannot write to the second one. */
  lemma CaseClashes(s0: Sys, a: string, b: string, y: string) returns (t: Sys, p: Step)
    requires Initial(s0) && a in s0.cfg.accounts && b in s0.cfg.accounts && a != b && Fold(a) == Fold(b)
    requires Strip(a) == a && Strip(b) == b && IsCustomer(y) && y !in s0.cfg.accounts
    ensures p.Post? && After(s0, [Post("first", [Direct(a, y, "m1")], 0, 0, 0)]) == Some(t)
    ensures Enabled(t, p) && !Commits(t, p)
  {
    hide Inv, After, Strip, Fold, Webhook;
    var m1, m2 := Direct(a, y, "m1"), Direct(b, y, "m2");
    assert m1.key != m2.key by { SameLengthKeys(a, b, y, y); }
    t := FirstReceived(s0, m1);
    SecondMessage(t.db, m1, m2);
    assert Clashes(t.db.convs, 1, m2.channel, 0, y);
    p := Post("second", [m2], 0, 0, 0);
  }

  lemma StretchCommits(s0: Sys, steps: seq<Step>, p: Step)
    requires Initial(s0) && UniqueIds(s0.cfg.accounts) && After(s0, steps).Some?
    requires p.Post? && Enabled(After(s0, steps).value, p)
    ensures Commits(After(s0, steps).value, p)
  {
    hide Initial, UniqueIds, Webhook, Enabled, Next, KeyInv;
    assert (steps + [p])[..|steps|] == steps;
    var ss := StretchIsRun(s0, steps + [p]);
    RunIsStretch(ss, steps + [p], |steps|);
    PostsCommit(ss, steps + [p], |steps|);
  }

  /** No post is ever rolled back, in any run, precisely when the account ids are unique up to case. */
  lemma CommitsExactly(s0: Sys)
    requires Initial(s0) && AllTrimmed(s0.cfg.accounts)
    ensures (forall steps :: After(s0, steps).Some? ==> PostsCommitHere(After(s0, steps).value))
       <==> UniqueIds(s0.cfg.accounts)
  {
    hide Initial, After, Commits, Enabled, Fold, Strip, IsCustomer;
    var accounts := s0.cfg.accounts;
    if UniqueIds(accounts) {
      forall steps | After(s0, steps).Some?
        ensures PostsCommitHere(After(s0, steps).value)
      {
        forall p: Step | p.Post? && Enabled(After(s0, steps).value, p)
          ensures Commits(After(s0, steps).value, p)
        {
          StretchCommits(s0, steps, p);
        }
      }
    } else {
      var a, b :| a in accounts && b in accounts && Fold(a) == Fold(b) && a != b;
      var y := Fresh(accounts);
      var t, p := CaseClashes(s0, a, b, y);
      assert !PostsCommitHere(t);
    }
  }
}
