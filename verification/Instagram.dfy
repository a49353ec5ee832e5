/** The Instagram adapter: how a webhook payload becomes events, and what happens to everything else in it. */
module Instagram {
  import opened Types
  import opened Text
  import opened System

  /** Ids are given as the strings the adapter reads, before trimming; an absent or empty id is "". */
  datatype Message = NoMessage | Message(isEcho: bool, mid: string, text: Option<string>)

  /** `Unusable` is no number, or one beyond the calendar; `Overflowing` is a positive one that the platform's clock
      type cannot hold. */
  datatype Timestamp = Unusable | Overflowing | Millis(ms: int)

  /** In a `NoParty` item the sender or the recipient is present but no object. */
  datatype Item =
    | NotObject | NoParty
    | Item(sender: string, recipient: string, message: Message, timestamp: Timestamp)
  datatype Entry = Malformed | Entry(id: string, messaging: seq<Item>)
  datatype Payload = Payload(isInstagram: bool, entries: Option<seq<Entry>>)

  datatype Reason =
    | UnsupportedEvent | EchoMessage | AccountIdMismatch | AccountNotConfigured | SelfMessage | MissingSender
    | MissingMessageId | UnsupportedContent

  datatype SafeMessage = SafeMessage(sender: string, providerRecipient: string, receiver: string, mid: string,
                                     text: string)
  datatype SafeEntry = SafeEntry(id: string, messages: seq<SafeMessage>)

  /** `Rejected` is the ValueError that turns the whole request down; `Escaped` is an exception of another kind, which
      the application does not catch. */
  datatype Normalized =
    | Rejected | Escaped
    | Normalized(events: seq<Inbound>, entries: seq<SafeEntry>, ignored: multiset<Reason>)

  datatype Receiver = Receiver(account: string) | Unroutable(reason: Reason)

  /** `_receiver_account` */
  function ReceiverAccount(entryId: string, recipientId: string, allowed: set<string>): Receiver {
    if entryId in allowed && recipientId in allowed && entryId != recipientId then Unroutable(AccountIdMismatch)
    else if entryId in allowed then Receiver(entryId)
    else if recipientId in allowed then Receiver(recipientId)
    else Unroutable(AccountNotConfigured)
  }

  datatype Verdict = Raise(caught: bool) | Ignore(reason: Reason) | Keep(safe: SafeMessage)

  predicate TooLong(m: SafeMessage, entryId: string) {
    || |m.sender| > 200 || |m.receiver| > 200 || |m.providerRecipient| > 200 || |entryId| > 200
    || |m.mid| > 500 || |m.text| > 20000
  }

  /** The body of the inner loop of `normalize`, its early exits in order. */
  function Judge(item: Item, entryId: string, allowed: set<string>): Verdict {
    if item.NotObject? then Raise(true)
    else if item.NoParty? then Raise(false)
    else
      var sender, recipientId := Strip(item.sender), Strip(item.recipient);
      if item.message.NoMessage? then Ignore(UnsupportedEvent)
      else if item.message.isEcho then Ignore(EchoMessage)
      else
        var receiver := ReceiverAccount(entryId, recipientId, allowed);
        if receiver.Unroutable? then Ignore(receiver.reason)
        else if sender in allowed || sender == receiver.account then Ignore(SelfMessage)
        else
          var mid := Strip(item.message.mid);
          if sender == "" then Ignore(MissingSender)
          else if mid == "" then Ignore(MissingMessageId)
          else if item.message.text.None? || Strip(item.message.text.value) == "" then Ignore(UnsupportedContent)
          else
            var safe := SafeMessage(sender, recipientId, receiver.account, mid, item.message.text.value);
            if TooLong(safe, entryId) then Raise(true)
            else
              match item.timestamp
              case Unusable => Raise(true)
              case Overflowing => Raise(false)
              case Millis(ms) => if ms < 0 then Raise(true) else Keep(safe)
  }

  /** The event appended beside a sanitized message. */
  function EventOf(m: SafeMessage): Inbound {
    Inbound(Channel.Instagram, m.mid, m.sender, m.receiver, Strip(m.text),
            "instagram:" + m.receiver + ":" + m.sender)
  }

  // ----------------------------------------------------------- specification

  predicate ItemsFine(items: seq<Item>, entryId: string, allowed: set<string>) {
    forall i :: 0 <= i < |items| ==> !Judge(items[i], entryId, allowed).Raise?
  }

  /** What the adapter accepts: nothing malformed and nothing oversized, anywhere in the payload. */
  predicate Acceptable(p: Payload, allowed: set<string>) {
    && p.isInstagram && p.entries.Some?
    && forall k :: 0 <= k < |p.entries.value| ==> EntryFine(p.entries.value[k], allowed)
  }

  /** The first fault among these items is one that the application does not catch. */
  ghost predicate EscapesIn(items: seq<Item>, entryId: string, allowed: set<string>) {
    exists i :: 0 <= i < |items| && ItemsFine(items[..i], entryId, allowed)
                && Judge(items[i], entryId, allowed) == Raise(false)
  }

  predicate EntryFine(e: Entry, allowed: set<string>) {
    e.Entry? && ItemsFine(e.messaging, Strip(e.id), allowed)
  }

  ghost predicate EscapesAt(entries: seq<Entry>, k: nat, allowed: set<string>) {
    && k < |entries| && entries[k].Entry? && EscapesIn(entries[k].messaging, Strip(entries[k].id), allowed)
    && forall i :: 0 <= i < k ==> EntryFine(entries[i], allowed)
  }

  /** The first fault of the whole payload is one that the application does not catch. */
  ghost predicate Escapes(p: Payload, allowed: set<string>) {
    p.isInstagram && p.entries.Some? && exists k: nat :: EscapesAt(p.entries.value, k, allowed)
  }

  /** The kept messages of an entry, in order. */
  function Kept(items: seq<Item>, entryId: string, allowed: set<string>): (r: seq<SafeMessage>)
  {
    if items == [] then []
    else
      var v := Judge(items[|items| - 1], entryId, allowed);
      Kept(items[..|items| - 1], entryId, allowed) + (if v.Keep? then [v.safe] else [])
  }

  function Ignored(items: seq<Item>, entryId: string, allowed: set<string>): multiset<Reason> {
    if items == [] then multiset{}
    else
      var v := Judge(items[|items| - 1], entryId, allowed);
      Ignored(items[..|items| - 1], entryId, allowed) + (if v.Ignore? then multiset{v.reason} else multiset{})
  }

  function SafeEntryOf(e: Entry, allowed: set<string>): SafeEntry
    requires e.Entry?
  {
    SafeEntry(Strip(e.id), Kept(e.messaging, Strip(e.id), allowed))
  }

  function SafeEntries(entries: seq<Entry>, allowed: set<string>): (r: seq<SafeEntry>)
    requires forall k :: 0 <= k < |entries| ==> entries[k].Entry?
    ensures |r| == |entries|
  {
    seq(|entries|, k requires 0 <= k < |entries| => SafeEntryOf(entries[k], allowed))
  }

  function IgnoredIn(entries: seq<Entry>, allowed: set<string>): multiset<Reason>
    requires forall k :: 0 <= k < |entries| ==> entries[k].Entry?
  {
    if entries == [] then multiset{}
    else
      var e := entries[|entries| - 1];
      IgnoredIn(entries[..|entries| - 1], allowed) + Ignored(e.messaging, Strip(e.id), allowed)
  }

  function EventsOf(ms: seq<SafeMessage>): (r: seq<Inbound>)
    ensures |r| == |ms|
  {
    seq(|ms|, i requires 0 <= i < |ms| => EventOf(ms[i]))
  }

  /** The events that the sanitized entries stand for, entry by entry. */
  function AllEvents(entries: seq<SafeEntry>): seq<Inbound> {
    if entries == [] then []
    else AllEvents(entries[..|entries| - 1]) + EventsOf(entries[|entries| - 1].messages)
  }

  function CountItems(entries: seq<Entry>): nat
    requires forall k :: 0 <= k < |entries| ==> entries[k].Entry?
  {
    if entries == [] then 0 else CountItems(entries[..|entries| - 1]) + |entries[|entries| - 1].messaging|
  }

  lemma NoItems(entryId: string, allowed: set<string>)
    ensures ItemsFine([], entryId, allowed) && Kept([], entryId, allowed) == [] && EventsOf([]) == []
    ensures Ignored([], entryId, allowed) == multiset{} == IgnoredIn([], allowed) && AllEvents([]) == []
  {}

  lemma OneItem(items: seq<Item>, i: nat, entryId: string, allowed: set<string>)
    requires i < |items|
    ensures var v := Judge(items[i], entryId, allowed);
      && Kept(items[..i + 1], entryId, allowed)
         == Kept(items[..i], entryId, allowed) + (if v.Keep? then [v.safe] else [])
      && Ignored(items[..i + 1], entryId, allowed)
         == Ignored(items[..i], entryId, allowed) + (if v.Ignore? then multiset{v.reason} else multiset{})
      && (ItemsFine(items[..i + 1], entryId, allowed) <==> ItemsFine(items[..i], entryId, allowed) && !v.Raise?)
      && (v.Raise? ==> !ItemsFine(items, entryId, allowed))
  {
    hide Judge;
    assert items[..i + 1][..i] == items[..i];
    assert items[..i + 1][i] == items[i];
    assert forall x :: 0 <= x < i ==> items[..i][x] == items[..i + 1][x];
  }

  lemma OneEntry(entries: seq<Entry>, k: nat, safe: seq<SafeEntry>, e: SafeEntry, allowed: set<string>)
    requires k < |entries| && forall i :: 0 <= i <= k ==> entries[i].Entry?
    ensures IgnoredIn(entries[..k + 1], allowed)
         == IgnoredIn(entries[..k], allowed) + Ignored(entries[k].messaging, Strip(entries[k].id), allowed)
    ensures AllEvents(safe + [e]) == AllEvents(safe) + EventsOf(e.messages)
  {
    assert entries[..k + 1][..k] == entries[..k];
    assert (safe + [e])[..|safe|] == safe;
  }

  lemma OneEvent(ms: seq<SafeMessage>, m: SafeMessage)
    ensures EventsOf(ms + [m]) == EventsOf(ms) + [EventOf(m)]
  {
    hide EventOf;
  }

  /** A fault at entry `k` settles which kind of exception the payload raises. */
  lemma FaultSettles(entries: seq<Entry>, k: nat, allowed: set<string>)
    requires k < |entries| && !EntryFine(entries[k], allowed)
    requires forall i :: 0 <= i < k ==> EntryFine(entries[i], allowed)
    ensures (exists j: nat :: EscapesAt(entries, j, allowed)) <==> EscapesAt(entries, k, allowed)
  {
    hide ItemsFine, Strip;
    forall j: nat | EscapesAt(entries, j, allowed)
      ensures j == k
    {
      EscapeIsFault(entries[j], allowed);
    }
  }

  lemma EscapeIsFault(e: Entry, allowed: set<string>)
    requires e.Entry? && EscapesIn(e.messaging, Strip(e.id), allowed)
    ensures !EntryFine(e, allowed)
  {}

  lemma MalformedStays(entries: seq<Entry>, k: nat, allowed: set<string>)
    requires k < |entries| && entries[k].Malformed?
    ensures !EscapesAt(entries, k, allowed)
  {}

  lemma FaultKind(entries: seq<Entry>, k: nat, allowed: set<string>)
    requires k < |entries| && entries[k].Entry? && forall i :: 0 <= i < k ==> EntryFine(entries[i], allowed)
    ensures EscapesAt(entries, k, allowed) <==> EscapesIn(entries[k].messaging, Strip(entries[k].id), allowed)
  {}

  lemma NoFault(entries: seq<Entry>, allowed: set<string>)
    requires forall k :: 0 <= k < |entries| ==> EntryFine(entries[k], allowed)
    ensures forall k: nat :: !EscapesAt(entries, k, allowed)
  {
    forall k: nat | EscapesAt(entries, k, allowed)
      ensures false
    {
      EscapeIsFault(entries[k], allowed);
    }
  }

  lemma ItemSettles(items: seq<Item>, i: nat, entryId: string, allowed: set<string>)
    requires i < |items| && ItemsFine(items[..i], entryId, allowed) && Judge(items[i], entryId, allowed).Raise?
    ensures !ItemsFine(items, entryId, allowed)
    ensures EscapesIn(items, entryId, allowed) <==> !Judge(items[i], entryId, allowed).caught
  {
    hide Judge;
    forall j | 0 <= j < |items| && ItemsFine(items[..j], entryId, allowed) && Judge(items[j], entryId, allowed).Raise?
      ensures j == i
    {
      assert forall x :: 0 <= x < j ==> items[..j][x] == items[x];
      assert forall x :: 0 <= x < i ==> items[..i][x] == items[x];
    }
  }

  /** `normalize`: it fails exactly on an unacceptable payload, and past the application exactly when the first fault
      is of that kind; otherwise it keeps, entry by entry, exactly the
      messages the rules keep, makes one event of each in the same order, and counts the reason of every other item. */
  method Normalize(p: Payload, allowed: set<string>) returns (r: Normalized)
    ensures r.Normalized? <==> Acceptable(p, allowed)
    ensures r.Normalized? <==> SoundPayload(p, allowed)
    ensures r.Escaped? <==> Escapes(p, allowed)
    ensures r.Escaped? <==>
      p.isInstagram && p.entries.Some? && exists k: nat, i: nat :: Uncaught(p.entries.value, k, i, allowed)
    ensures r.Normalized? ==>
      && r.entries == SafeEntries(p.entries.value, allowed)
      && r.events == AllEvents(r.entries)
      && r.ignored == IgnoredIn(p.entries.value, allowed)
      && Normalizes(r, p.entries.value, allowed)
  {
    hide Judge, EventOf, Strip, Kept, Ignored, EventsOf, AllEvents, IgnoredIn, ItemsFine, EscapesIn, EscapesAt,
      SoundPayload, Uncaught, Normalizes;
    NormalizeMeans(p, allowed);
    if !p.isInstagram || p.entries.None? {
      return Normalized.Rejected;
    }
    var entries := p.entries.value;
    var events, safe, ignored := [], [], multiset{};
    NoItems("", allowed);
    assert entries[..0] == [];
    for k := 0 to |entries|
      invariant |safe| == k
      invariant forall i :: 0 <= i < k ==> EntryFine(entries[i], allowed)
      invariant forall i :: 0 <= i < k ==> safe[i] == SafeEntryOf(entries[i], allowed)
      invariant events == AllEvents(safe)
      invariant ignored == IgnoredIn(entries[..k], allowed)
    {
      if entries[k].Malformed? {
        FaultSettles(entries, k, allowed);
        MalformedStays(entries, k, allowed);
        return Normalized.Rejected;
      }
      var id := Strip(entries[k].id);
      var items := entries[k].messaging;
      var messages: seq<SafeMessage> := [];
      NoItems(id, allowed);
      assert items[..0] == [];
      ghost var events0, ignored0 := events, ignored;
      for i := 0 to |items|
        invariant ItemsFine(items[..i], id, allowed)
        invariant messages == Kept(items[..i], id, allowed)
        invariant events == events0 + EventsOf(messages)
        invariant ignored == ignored0 + Ignored(items[..i], id, allowed)
      {
        OneItem(items, i, id, allowed);
        var v := Judge(items[i], id, allowed);
        match v {
          case Raise(caught) =>
            ItemSettles(items, i, id, allowed);
            FaultSettles(entries, k, allowed);
            FaultKind(entries, k, allowed);
            return if caught then Normalized.Rejected else Escaped;
          case Ignore(reason) =>
            ignored := ignored + multiset{reason};
          case Keep(m) =>
            OneEvent(messages, m);
            messages := messages + [m];
            events := events + [EventOf(m)];
        }
      }
      assert items[..|items|] == items;
      OneEntry(entries, k, safe, SafeEntry(id, messages), allowed);
      safe := safe + [SafeEntry(id, messages)];
    }
    assert entries[..|entries|] == entries;
    NoFault(entries, allowed);
    assert safe == SafeEntries(entries, allowed);
    return Normalized(events, safe, ignored);
  }

  // -------------------------------------------------------------- properties

  lemma {:induction false} ItemsPartition(items: seq<Item>, entryId: string, allowed: set<string>)
    requires ItemsFine(items, entryId, allowed)
    ensures |Kept(items, entryId, allowed)| + |Ignored(items, entryId, allowed)| == |items|
  {
    hide Judge;
    if items != [] {
      ItemsPartition(items[..|items| - 1], entryId, allowed);
      assert !Judge(items[|items| - 1], entryId, allowed).Raise?;
    }
  }

  /** Every messaging item either becomes one event or is counted under one reason: none is lost, none counted
      twice. */
  lemma {:induction false} NormalizePartitions(entries: seq<Entry>, allowed: set<string>)
    requires Acceptable(Payload(true, Some(entries)), allowed)
    ensures |AllEvents(SafeEntries(entries, allowed))| + |IgnoredIn(entries, allowed)| == CountItems(entries)
  {
    hide Judge, EventOf;
    if entries != [] {
      var n := |entries| - 1;
      NormalizePartitions(entries[..n], allowed);
      assert SafeEntries(entries, allowed)[..n] == SafeEntries(entries[..n], allowed);
      ItemsPartition(entries[n].messaging, Strip(entries[n].id), allowed);
    }
  }

  /** The rule for keeping a message, stated without its order of checks. */
  ghost predicate Deserves(item: Item, entryId: string, allowed: set<string>) {
    && item.Item? && item.message.Message? && !item.message.isEcho
    && (exists account :: account in allowed && {entryId, Strip(item.recipient)} * allowed == {account})
    && Strip(item.sender) != "" && Strip(item.sender) !in allowed
    && Strip(item.message.mid) != "" && item.message.text.Some? && Strip(item.message.text.value) != ""
  }

  /** Everything about the item is within the adapter's limits. */
  predicate Sized(item: Item, entryId: string) {
    item.Item? && item.message.Message? ==>
      && |Strip(item.sender)| <= 200 && |Strip(item.recipient)| <= 200 && |entryId| <= 200
      && |Strip(item.message.mid)| <= 500
      && (item.message.text.Some? ==> |item.message.text.value| <= 20000)
  }

  /** The time is one that the adapter can use. */
  predicate Timely(item: Item) {
    item.Item? && item.timestamp.Millis? && item.timestamp.ms >= 0
  }

  lemma OnlyAccount(entryId: string, recipientId: string, allowed: set<string>)
    ensures var r, ids := ReceiverAccount(entryId, recipientId, allowed), {entryId, recipientId} * allowed;
      && (r.Receiver? ==> ids == {r.account} && r.account in allowed)
      && (r.Unroutable? ==> (r.reason.AccountIdMismatch? || r.reason.AccountNotConfigured?)
                            && (r.reason.AccountIdMismatch? <==> entryId in ids && recipientId in ids)
                            && (r.reason.AccountNotConfigured? <==> ids == {}))
      && (r.Receiver? <==> exists account :: account in allowed && ids == {account})
  {
    var r, ids := ReceiverAccount(entryId, recipientId, allowed), {entryId, recipientId} * allowed;
    if r.Receiver? {
      assert ids == {r.account};
    } else if r.reason.AccountIdMismatch? {
      assert entryId in ids && recipientId in ids;
    } else {
      assert entryId !in ids && recipientId !in ids;
    }
  }

  /** An item is kept exactly when it deserves an event, is within the limits and has a usable time; it is kept with the
      account that is the only configured one among the two ids it names, and otherwise as it came. */
  lemma KeptExactly(item: Item, entryId: string, allowed: set<string>)
    ensures Judge(item, entryId, allowed).Keep? <==>
      Deserves(item, entryId, allowed) && Sized(item, entryId) && Timely(item)
    ensures Judge(item, entryId, allowed).Keep? ==>
      var m := Judge(item, entryId, allowed).safe;
      && {entryId, Strip(item.recipient)} * allowed == {m.receiver} && m.sender == Strip(item.sender)
      && m.providerRecipient == Strip(item.recipient) && m.mid == Strip(item.message.mid)
      && Some(m.text) == item.message.text
  {
    hide Strip, ReceiverAccount;
    if item.Item? { OnlyAccount(entryId, Strip(item.recipient), allowed); }
  }

  /** It makes the whole payload fail exactly when it is no object, or deserves an event but is over a limit or has an
      unusable time; the application does not catch the failure exactly when a party is no object, or the time is
      beyond the clock and nothing else is wrong. */
  lemma RaisedExactly(item: Item, entryId: string, allowed: set<string>)
    ensures Judge(item, entryId, allowed).Raise? <==>
      item.NotObject? || item.NoParty? || (Deserves(item, entryId, allowed) && !(Sized(item, entryId) && Timely(item)))
    ensures Judge(item, entryId, allowed) == Raise(false) <==>
      || item.NoParty?
      || (Deserves(item, entryId, allowed) && Sized(item, entryId) && item.timestamp.Overflowing?)
  {
    hide Strip, ReceiverAccount;
    if item.Item? { OnlyAccount(entryId, Strip(item.recipient), allowed); }
  }

  /** What is wrong with an item that deserves no event, each reason being the first in the adapter's list to apply. */
  ghost predicate Lacks(item: Item, entryId: string, allowed: set<string>, reason: Reason) {
    && item.Item?
    && var ids := {entryId, Strip(item.recipient)} * allowed;
       var routed := item.message.Message? && !item.message.isEcho && |ids| == 1;
       match reason
       case UnsupportedEvent => item.message.NoMessage?
       case EchoMessage => item.message.Message? && item.message.isEcho
       case AccountIdMismatch => item.message.Message? && !item.message.isEcho && |ids| == 2
       case AccountNotConfigured => item.message.Message? && !item.message.isEcho && ids == {}
       case SelfMessage => routed && Strip(item.sender) in allowed
       case MissingSender => routed && Strip(item.sender) !in allowed && Strip(item.sender) == ""
       case MissingMessageId =>
         routed && Strip(item.sender) !in allowed && Strip(item.sender) != "" && Strip(item.message.mid) == ""
       case UnsupportedContent =>
         && routed && Strip(item.sender) !in allowed && Strip(item.sender) != "" && Strip(item.message.mid) != ""
         && (item.message.text.None? || Strip(item.message.text.value) == "")
  }

  lemma CountAccounts(entryId: string, recipientId: string, allowed: set<string>)
    ensures var ids := {entryId, recipientId} * allowed;
      && (|ids| == 1 <==> exists account :: account in allowed && ids == {account})
      && (|ids| == 2 <==> entryId != recipientId && entryId in allowed && recipientId in allowed)
  {
    var ids := {entryId, recipientId} * allowed;
    if entryId in ids && recipientId in ids {
      assert ids == {entryId, recipientId};
    } else if entryId in ids {
      assert ids == {entryId};
    } else if recipientId in ids {
      assert ids == {recipientId};
    } else {
      assert ids == {};
    }
  }

  /** Every other item is counted under one reason, which is what it lacks. */
  lemma ReasonExactly(item: Item, entryId: string, allowed: set<string>, reason: Reason)
    ensures Judge(item, entryId, allowed) == Ignore(reason) <==> Lacks(item, entryId, allowed, reason)
  {
    hide Strip;
    if item.Item? { CountAccounts(entryId, Strip(item.recipient), allowed); }
  }

  ghost predicate Keeps(item: Item, entryId: string, allowed: set<string>) {
    Deserves(item, entryId, allowed) && Sized(item, entryId) && Timely(item)
  }

  /** This sanitized message says what the item says, trimmed, under the only configured account that it names. */
  ghost predicate Says(m: SafeMessage, item: Item, entryId: string, allowed: set<string>) {
    && item.Item? && item.message.Message?
    && {entryId, Strip(item.recipient)} * allowed == {m.receiver}
    && m.sender == Strip(item.sender) && m.providerRecipient == Strip(item.recipient)
    && m.mid == Strip(item.message.mid) && Some(m.text) == item.message.text
  }

  /** How many of the first `n` items are to be kept. */
  ghost function CountKept(items: seq<Item>, entryId: string, allowed: set<string>, n: nat): nat
    requires n <= |items|
  {
    if n == 0 then 0
    else CountKept(items, entryId, allowed, n - 1) + (if Keeps(items[n - 1], entryId, allowed) then 1 else 0)
  }

  /** How many of the first `n` items lack this. */
  ghost function CountLacking(items: seq<Item>, entryId: string, allowed: set<string>, reason: Reason, n: nat): nat
    requires n <= |items|
  {
    if n == 0 then 0
    else CountLacking(items, entryId, allowed, reason, n - 1)
         + (if Lacks(items[n - 1], entryId, allowed, reason) then 1 else 0)
  }

  lemma {:induction false} CountPrefix(items: seq<Item>, entryId: string, allowed: set<string>, reason: Reason, m: nat,
                                       n: nat)
    requires n <= m <= |items|
    ensures CountKept(items[..m], entryId, allowed, n) == CountKept(items, entryId, allowed, n)
    ensures CountLacking(items[..m], entryId, allowed, reason, n) == CountLacking(items, entryId, allowed, reason, n)
  {
    if n > 0 {
      CountPrefix(items, entryId, allowed, reason, m, n - 1);
      assert items[..m][n - 1] == items[n - 1];
    }
  }

  /** The kept messages are those of the items to be kept, in their order, and nothing else. */
  lemma {:induction false} KeptInOrder(items: seq<Item>, entryId: string, allowed: set<string>, i: nat)
    requires i < |items|
    ensures |Kept(items, entryId, allowed)| == CountKept(items, entryId, allowed, |items|)
    ensures Keeps(items[i], entryId, allowed) ==>
      var k := CountKept(items, entryId, allowed, i);
      k < |Kept(items, entryId, allowed)| && Says(Kept(items, entryId, allowed)[k], items[i], entryId, allowed)
  {
    hide Judge, Keeps;
    var n := |items| - 1;
    CountPrefix(items, entryId, allowed, UnsupportedEvent, n, n);
    KeptStep(items, entryId, allowed);
    if i < n {
      KeptInOrder(items[..n], entryId, allowed, i);
      assert items[..n][i] == items[i];
      CountPrefix(items, entryId, allowed, UnsupportedEvent, n, i);
    } else if n > 0 {
      KeptInOrder(items[..n], entryId, allowed, 0);
    }
  }

  lemma KeptStep(items: seq<Item>, entryId: string, allowed: set<string>)
    requires items != []
    ensures var n := |items| - 1;
      if Keeps(items[n], entryId, allowed) then
        exists m :: Says(m, items[n], entryId, allowed)
                    && Kept(items, entryId, allowed) == Kept(items[..n], entryId, allowed) + [m]
      else Kept(items, entryId, allowed) == Kept(items[..n], entryId, allowed)
  {
    hide Judge, Sized, Timely;
    var item := items[|items| - 1];
    KeptExactly(item, entryId, allowed);
    if Keeps(item, entryId, allowed) {
      assert Says(Judge(item, entryId, allowed).safe, item, entryId, allowed);
    }
  }

  /** Each reason is counted as often as some item lacks it. */
  lemma {:induction false} IgnoredCounts(items: seq<Item>, entryId: string, allowed: set<string>, reason: Reason)
    ensures Ignored(items, entryId, allowed)[reason] == CountLacking(items, entryId, allowed, reason, |items|)
  {
    hide Judge, Lacks;
    if items != [] {
      var n := |items| - 1;
      IgnoredCounts(items[..n], entryId, allowed, reason);
      CountPrefix(items, entryId, allowed, reason, n, n);
      ReasonExactly(items[n], entryId, allowed, reason);
    }
  }

  /** Nothing is wrong with the item that would turn the payload down. */
  ghost predicate Sound(item: Item, entryId: string, allowed: set<string>) {
    item.Item? && (Deserves(item, entryId, allowed) ==> Sized(item, entryId) && Timely(item))
  }

  ghost predicate SoundEntry(e: Entry, allowed: set<string>) {
    e.Entry? && forall i :: 0 <= i < |e.messaging| ==> Sound(e.messaging[i], Strip(e.id), allowed)
  }

  /** What the adapter accepts, in terms of the items alone. */
  ghost predicate SoundPayload(p: Payload, allowed: set<string>) {
    && p.isInstagram && p.entries.Some?
    && forall k :: 0 <= k < |p.entries.value| ==> SoundEntry(p.entries.value[k], allowed)
  }

  /** Item `i` of entry `k` is the first unsound one, and unsound in a way that the application does not catch. */
  ghost predicate Uncaught(entries: seq<Entry>, k: nat, i: nat, allowed: set<string>) {
    && k < |entries| && entries[k].Entry? && i < |entries[k].messaging|
    && (forall x :: 0 <= x < k ==> SoundEntry(entries[x], allowed))
    && (forall x :: 0 <= x < i ==> Sound(entries[k].messaging[x], Strip(entries[k].id), allowed))
    && var item, id := entries[k].messaging[i], Strip(entries[k].id);
       item.NoParty? || (Deserves(item, id, allowed) && Sized(item, id) && item.timestamp.Overflowing?)
  }

  lemma SoundExactly(item: Item, entryId: string, allowed: set<string>)
    ensures Sound(item, entryId, allowed) <==> !Judge(item, entryId, allowed).Raise?
  {
    hide Judge, Deserves, Sized, Timely;
    RaisedExactly(item, entryId, allowed);
  }

  lemma SoundEntryExactly(e: Entry, allowed: set<string>)
    ensures SoundEntry(e, allowed) <==> EntryFine(e, allowed)
  {
    hide Judge, Sound, Strip;
    if e.Entry? {
      forall i | 0 <= i < |e.messaging|
        ensures Sound(e.messaging[i], Strip(e.id), allowed) <==> !Judge(e.messaging[i], Strip(e.id), allowed).Raise?
      {
        SoundExactly(e.messaging[i], Strip(e.id), allowed);
      }
    }
  }

  lemma SoundPayloadExactly(p: Payload, allowed: set<string>)
    ensures SoundPayload(p, allowed) <==> Acceptable(p, allowed)
  {
    hide SoundEntry, EntryFine;
    if p.entries.Some? {
      forall k | 0 <= k < |p.entries.value|
        ensures SoundEntry(p.entries.value[k], allowed) <==> EntryFine(p.entries.value[k], allowed)
      {
        SoundEntryExactly(p.entries.value[k], allowed);
      }
    }
  }

  lemma UncaughtItem(entries: seq<Entry>, k: nat, i: nat, allowed: set<string>)
    requires k < |entries| && entries[k].Entry? && i < |entries[k].messaging|
    ensures Uncaught(entries, k, i, allowed) <==>
      && (forall x :: 0 <= x < k ==> EntryFine(entries[x], allowed))
      && ItemsFine(entries[k].messaging[..i], Strip(entries[k].id), allowed)
      && Judge(entries[k].messaging[i], Strip(entries[k].id), allowed) == Raise(false)
  {
    hide SoundEntry, EntryFine, ItemsFine, Judge, Sound, Strip, Deserves, Sized;
    var items, id := entries[k].messaging, Strip(entries[k].id);
    forall x | 0 <= x < k
      ensures SoundEntry(entries[x], allowed) <==> EntryFine(entries[x], allowed)
    {
      SoundEntryExactly(entries[x], allowed);
    }
    PrefixFine(items, i, id, allowed);
    RaisedExactly(items[i], id, allowed);
  }

  lemma UncaughtEntry(entries: seq<Entry>, k: nat, allowed: set<string>)
    ensures (exists i: nat :: Uncaught(entries, k, i, allowed)) <==> EscapesAt(entries, k, allowed)
  {
    hide SoundEntry, EntryFine, ItemsFine, Judge, Sound, Strip, Deserves, Sized;
    if i: nat :| Uncaught(entries, k, i, allowed) {
      UncaughtItem(entries, k, i, allowed);
      assert EscapesIn(entries[k].messaging, Strip(entries[k].id), allowed);
    }
    if EscapesAt(entries, k, allowed) {
      var items, id := entries[k].messaging, Strip(entries[k].id);
      var i :| 0 <= i < |items| && ItemsFine(items[..i], id, allowed) && Judge(items[i], id, allowed) == Raise(false);
      UncaughtItem(entries, k, i, allowed);
    }
  }

  lemma PrefixFine(items: seq<Item>, n: nat, entryId: string, allowed: set<string>)
    requires n <= |items|
    ensures ItemsFine(items[..n], entryId, allowed) <==> forall x :: 0 <= x < n ==> Sound(items[x], entryId, allowed)
  {
    hide Judge, Sound;
    assert forall x :: 0 <= x < n ==> items[..n][x] == items[x];
    forall x | 0 <= x < n
      ensures Sound(items[x], entryId, allowed) <==> !Judge(items[x], entryId, allowed).Raise?
    {
      SoundExactly(items[x], entryId, allowed);
    }
  }

  lemma UncaughtExactly(p: Payload, allowed: set<string>)
    ensures Escapes(p, allowed) <==>
      p.isInstagram && p.entries.Some? && exists k: nat, i: nat :: Uncaught(p.entries.value, k, i, allowed)
  {
    hide EscapesAt, Uncaught;
    if p.entries.Some? {
      forall k: nat
        ensures (exists i: nat :: Uncaught(p.entries.value, k, i, allowed)) <==> EscapesAt(p.entries.value, k, allowed)
      {
        UncaughtEntry(p.entries.value, k, allowed);
      }
      if k: nat, i: nat :| Uncaught(p.entries.value, k, i, allowed) {
        assert EscapesAt(p.entries.value, k, allowed);
      }
      if k: nat :| EscapesAt(p.entries.value, k, allowed) {
        var i: nat :| Uncaught(p.entries.value, k, i, allowed);
      }
    }
  }

  ghost function CountAllLacking(entries: seq<Entry>, allowed: set<string>, reason: Reason, n: nat): nat
    requires n <= |entries| && forall k :: 0 <= k < |entries| ==> entries[k].Entry?
  {
    if n == 0 then 0
    else
      var e := entries[n - 1];
      CountAllLacking(entries, allowed, reason, n - 1)
      + CountLacking(e.messaging, Strip(e.id), allowed, reason, |e.messaging|)
  }

  lemma {:induction false} IgnoredInCounts(entries: seq<Entry>, allowed: set<string>, reason: Reason, n: nat)
    requires n <= |entries| && forall k :: 0 <= k < |entries| ==> entries[k].Entry?
    ensures IgnoredIn(entries[..n], allowed)[reason] == CountAllLacking(entries, allowed, reason, n)
  {
    hide Ignored, CountLacking, Strip;
    if n > 0 {
      IgnoredInCounts(entries, allowed, reason, n - 1);
      assert entries[..n][..n - 1] == entries[..n - 1];
      var e := entries[n - 1];
      IgnoredCounts(e.messaging, Strip(e.id), allowed, reason);
    }
  }

  /** A sanitized entry holds the messages of the items to be kept, in their order, and nothing else. */
  ghost predicate Sanitizes(safe: SafeEntry, e: Entry, allowed: set<string>) {
    && e.Entry? && safe.id == Strip(e.id)
    && |safe.messages| == CountKept(e.messaging, Strip(e.id), allowed, |e.messaging|)
    && forall i :: 0 <= i < |e.messaging| && Keeps(e.messaging[i], Strip(e.id), allowed) ==>
      var k := CountKept(e.messaging, Strip(e.id), allowed, i);
      k < |safe.messages| && Says(safe.messages[k], e.messaging[i], Strip(e.id), allowed)
  }

  lemma EntrySanitizes(e: Entry, allowed: set<string>)
    requires e.Entry?
    ensures Sanitizes(SafeEntryOf(e, allowed), e, allowed)
  {
    hide Strip, Keeps, Says, CountKept, Kept;
    var items, id := e.messaging, Strip(e.id);
    if items == [] {
      NoneKept(id, allowed);
    } else {
      forall i | 0 <= i < |items|
        ensures |Kept(items, id, allowed)| == CountKept(items, id, allowed, |items|)
        ensures Keeps(items[i], id, allowed) ==>
          var k := CountKept(items, id, allowed, i);
          k < |Kept(items, id, allowed)| && Says(Kept(items, id, allowed)[k], items[i], id, allowed)
      {
        KeptInOrder(items, id, allowed, i);
      }
      assert |Kept(items, id, allowed)| == CountKept(items, id, allowed, |items|) by {
        KeptInOrder(items, id, allowed, 0);
      }
    }
  }

  lemma NoneKept(entryId: string, allowed: set<string>)
    ensures Kept([], entryId, allowed) == [] && CountKept([], entryId, allowed, 0) == 0
  {}

  /** What `normalize` makes of a payload that it accepts, in terms of its items alone. */
  ghost predicate Normalizes(r: Normalized, entries: seq<Entry>, allowed: set<string>)
    requires r.Normalized? && forall k :: 0 <= k < |entries| ==> entries[k].Entry?
  {
    && |r.entries| == |entries|
    && (forall k :: 0 <= k < |entries| ==> Sanitizes(r.entries[k], entries[k], allowed))
    && (forall reason: Reason :: r.ignored[reason] == CountAllLacking(entries, allowed, reason, |entries|))
  }

  lemma NormalizesAll(entries: seq<Entry>, allowed: set<string>)
    requires forall k :: 0 <= k < |entries| ==> entries[k].Entry?
    ensures var safe := SafeEntries(entries, allowed);
      Normalizes(Normalized.Normalized(AllEvents(safe), safe, IgnoredIn(entries, allowed)), entries, allowed)
  {
    hide Sanitizes, IgnoredIn, CountAllLacking, SafeEntryOf, AllEvents;
    forall k | 0 <= k < |entries|
      ensures Sanitizes(SafeEntryOf(entries[k], allowed), entries[k], allowed)
    {
      EntrySanitizes(entries[k], allowed);
    }
    forall reason: Reason
      ensures IgnoredIn(entries, allowed)[reason] == CountAllLacking(entries, allowed, reason, |entries|)
    {
      IgnoredInCounts(entries, allowed, reason, |entries|);
      assert entries[..|entries|] == entries;
    }
  }

  /** What `normalize` accepts, and what it then returns. */
  lemma NormalizeMeans(p: Payload, allowed: set<string>)
    ensures Acceptable(p, allowed) <==> SoundPayload(p, allowed)
    ensures Escapes(p, allowed) <==>
      p.isInstagram && p.entries.Some? && exists k: nat, i: nat :: Uncaught(p.entries.value, k, i, allowed)
    ensures Acceptable(p, allowed) ==>
      var entries := p.entries.value;
      var safe := SafeEntries(entries, allowed);
      Normalizes(Normalized.Normalized(AllEvents(safe), safe, IgnoredIn(entries, allowed)), entries, allowed)
  {
    hide Normalizes, Escapes, Uncaught, SoundPayload, SafeEntries, AllEvents, IgnoredIn, EntryFine;
    SoundPayloadExactly(p, allowed);
    UncaughtExactly(p, allowed);
    if Acceptable(p, allowed) {
      AllEntries(p, allowed);
      NormalizesAll(p.entries.value, allowed);
    }
  }

  lemma AllEntries(p: Payload, allowed: set<string>)
    requires Acceptable(p, allowed)
    ensures forall k :: 0 <= k < |p.entries.value| ==> p.entries.value[k].Entry?
  {
    hide ItemsFine, Strip;
  }

  lemma KeptIsRouted(item: Item, entryId: string, allowed: set<string>)
    requires Trimmed(entryId) && Judge(item, entryId, allowed).Keep?
    ensures FromInstagram(EventOf(Judge(item, entryId, allowed).safe), allowed)
  {
    StripTrims(item.sender);
    StripTrims(item.recipient);
    StripTrims(entryId);
    StripTrims(Strip(item.recipient));
  }

  lemma {:induction false} ItemsRouted(items: seq<Item>, entryId: string, allowed: set<string>, i: nat)
    requires Trimmed(entryId) && i < |Kept(items, entryId, allowed)|
    ensures FromInstagram(EventOf(Kept(items, entryId, allowed)[i]), allowed)
  {
    hide Judge, EventOf, FromInstagram;
    var n := |items| - 1;
    if i < |Kept(items[..n], entryId, allowed)| {
      ItemsRouted(items[..n], entryId, allowed, i);
    } else {
      KeptIsRouted(items[n], entryId, allowed);
    }
  }

  /** Every event is for a configured account, from somebody who is not one, under the key those two determine:
      what the webhook's transaction relies on. */
  lemma {:induction false} EventsAreRouted(entries: seq<Entry>, allowed: set<string>, i: nat)
    requires Acceptable(Payload(true, Some(entries)), allowed)
    requires i < |AllEvents(SafeEntries(entries, allowed))|
    ensures FromInstagram(AllEvents(SafeEntries(entries, allowed))[i], allowed)
  {
    hide Judge, EventOf, FromInstagram;
    var n := |entries| - 1;
    var safe := SafeEntries(entries, allowed);
    assert safe[..n] == SafeEntries(entries[..n], allowed);
    var before := AllEvents(safe[..n]);
    if i < |before| {
      EventsAreRouted(entries[..n], allowed, i);
    } else {
      StripTrims(entries[n].id);
      ItemsRouted(entries[n].messaging, Strip(entries[n].id), allowed, i - |before|);
    }
  }

  /** How many events the first `n` sanitized entries hold. */
  function Offset(entries: seq<SafeEntry>, n: nat): nat
    requires n <= |entries|
  {
    if n == 0 then 0 else Offset(entries, n - 1) + |entries[n - 1].messages|
  }

  lemma {:induction false} OffsetCounts(entries: seq<SafeEntry>, n: nat)
    requires n <= |entries|
    ensures |AllEvents(entries[..n])| == Offset(entries, n)
  {
    if n > 0 {
      OffsetCounts(entries, n - 1);
      assert entries[..n][..n - 1] == entries[..n - 1];
    }
  }

  lemma EventsOfAt(ms: seq<SafeMessage>, i: nat)
    requires i < |ms|
    ensures EventsOf(ms)[i] == EventOf(ms[i])
  {}

  /** The events of all entries are those of the entries before the last, and then those of the last. */
  lemma EventsSplit(entries: seq<SafeEntry>)
    requires entries != []
    ensures var n := |entries| - 1; AllEvents(entries) == AllEvents(entries[..n]) + EventsOf(entries[n].messages)
  {
    hide EventsOf;
  }

  /** Sanitized messages and events correspond one to one, in order: message `i` of entry `k` is event
      `Offset(k) + i`, and there are no other events. */
  lemma {:induction false} SafeMatchesEvents(entries: seq<SafeEntry>, k: nat, i: nat)
    requires k < |entries| && i < |entries[k].messages|
    ensures |AllEvents(entries)| == Offset(entries, |entries|)
    ensures Offset(entries, k) + i < |AllEvents(entries)|
    ensures var e, m := AllEvents(entries)[Offset(entries, k) + i], entries[k].messages[i];
      && e.channel.Instagram? && e.mid == m.mid && e.sender == m.sender && e.recipient == m.receiver
      && e.body == Strip(m.text) && e.key == "instagram:" + m.receiver + ":" + m.sender
  {
    hide AllEvents, EventsOf, Offset, Strip;
    var n := |entries| - 1;
    assert entries[..n + 1] == entries;
    OffsetCounts(entries, n + 1);
    OffsetCounts(entries, n);
    EventsSplit(entries);
    if k < n {
      SafeMatchesEvents(entries[..n], k, i);
      OffsetPrefix(entries, k);
      assert entries[..n][k] == entries[k];
    } else {
      EventsOfAt(entries[n].messages, i);
    }
  }

  lemma {:induction false} OffsetPrefix(entries: seq<SafeEntry>, k: nat)
    requires entries != [] && k <= |entries| - 1
    ensures Offset(entries[..|entries| - 1], k) == Offset(entries, k)
  {
    if k > 0 { OffsetPrefix(entries, k - 1); }
  }

  // ------------------------------------------------------ the receipt's reason

  datatype ReceiptReason = NoSupportedEvents | Single(reason: Reason) | DuplicateMessage | MultipleReasons

  /** Of all the kinds in this multiset, there is only this one. */
  ghost predicate Sole<T>(m: multiset<T>, x: T) {
    x in m && forall y :: y in m ==> y == x
  }

  /** The kinds of a multiset, as a set: none when it is empty, and one exactly when it has a sole kind. */
  lemma CountKinds<T>(m: multiset<T>, s: set<T>)
    requires forall y :: y in m <==> y in s
    ensures m == multiset{} <==> s == {}
    ensures |s| == 1 <==> exists z :: Sole(m, z)
  {
    if x :| x in s {
      var rest := s - {x};
      assert s == rest + {x};
      assert |rest| == |s| - 1;
      if |rest| > 0 {
        var y :| y in rest;
        assert x in m && y in m;
      } else {
        assert Sole(m, x);
      }
    }
  }

  /** `_ignored_reason`: one code for the receipt, the reason itself when it is the only one. */
  method IgnoredReason(duplicates: nat, ignored: multiset<Reason>) returns (r: ReceiptReason)
    ensures r.NoSupportedEvents? <==> duplicates == 0 && ignored == multiset{}
    ensures r.DuplicateMessage? <==> duplicates > 0 && ignored == multiset{}
    ensures r.Single? <==> duplicates == 0 && exists x :: Sole(ignored, x)
    ensures r.Single? ==> r.reason in ignored
  {
    hide Sole;
    var reasons := set x | x in ignored;
    CountKinds(ignored, reasons);
    if duplicates > 0 {
      return if reasons == {} then DuplicateMessage else MultipleReasons;
    }
    if reasons == {} {
      return NoSupportedEvents;
    }
    var x :| x in reasons;
    return if |reasons| == 1 then Single(x) else MultipleReasons;
  }
}
