/** The deterministic policy that decides what may happen to a proposed action. */
module Policy {
  import opened Types
  import opened Text

  const MAX_REPLY_CHARACTERS := 1000
  const MAX_REFERENCES := 10

  /** A JSON value, as far as the policy looks at one. */
  datatype Value = Null | Str(s: string) | Flag(b: bool) | OtherValue

  datatype RefKind = VenueRef | EventRef | OfferRef | OtherRef
  /** An entry of `referenced_items`; a non-string id or timestamp is None. */
  datatype RefItem = Malformed | Item(kind: RefKind, id: Option<string>, verifiedAt: Option<string>)

  datatype AgentAction = Reply | AskClarification | HumanRequired | Ignore | OtherAction
  datatype Reason = CatalogAnswer | Greeting | Thanks | Farewell | MissingDetails | SpamOrNonMessage | OtherReason

  /** Which keys a payload has: exactly the agent's seven, exactly "text", or anything else. */
  datatype Shape = AgentFields | TextOnly | OtherFields
  datatype Payload = Payload(shape: Shape, text: Value, language: Value, source: Value, structured: Value,
                             action: AgentAction, reason: Reason, refs: Option<seq<RefItem>>)

  /** What the word lists and regular expressions report on the incoming and on the proposed text. */
  datatype Facts = Facts(needsHuman: bool, restricted: bool, controlledIn: bool, controlledOut: bool, prohibited: bool)

  predicate ValidText(v: Value) {
    && v.Str?
    && var t := Strip(v.s);
       && t != "" && |t| <= MAX_REPLY_CHARACTERS
       && forall i :: 0 <= i < |t| ==> t[i] >= ' ' || t[i] == '\r' || t[i] == '\n' || t[i] == '\t'
  }

  predicate Lower(c: char) { 'a' <= c <= 'z' }
  predicate Digit(c: char) { '0' <= c <= '9' }
  predicate Upper(c: char) { 'A' <= c <= 'Z' }

  /** A primary language tag: two or three lower-case letters. */
  predicate PrimaryTag(s: string) {
    2 <= |s| <= 3 && forall i :: 0 <= i < |s| ==> Lower(s[i])
  }

  /** A primary tag, and optionally a subtag of two to eight lower-case letters and digits after a hyphen. */
  predicate ValidLanguage(v: Value) {
    && v.Str?
    && (|| PrimaryTag(v.s)
        || exists k :: 2 <= k <= 3 && k < |v.s| && PrimaryTag(v.s[..k]) && v.s[k] == '-' && 2 <= |v.s| - k - 1 <= 8
             && forall i :: k < i < |v.s| ==> Lower(v.s[i]) || Digit(v.s[i]))
  }

  /** A letter or digit, then up to 127 more letters, digits, periods, underscores or hyphens, all ASCII. */
  predicate ValidSource(v: Value) {
    && v.Str? && 1 <= |v.s| <= 128
    && (Lower(v.s[0]) || Upper(v.s[0]) || Digit(v.s[0]))
    && forall i :: 1 <= i < |v.s| ==>
      Lower(v.s[i]) || Upper(v.s[i]) || Digit(v.s[i]) || v.s[i] == '.' || v.s[i] == '_' || v.s[i] == '-'
  }

  /** A text is valid exactly when, between white space, it holds 1 to 1000 characters and no control character but
      tabs and line breaks. */
  lemma TextExactly(s: string) returns (i: nat, j: nat)
    ensures i <= j <= |s| && Trimmed(s[i..j]) && forall k :: 0 <= k < i || j <= k < |s| ==> IsSpace(s[k])
    ensures ValidText(Str(s)) <==>
      1 <= j - i <= 1000 && forall k :: i <= k < j ==> s[k] >= ' ' || s[k] in "\r\n\t"
  {
    i, j := StripExactly(s);
    var t := Strip(s);
    assert forall k :: 0 <= k < |t| ==> t[k] == s[i + k];
    assert forall k :: i <= k < j ==> s[k] == t[k - i];
  }

  predicate Subtag(q: string) {
    2 <= |q| <= 8 && forall i :: 0 <= i < |q| ==> 'a' <= q[i] <= 'z' || '0' <= q[i] <= '9'
  }

  /** A primary tag, or a primary tag, a hyphen and a subtag. */
  predicate Tagged(s: string, p: string, q: string) {
    PrimaryTag(p) && (s == p || (Subtag(q) && s == p + "-" + q))
  }

  lemma TaggedIsValid(s: string, p: string, q: string)
    requires Tagged(s, p, q)
    ensures ValidLanguage(Str(s))
  {
    hide PrimaryTag;
    if s != p {
      var k := |p|;
      assert 2 <= k <= 3 by { assert PrimaryTag(p); TagLength(p); }
      assert s[..k] == p && s[k] == '-';
      assert forall i :: k < i < |s| ==> s[i] == q[i - k - 1];
    }
  }

  lemma TagLength(p: string)
    requires PrimaryTag(p)
    ensures 2 <= |p| <= 3
  {}

  /** A language is valid exactly when it is a tag of two or three letters, or such a tag, a hyphen and two to eight
      letters or digits, all in lower case. */
  lemma LanguageExactly(s: string)
    ensures ValidLanguage(Str(s)) <==> exists p, q :: Tagged(s, p, q)
  {
    hide PrimaryTag, Tagged;
    forall p, q | Tagged(s, p, q)
      ensures ValidLanguage(Str(s))
    {
      TaggedIsValid(s, p, q);
    }
    if ValidLanguage(Str(s)) {
      ValidIsTagged(s);
    }
  }

  lemma ValidIsTagged(s: string)
    requires ValidLanguage(Str(s))
    ensures exists p, q :: Tagged(s, p, q)
  {
    hide PrimaryTag;
    if PrimaryTag(s) {
      assert Tagged(s, s, "");
    } else {
      var k :| 2 <= k <= 3 && k < |s| && PrimaryTag(s[..k]) && s[k] == '-' && 2 <= |s| - k - 1 <= 8
               && forall i :: k < i < |s| ==> Lower(s[i]) || Digit(s[i]);
      SplitTag(s, k);
    }
  }

  lemma SplitTag(s: string, k: nat)
    requires k < |s| && PrimaryTag(s[..k]) && s[k] == '-' && 2 <= |s| - k - 1 <= 8
    requires forall i :: k < i < |s| ==> Lower(s[i]) || Digit(s[i])
    ensures Tagged(s, s[..k], s[k + 1..])
  {
    hide PrimaryTag;
    var q := s[k + 1..];
    assert forall i :: 0 <= i < |q| ==> q[i] == s[k + 1 + i];
    assert s == s[..k] + "-" + q;
  }

  predicate ValidField(v: Option<string>) {
    v.Some? && v.value == Strip(v.value) && 1 <= |v.value| <= 100
  }

  predicate ValidItem(r: RefItem) {
    r.Item? && !r.kind.OtherRef? && ValidField(r.id) && ValidField(r.verifiedAt)
  }

  /** A string of 1 to 100 characters without white space around it. */
  predicate Plain(v: Option<string>) {
    v.Some? && Trimmed(v.value) && 1 <= |v.value| <= 100
  }

  lemma FieldExactly(v: Option<string>)
    ensures ValidField(v) <==> Plain(v)
  {
    if v.Some? { StripTrims(v.value); }
  }

  /** What `_valid_references` promises: a list of at most ten references, pairwise different, each of a known type
      with a plain id and time. */
  predicate ReferencesOk(refs: Option<seq<RefItem>>) {
    && refs.Some? && |refs.value| <= 10
    && (forall i :: 0 <= i < |refs.value| ==>
          var r := refs.value[i];
          r.Item? && (r.kind.VenueRef? || r.kind.EventRef? || r.kind.OfferRef?) && Plain(r.id) && Plain(r.verifiedAt))
    && forall i, k :: 0 <= i < k < |refs.value| ==> refs.value[i] != refs.value[k]
  }

  /** `_valid_references`: one pass with a set of the references seen so far. */
  method ValidReferences(refs: Option<seq<RefItem>>) returns (ok: bool)
    ensures ok == ReferencesOk(refs)
  {
    if refs.None? || |refs.value| > MAX_REFERENCES {
      return false;
    }
    var seen: set<RefItem> := {};
    for n := 0 to |refs.value|
      invariant forall i :: 0 <= i < n ==>
        var r := refs.value[i];
        r.Item? && (r.kind.VenueRef? || r.kind.EventRef? || r.kind.OfferRef?) && Plain(r.id) && Plain(r.verifiedAt)
      invariant forall i, k :: 0 <= i < k < n ==> refs.value[i] != refs.value[k]
      invariant seen == set i | 0 <= i < n :: refs.value[i]
    {
      var item := refs.value[n];
      if item.Item? {
        FieldExactly(item.id);
        FieldExactly(item.verifiedAt);
      }
      if !ValidItem(item) || item in seen {
        return false;
      }
      seen := seen + {item};
    }
    return true;
  }

  predicate ValidAgentPayload(p: Payload) {
    && p.shape.AgentFields? && ValidText(p.text) && ValidLanguage(p.language) && ValidSource(p.source)
    && ReferencesOk(p.refs)
  }

  predicate SafeReason(r: Reason) {
    r.CatalogAnswer? || r.Greeting? || r.Thanks? || r.Farewell?
  }

  /** `Policy.decide`, its early returns in order. */
  function Decide(kind: ActionKind, p: Payload, channel: Channel, paused: bool, f: Facts): Outcome {
    if kind.UnknownAction? then Blocked
    else if kind.EscalateToOwner? then Escalated
    else if kind.DraftReply? then PendingApproval
    else if kind.HumanReply? then
      if !channel.Instagram? then Blocked
      else if !p.shape.TextOnly? || !ValidText(p.text) then Blocked
      else Allowed
    else if paused then Escalated
    else if f.needsHuman then Escalated
    else if f.restricted then Escalated
    else if kind.NoAction? then
      if f.controlledIn then Escalated
      else if p.structured != Flag(true) then PendingApproval
      else if !p.shape.AgentFields? || !p.action.Ignore? || !p.reason.SpamOrNonMessage?
              || !(p.text.Null? || p.text == Str("")) || !ValidLanguage(p.language) || !ValidSource(p.source)
              || !ReferencesOk(p.refs) || p.refs.value != [] then Escalated
      else Outcome.Ignored
    else if !channel.Instagram? then PendingApproval
    else if p.structured != Flag(true) then PendingApproval
    else if !ValidAgentPayload(p) then Escalated
    else if f.prohibited then Escalated
    else if p.action.AskClarification? && p.reason.MissingDetails? then
      if p.refs.value != [] then Escalated else Allowed
    else if !p.action.Reply? || !SafeReason(p.reason) then Escalated
    else if (f.controlledIn || f.controlledOut) && !p.reason.CatalogAnswer? then Escalated
    else if p.reason.CatalogAnswer? then
      if p.refs.value == [] then Escalated else Allowed
    else if p.refs.value != [] then Escalated
    else Allowed
  }

  /** A reply of the agent that the policy's documentation calls eligible: complete and structured, with
      catalog references exactly when it is a catalog answer, and touching a controlled topic only then. */
  ghost predicate Eligible(p: Payload, f: Facts) {
    && p.shape.AgentFields? && p.structured == Flag(true) && ValidText(p.text) && ValidLanguage(p.language)
    && ValidSource(p.source) && ReferencesOk(p.refs) && !f.prohibited
    && (|| (p.action.AskClarification? && p.reason.MissingDetails? && p.refs.value == [])
        || (p.action.Reply? && p.reason.CatalogAnswer? && p.refs.value != [])
        || (p.action.Reply? && (p.reason.Greeting? || p.reason.Thanks? || p.reason.Farewell?) && p.refs.value == []
            && !f.controlledIn && !f.controlledOut))
  }

  /** Nothing about the customer's message or the conversation calls for a human. */
  predicate Unremarkable(paused: bool, f: Facts) {
    !paused && !f.needsHuman && !f.restricted
  }

  /** A message that may be dropped without an answer: a complete, structured decision that it is spam, without text or
      references, on a message that touches no controlled topic. */
  ghost predicate Spam(p: Payload, f: Facts) {
    && p.shape.AgentFields? && p.structured == Flag(true) && p.action.Ignore? && p.reason.SpamOrNonMessage?
    && (p.text.Null? || p.text == Str("")) && ValidLanguage(p.language) && ValidSource(p.source)
    && p.refs == Some([]) && !f.controlledIn
  }

  /** Nothing but a well-formed human reply or an eligible agent reply on Instagram is ever allowed, and both are. */
  lemma AllowedExactly(kind: ActionKind, p: Payload, channel: Channel, paused: bool, f: Facts)
    ensures Decide(kind, p, channel, paused, f).Allowed? <==>
      && channel.Instagram?
      && (|| (kind.HumanReply? && p.shape.TextOnly? && ValidText(p.text))
          || (kind.SendReply? && Unremarkable(paused, f) && Eligible(p, f)))
  {
    hide ReferencesOk, ValidText, ValidLanguage, ValidSource;
  }

  /** Nothing is dropped but spam, as the agent's complete decision says and nothing in the message contradicts. */
  lemma IgnoredExactly(kind: ActionKind, p: Payload, channel: Channel, paused: bool, f: Facts)
    ensures Decide(kind, p, channel, paused, f).Ignored? <==> kind.NoAction? && Unremarkable(paused, f) && Spam(p, f)
  {
    hide ValidText, ValidLanguage, ValidSource;
  }

  /** Blocked are unknown actions, and human replies that are malformed or not for Instagram. */
  lemma BlockedExactly(kind: ActionKind, p: Payload, channel: Channel, paused: bool, f: Facts)
    ensures Decide(kind, p, channel, paused, f).Blocked? <==>
      || kind.UnknownAction?
      || (kind.HumanReply? && !(channel.Instagram? && p.shape.TextOnly? && ValidText(p.text)))
  {
    hide ReferencesOk, ValidText, ValidLanguage, ValidSource;
  }

  /** Left for approval are drafts, and unremarkable messages that the agent answered for another channel, or ignored
      or answered without structure; a message on a controlled topic is not ignored even so. */
  lemma PendingExactly(kind: ActionKind, p: Payload, channel: Channel, paused: bool, f: Facts)
    ensures Decide(kind, p, channel, paused, f).PendingApproval? <==>
      || kind.DraftReply?
      || (Unremarkable(paused, f) && kind.NoAction? && !f.controlledIn && p.structured != Flag(true))
      || (Unremarkable(paused, f) && kind.SendReply? && (!channel.Instagram? || p.structured != Flag(true)))
  {
    hide ReferencesOk, ValidText, ValidLanguage, ValidSource;
  }
}
