/** Topic matching: searching for a padded phrase inside a padded text finds exactly whole words in a row. */
module Topics {
  import opened Text

  /** The characters of a token: lower-case ASCII letters and digits. */
  predicate IsToken(c: char) {
    'a' <= c <= 'z' || '0' <= c <= '9'
  }

  function RunLength(s: string, p: char -> bool): (n: nat)
    ensures n <= |s| && (forall i :: 0 <= i < n ==> p(s[i])) && (n < |s| ==> !p(s[n]))
  {
    if s == "" || !p(s[0]) then 0 else 1 + RunLength(s[1..], p)
  }

  /** The maximal runs of characters with `p`, in order. */
  function Runs(s: string, p: char -> bool): seq<string>
    decreases |s|
  {
    if s == "" then []
    else if !p(s[0]) then Runs(s[1..], p)
    else
      var n := RunLength(s, p);
      [s[..n]] + Runs(s[n..], p)
  }

  /** The alphanumeric tokens of a text. */
  function Tokens(s: string): seq<string> {
    Runs(s, IsToken)
  }

  predicate NotSpace(c: char) {
    !IsSpace(c)
  }

  /** The words of a text, separated by any white space. */
  function Split(s: string): seq<string> {
    Runs(s, NotSpace)
  }

  /** The words with single spaces between them. */
  function Join(ws: seq<string>): string {
    if ws == [] then "" else if |ws| == 1 then ws[0] else ws[0] + " " + Join(ws[1..])
  }

  /** `_normalized_text`, from text that is case-folded and stripped of marks already. */
  function Normalize(s: string): string {
    Join(Tokens(s))
  }

  predicate OccursAt(needle: string, s: string, i: nat) {
    i + |needle| <= |s| && s[i..i + |needle|] == needle
  }

  /** `needle` is a substring of `s`. */
  predicate Occurs(needle: string, s: string) {
    exists i: nat :: i <= |s| && OccursAt(needle, s, i)
  }

  function Padded(s: string): string {
    " " + s + " "
  }

  /** `_contains_phrase` */
  predicate ContainsPhrase(normalized: string, phrases: set<string>) {
    exists phrase :: phrase in phrases && Occurs(Padded(phrase), Padded(normalized))
  }

  /** `controlled_topic_present`, for these words and phrases. */
  predicate ControlledTopic(text: string, words: set<string>, phrases: set<string>) {
    var normalized := Normalize(text);
    || (exists w :: w in Split(normalized) && w in words)
    || ContainsPhrase(normalized, phrases)
  }

  // ----------------------------------------------------------- specification

  predicate WindowAt(ws: seq<string>, ts: seq<string>, i: nat) {
    i + |ws| <= |ts| && ts[i..i + |ws|] == ws
  }

  /** `ws` stands in `ts` as consecutive elements. */
  predicate Window(ws: seq<string>, ts: seq<string>) {
    exists i: nat :: i <= |ts| && WindowAt(ws, ts, i)
  }

  predicate IsWord(w: string) {
    w != "" && forall i :: 0 <= i < |w| ==> IsToken(w[i])
  }

  predicate AreWords(ws: seq<string>) {
    forall k :: 0 <= k < |ws| ==> IsWord(ws[k])
  }

  /** The form every phrase of the policy's list is written in. */
  predicate IsPhrase(p: string) {
    p != "" && Normalize(p) == p
  }

  // --------------------------------------------------------- joining tokens

  lemma {:induction false} RunsAreWords(s: string)
    ensures AreWords(Tokens(s))
    decreases |s|
  {
    if s != "" {
      if IsToken(s[0]) {
        var n := RunLength(s, IsToken);
        RunsAreWords(s[n..]);
        assert IsWord(s[..n]);
      } else {
        RunsAreWords(s[1..]);
      }
    }
  }

  /** A run followed by a separator, or by nothing, is the first run. */
  lemma {:induction false} FirstRun(w: string, rest: string, p: char -> bool)
    requires w != "" && (forall i :: 0 <= i < |w| ==> p(w[i])) && (rest != "" ==> !p(rest[0]))
    ensures Runs(w + rest, p) == [w] + Runs(rest, p)
  {
    var s := w + rest;
    var n := RunLength(s, p);
    assert (forall i :: 0 <= i < |w| ==> s[i] == w[i]) && (rest != "" ==> s[|w|] == rest[0]);
    assert n == |w|;
    assert s[0] == w[0] && s[..n] == w && s[n..] == rest;
  }

  /** Splitting what was joined gives the words back, for any notion of word character that the words satisfy and
      the space does not. */
  lemma {:induction false} RunsOfJoin(ws: seq<string>, p: char -> bool)
    requires !p(' ')
    requires forall k :: 0 <= k < |ws| ==> ws[k] != "" && forall i :: 0 <= i < |ws[k]| ==> p(ws[k][i])
    ensures Runs(Join(ws), p) == ws
  {
    if |ws| == 1 {
      FirstRun(ws[0], "", p);
      assert ws[0] + "" == ws[0] && ws == [ws[0]];
    } else if |ws| > 1 {
      RunsOfJoin(ws[1..], p);
      var rest := " " + Join(ws[1..]);
      assert rest[1..] == Join(ws[1..]);
      FirstRun(ws[0], rest, p);
      assert ws[0] + rest == Join(ws) && ws == [ws[0]] + ws[1..];
    }
  }

  /** Tokens survive joining and splitting, whether by token characters or by white space. */
  lemma TokensRoundTrip(ws: seq<string>)
    requires AreWords(ws)
    ensures Tokens(Join(ws)) == ws && Split(Join(ws)) == ws
  {
    forall k | 0 <= k < |ws|
      ensures ws[k] != "" && forall i :: 0 <= i < |ws[k]| ==> IsToken(ws[k][i]) && NotSpace(ws[k][i])
    {
      assert IsWord(ws[k]);
    }
    RunsOfJoin(ws, IsToken);
    RunsOfJoin(ws, NotSpace);
  }

  /** Normalizing is idempotent and keeps the tokens. */
  lemma NormalizeIdempotent(s: string)
    ensures Normalize(Normalize(s)) == Normalize(s)
    ensures Tokens(Normalize(s)) == Tokens(s) == Split(Normalize(s))
  {
    RunsAreWords(s);
    TokensRoundTrip(Tokens(s));
  }

  // ------------------------------------------------------- padding and windows

  /** " w1 w2 ... wn ", and a single space for no words. */
  function Pad(ws: seq<string>): (r: string)
    ensures |r| >= 1 && r[0] == ' '
  {
    if ws == [] then " " else " " + ws[0] + Pad(ws[1..])
  }

  lemma {:induction false} PadIsPadded(ws: seq<string>)
    requires ws != []
    ensures Pad(ws) == Padded(Join(ws))
  {
    if |ws| > 1 {
      PadIsPadded(ws[1..]);
    }
  }

  lemma NoSpaces(w: string)
    requires IsWord(w)
    ensures ' ' !in w
  {}

  /** A padded list of words that starts another one starts it word by word. */
  /** Of two padded texts of which one starts the other, the first words agree. */
  lemma SameFirst(w: string, t: string, p: string, q: string)
    requires ' ' !in w && ' ' !in t && p != "" && p[0] == ' ' && q != "" && q[0] == ' '
    requires OccursAt(" " + w + p, " " + t + q, 0)
    ensures w == t && OccursAt(p, q, 0)
  {
    var needle, s := " " + w + p, " " + t + q;
    var rest := s[|needle|..];
    assert needle[1..] == w + p && s[1..] == t + q;
    assert s == s[0..0 + |needle|] + rest;
    assert w + p + rest == t + q;
    assert p == [' '] + p[1..] && q == [' '] + q[1..];
    assert w + [' '] + (p[1..] + rest) == w + p + rest;
    assert t + [' '] + q[1..] == t + q;
    SplitAtSeparator(w, t, p[1..] + rest, q[1..], ' ');
    assert q == p + rest;
  }

  lemma PrefixStep(ws: seq<string>, ts: seq<string>)
    requires ws != [] && AreWords(ws) && AreWords(ts) && OccursAt(Pad(ws), Pad(ts), 0)
    ensures ts != [] && ts[0] == ws[0] && OccursAt(Pad(ws[1..]), Pad(ts[1..]), 0)
  {
    assert IsWord(ws[0]);
    assert |Pad(ws)| >= 3;
    assert IsWord(ts[0]);
    NoSpaces(ws[0]);
    NoSpaces(ts[0]);
    SameFirst(ws[0], ts[0], Pad(ws[1..]), Pad(ts[1..]));
  }

  lemma {:induction false} PrefixIsWords(ws: seq<string>, ts: seq<string>)
    requires AreWords(ws) && AreWords(ts) && OccursAt(Pad(ws), Pad(ts), 0)
    ensures |ws| <= |ts| && ts[..|ws|] == ws
  {
    hide OccursAt, Pad, IsWord;
    if ws != [] {
      PrefixStep(ws, ts);
      PrefixIsWords(ws[1..], ts[1..]);
      assert ts[..|ws|] == [ts[0]] + ts[1..][..|ws| - 1];
    }
  }

  lemma {:induction false} PrefixOccurs(ws: seq<string>, ts: seq<string>)
    requires |ws| <= |ts| && ts[..|ws|] == ws
    ensures OccursAt(Pad(ws), Pad(ts), 0)
  {
    if ws != [] {
      assert ts[0] == ws[0] && ts[1..][..|ws| - 1] == ws[1..];
      PrefixOccurs(ws[1..], ts[1..]);
      var head := " " + ws[0];
      assert Pad(ws) == head + Pad(ws[1..]) && Pad(ts) == head + Pad(ts[1..]);
      assert Pad(ts)[..|Pad(ws)|] == head + Pad(ts[1..])[..|Pad(ws[1..])|];
    }
  }

  lemma NextSpace(w: string, rest: string, i: nat)
    requires IsWord(w) && 0 < i < 1 + |w| + |rest| && (" " + w + rest)[i] == ' '
    ensures i >= 1 + |w|
  {
    var s := " " + w + rest;
    assert forall k :: 0 < k < 1 + |w| ==> s[k] == w[k - 1] && IsToken(w[k - 1]);
  }

  /** Occurrences further in start at a later word, since words contain no space. */
  lemma {:induction false} OccurrenceIsWindow(ws: seq<string>, ts: seq<string>, i: nat)
    requires ws != [] && AreWords(ws) && AreWords(ts) && OccursAt(Pad(ws), Pad(ts), i)
    ensures Window(ws, ts)
    decreases |ts|
  {
    var needle, s := Pad(ws), Pad(ts);
    if i == 0 {
      PrefixIsWords(ws, ts);
      assert WindowAt(ws, ts, 0);
    } else {
      assert needle == s[i..i + |needle|];
      assert s[i] == needle[0] == ' ';
      assert |needle| >= 3 by { assert IsWord(ws[0]); }
      assert ts != [];
      var head := " " + ts[0];
      assert s == head + Pad(ts[1..]);
      assert i >= |head| by {
        assert IsWord(ts[0]);
        NextSpace(ts[0], Pad(ts[1..]), i);
      }
      assert s[i..i + |needle|] == Pad(ts[1..])[i - |head|..i - |head| + |needle|];
      OccurrenceIsWindow(ws, ts[1..], i - |head|);
      var k: nat :| k <= |ts[1..]| && WindowAt(ws, ts[1..], k);
      assert ts[k + 1..k + 1 + |ws|] == ts[1..][k..k + |ws|];
      assert WindowAt(ws, ts, k + 1);
    }
  }

  lemma {:induction false} WindowOccurs(ws: seq<string>, ts: seq<string>, k: nat)
    requires WindowAt(ws, ts, k)
    ensures Occurs(Pad(ws), Pad(ts))
    decreases k
  {
    if k == 0 {
      assert ts[0..0 + |ws|] == ts[..|ws|];
      PrefixOccurs(ws, ts);
      assert OccursAt(Pad(ws), Pad(ts), 0);
    } else {
      assert ts[1..][k - 1..k - 1 + |ws|] == ts[k..k + |ws|] == ws;
      assert WindowAt(ws, ts[1..], k - 1);
      WindowOccurs(ws, ts[1..], k - 1);
      var i: nat :| i <= |Pad(ts[1..])| && OccursAt(Pad(ws), Pad(ts[1..]), i);
      var head := " " + ts[0];
      assert Pad(ts) == head + Pad(ts[1..]);
      OccursLater(Pad(ws), head, Pad(ts[1..]), i);
    }
  }

  lemma OccursLater(needle: string, head: string, s: string, i: nat)
    requires OccursAt(needle, s, i)
    ensures Occurs(needle, head + s)
  {
    assert (head + s)[|head| + i..|head| + i + |needle|] == s[i..i + |needle|];
    assert OccursAt(needle, head + s, |head| + i);
  }

  /** The padded search on normalized text is exactly the search for the phrase's words, in a row, among the tokens
      of the text. */
  lemma PhraseIsWindow(phrase: string, text: string)
    requires IsPhrase(phrase)
    ensures Occurs(Padded(phrase), Padded(Normalize(text))) <==> Window(Tokens(phrase), Tokens(text))
  {
    var ws, ts := Tokens(phrase), Tokens(text);
    RunsAreWords(phrase);
    RunsAreWords(text);
    PadIsPadded(ws);
    if ts == [] {
      assert IsWord(ws[0]);
      if Occurs(Padded(phrase), Padded(Normalize(text))) { NothingInBlank(phrase, ws); }
    } else {
      PadIsPadded(ts);
      if Occurs(Pad(ws), Pad(ts)) {
        var i: nat :| i <= |Pad(ts)| && OccursAt(Pad(ws), Pad(ts), i);
        OccurrenceIsWindow(ws, ts, i);
      }
      if Window(ws, ts) {
        var k: nat :| k <= |ts| && WindowAt(ws, ts, k);
        WindowOccurs(ws, ts, k);
      }
    }
  }

  lemma NothingInBlank(phrase: string, ws: seq<string>)
    requires ws != [] && IsWord(ws[0]) && Padded(phrase) == Pad(ws)
    ensures !Occurs(Padded(phrase), Padded(""))
  {
    assert |Pad(ws)| >= 3;
  }

  /** A text touches a controlled topic exactly when one of its tokens is a listed word, or its tokens contain a
      listed phrase as consecutive words. */
  lemma ControlledExactly(text: string, words: set<string>, phrases: set<string>)
    requires forall p :: p in phrases ==> IsPhrase(p)
    ensures ControlledTopic(text, words, phrases) <==>
      || (exists w :: w in Tokens(text) && w in words)
      || (exists p :: p in phrases && Window(Tokens(p), Tokens(text)))
  {
    NormalizeIdempotent(text);
    forall p | p in phrases
      ensures Occurs(Padded(p), Padded(Normalize(text))) <==> Window(Tokens(p), Tokens(text))
    {
      PhraseIsWindow(p, text);
    }
  }

  // ---------------------------------------------------------- the policy's lists

  const CONTROLLED_WORDS: set<string> := {
    "vip", "taula", "taules", "mesa", "mesas", "reserva", "reservar", "reserves", "reservas", "reservacio",
    "reservacions", "reservation", "reservations", "guestlist", "llista", "llistes", "lista", "listas", "pagament",
    "pagaments", "pago", "pagos", "payment", "payments", "refund", "refunds", "reembolso", "reembolsos", "devolucio",
    "devolucions", "devolucion", "devoluciones", "queixa", "queixes", "queja", "quejas", "complaint", "complaints",
    "denuncia", "denuncias", "assetjament", "assetjaments", "acoso", "acosos", "harassment", "seguretat", "seguridad",
    "safety", "accident", "accidents", "dni", "passaport", "passaports", "pasaporte", "pasaportes", "passport",
    "passports", "targeta", "targetes", "tarjeta", "tarjetas", "card", "cards"
  }

  const CONTROLLED_PHRASES: set<string> := {
    "guest list", "llista de convidats", "lista de invitados", "credit card", "targeta de credit", "tarjeta de credito"
  }

  lemma TwoWords(a: string, b: string)
    requires IsWord(a) && IsWord(b)
    ensures IsPhrase(a + " " + b) && Tokens(a + " " + b) == [a, b]
  {
    TokensRoundTrip([a, b]);
    assert Join([a, b]) == a + " " + b;
  }

  lemma ThreeWords(a: string, b: string, c: string)
    requires IsWord(a) && IsWord(b) && IsWord(c)
    ensures IsPhrase(a + " " + b + " " + c) && Tokens(a + " " + b + " " + c) == [a, b, c]
  {
    TokensRoundTrip([a, b, c]);
    assert [a, b, c][1..] == [b, c];
    assert Join([b, c]) == b + " " + c;
    assert Join([a, b, c]) == a + " " + b + " " + c;
  }

  lemma GuestList()
    ensures var p := "guest list"; IsPhrase(p) && Tokens(p) == ["guest", "list"]
  {
    hide IsPhrase, Tokens;
    TwoWords("guest", "list");
    assert "guest" + " " + "list" == "guest list";
  }

  lemma CreditCard()
    ensures var p := "credit card"; IsPhrase(p) && Tokens(p) == ["credit", "card"]
  {
    hide IsPhrase, Tokens;
    TwoWords("credit", "card");
    assert "credit" + " " + "card" == "credit card";
  }

  lemma LlistaDeConvidats()
    ensures var p := "llista de convidats"; IsPhrase(p) && Tokens(p) == ["llista", "de", "convidats"]
  {
    hide IsPhrase, Tokens;
    ThreeWords("llista", "de", "convidats");
    assert "llista" + " " + "de" + " " + "convidats" == "llista de convidats";
  }

  lemma ListaDeInvitados()
    ensures var p := "lista de invitados"; IsPhrase(p) && Tokens(p) == ["lista", "de", "invitados"]
  {
    hide IsPhrase, Tokens;
    ThreeWords("lista", "de", "invitados");
    assert "lista" + " " + "de" + " " + "invitados" == "lista de invitados";
  }

  lemma TargetaDeCredit()
    ensures var p := "targeta de credit"; IsPhrase(p) && Tokens(p) == ["targeta", "de", "credit"]
  {
    hide IsPhrase, Tokens;
    ThreeWords("targeta", "de", "credit");
    assert "targeta" + " " + "de" + " " + "credit" == "targeta de credit";
  }

  lemma TarjetaDeCredito()
    ensures var p := "tarjeta de credito"; IsPhrase(p) && Tokens(p) == ["tarjeta", "de", "credito"]
  {
    hide IsPhrase, Tokens;
    ThreeWords("tarjeta", "de", "credito");
    assert "tarjeta" + " " + "de" + " " + "credito" == "tarjeta de credito";
  }

  lemma HoldsListed(p: string, w: string)
    requires w in CONTROLLED_WORDS && w in Tokens(p)
    ensures exists v :: v in Tokens(p) && v in CONTROLLED_WORDS
  {}

  /** Every phrase of the policy's list is in the form that the search relies on, and all but one hold a listed word. */
  lemma ListedPhrases(p: string)
    requires p in CONTROLLED_PHRASES
    ensures IsPhrase(p)
    ensures p == "guest list" || exists w :: w in Tokens(p) && w in CONTROLLED_WORDS
  {
    hide IsPhrase, Tokens;
    if p == "guest list" {
      GuestList();
    } else if p == "credit card" {
      CreditCard();
      HoldsListed(p, "card");
    } else if p == "llista de convidats" {
      LlistaDeConvidats();
      HoldsListed(p, "llista");
    } else if p == "lista de invitados" {
      ListaDeInvitados();
      HoldsListed(p, "lista");
    } else if p == "targeta de credit" {
      TargetaDeCredit();
      HoldsListed(p, "targeta");
    } else {
      TarjetaDeCredito();
      HoldsListed(p, "tarjeta");
    }
  }

  /** With the policy's own lists, a text touches a controlled topic exactly when one of its tokens is a listed word or
      "guest" is followed by "list": every other listed phrase holds a listed word already. */
  lemma PolicyTopicsExactly(text: string)
    ensures ControlledTopic(text, CONTROLLED_WORDS, CONTROLLED_PHRASES) <==>
      || (exists w :: w in Tokens(text) && w in CONTROLLED_WORDS)
      || Window(["guest", "list"], Tokens(text))
  {
    hide IsPhrase, Tokens, ControlledTopic, Window;
    var words, phrases := CONTROLLED_WORDS, CONTROLLED_PHRASES;
    forall p | p in phrases
      ensures IsPhrase(p)
    {
      ListedPhrases(p);
    }
    ControlledExactly(text, words, phrases);
    if p :| p in phrases && Window(Tokens(p), Tokens(text)) {
      ListedPhrases(p);
      if p != "guest list" {
        var w :| w in Tokens(p) && w in words;
        WindowHolds(Tokens(p), Tokens(text), w);
      }
    }
    GuestList();
  }

  lemma WindowHolds(ws: seq<string>, ts: seq<string>, w: string)
    requires Window(ws, ts) && w in ws
    ensures w in ts
  {
    var i: nat :| i <= |ts| && WindowAt(ws, ts, i);
    assert w in ts[i..i + |ws|];
  }

  // ------------------------------------------------------------ longer messages

  /** A separator splits the tokens of a text. */
  lemma {:induction false} TokensSplit(a: string, c: char, b: string)
    requires !IsToken(c)
    ensures Tokens(a + [c] + b) == Tokens(a) + Tokens(b)
    decreases |a|
  {
    var s := a + [c] + b;
    if a == "" {
      assert s[1..] == b;
    } else if !IsToken(a[0]) {
      TokensSplit(a[1..], c, b);
      assert s[1..] == a[1..] + [c] + b;
    } else {
      var n := RunLength(a, IsToken);
      var rest := a[n..] + [c] + b;
      TokensSplit(a[n..], c, b);
      FirstRun(a[..n], rest, IsToken);
      assert a[..n] + rest == s;
      assert [a[..n]] + (Tokens(a[n..]) + Tokens(b)) == Tokens(a) + Tokens(b);
    }
  }

  /** Nothing, or ending in a separator. */
  predicate Before(pre: string) {
    pre == "" || !IsToken(pre[|pre| - 1])
  }

  predicate After(post: string) {
    post == "" || !IsToken(post[0])
  }

  lemma TokensOfWhole(pre: string, text: string, post: string)
    requires Before(pre) && After(post)
    ensures Tokens(pre + text + post) == Tokens(pre) + Tokens(text) + Tokens(post)
  {
    assert Tokens(text + post) == Tokens(text) + Tokens(post) by {
      if post == "" {
        assert text + post == text;
      } else {
        TokensSplit(text, post[0], post[1..]);
        assert text + [post[0]] + post[1..] == text + post;
      }
    }
    if pre == "" {
      assert pre + text + post == text + post;
    } else {
      var n := |pre| - 1;
      TokensSplit(pre[..n], pre[n], text + post);
      TokensSplit(pre[..n], pre[n], "");
      assert pre[..n] + [pre[n]] + "" == pre;
      assert pre[..n] + [pre[n]] + (text + post) == pre + text + post;
    }
  }

  /** A match survives in any longer message that holds the text as whole words. */
  lemma MatchSurvives(pre: string, text: string, post: string, words: set<string>, phrases: set<string>)
    requires Before(pre) && After(post) && forall p :: p in phrases ==> IsPhrase(p)
    requires ControlledTopic(text, words, phrases)
    ensures ControlledTopic(pre + text + post, words, phrases)
  {
    hide Tokens, ControlledTopic, IsPhrase, Window;
    ControlledExactly(text, words, phrases);
    ControlledExactly(pre + text + post, words, phrases);
    TokensOfWhole(pre, text, post);
    var a, ts, b := Tokens(pre), Tokens(text), Tokens(post);
    if !(exists w :: w in ts && w in words) {
      var p :| p in phrases && Window(Tokens(p), ts);
      WindowInside(Tokens(p), a, ts, b);
    }
  }

  lemma WindowInside(ws: seq<string>, a: seq<string>, ts: seq<string>, b: seq<string>)
    requires Window(ws, ts)
    ensures Window(ws, a + ts + b)
  {
    var k: nat :| k <= |ts| && WindowAt(ws, ts, k);
    assert (a + ts + b)[|a| + k..|a| + k + |ws|] == ts[k..k + |ws|];
    assert WindowAt(ws, a + ts + b, |a| + k);
  }
}
