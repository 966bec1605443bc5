/** The message budget of backend/ai_reply_engine.py: `_fit`, and the end of `compile_effective_context`. */
module PromptModel {
  import opened Common
  import opened PythonText

  const MAX_MESSAGE := 14500
  const MAX_TOTAL := 48000
  const MAX_HISTORY := 8
  const MAX_HISTORY_TEXT := 2000
  const MAX_CURRENT := 4000

  datatype Role = SystemRole | UserRole | AssistantRole

  datatype Message = Message(role: Role, content: string)

  /** An item of the stored history; Unusable has another role or shape. */
  datatype RawMessage = Unusable | Said(role: Role, content: string)

  function Blanked(s: string): string {
    seq(|s|, i requires 0 <= i < |s| => if IsForbidden(s[i]) then ' ' else s[i])
  }

  /** `_fit` */
  function Fit(text: string, limit: nat): string {
    var clean := Blanked(Strip(text));
    if |clean| <= limit then clean
    else if limit <= 1 then clean[..limit]
    else StripRight(clean[..limit - 1]) + "…"
  }

  function Total(ms: seq<Message>): nat {
    if ms == [] then 0 else |ms[0].content| + Total(ms[1..])
  }

  function LastEight(history: seq<RawMessage>): seq<RawMessage> {
    if |history| <= MAX_HISTORY then history else history[|history| - MAX_HISTORY..]
  }

  predicate Usable(m: RawMessage) {
    m.Said? && !m.role.SystemRole? && Fit(m.content, MAX_HISTORY_TEXT) != ""
  }

  function CleanOne(m: RawMessage): seq<Message> {
    if Usable(m) then [Message(m.role, Fit(m.content, MAX_HISTORY_TEXT))] else []
  }

  /** The history messages that reach the prompt. */
  function Cleaned(history: seq<RawMessage>): seq<Message> {
    if history == [] then [] else CleanOne(history[0]) + Cleaned(history[1..])
  }

  /** `clean_text` on the buyer's message. */
  function CleanCurrent(text: string): Option<string> {
    if Strip(text) == "" || |Strip(text)| > MAX_CURRENT || HasControl(Strip(text)) then None else Some(Strip(text))
  }

  function Layers(system: string, store: string, product: string): seq<Message> {
    [Message(SystemRole, system), Message(SystemRole, Fit(store, MAX_MESSAGE)),
     Message(SystemRole, Fit(product, MAX_MESSAGE))]
  }

  /** Python's `list.remove` of an element that is present. */
  function RemoveFirst(ms: seq<Message>, m: Message): seq<Message> {
    if ms == [] then [] else if ms[0] == m then ms[1..] else [ms[0]] + RemoveFirst(ms[1..], m)
  }

  /** The compression of the two optional layers. */
  function Compressed(ms: seq<Message>): seq<Message>
    requires |ms| >= 3
  {
    ms[1 := ms[1].(content := Fit(ms[1].content, 5000))][2 := ms[2].(content := Fit(ms[2].content, 9000))]
  }

  /** What follows the trimming loop: compression, and the two size errors. */
  function Finished(ms: seq<Message>): Option<seq<Message>>
    requires |ms| >= 3
  {
    var out := if Total(ms) > MAX_TOTAL then Compressed(ms) else ms;
    if (exists i :: 0 <= i < |out| && |out[i].content| > MAX_MESSAGE) || Total(out) > MAX_TOTAL then None else Some(out)
  }

  /** The message list before trimming. */
  function Assembled(layers: seq<Message>, history: seq<Message>, current: Message): seq<Message> {
    layers + history + [current]
  }
}

module PromptBudget {
  import opened Common
  import opened PythonText
  import opened PromptModel

  lemma {:induction false} FitLength(text: string, limit: nat)
    ensures |Fit(text, limit)| <= limit
  {
    var clean := Blanked(Strip(text));
    if |clean| > limit > 1 {
      StripRightEnds(clean[..limit - 1]);
    }
  }

  lemma {:induction false} TotalJoin(a: seq<Message>, b: seq<Message>)
    ensures Total(a + b) == Total(a) + Total(b)
  {
    if a == [] {
      assert a + b == b;
    } else {
      assert (a + b)[1..] == a[1..] + b;
      TotalJoin(a[1..], b);
    }
  }

  lemma {:induction false} TotalBound(ms: seq<Message>, limit: nat)
    requires forall i :: 0 <= i < |ms| ==> |ms[i].content| <= limit
    ensures Total(ms) <= limit * |ms|
  {
    if ms != [] {
      TotalBound(ms[1..], limit);
      assert limit * |ms| == limit + limit * (|ms| - 1);
    }
  }

  /** What the history contributes: short, non-empty messages that are not system messages. */
  ghost predicate IsHistory(ms: seq<Message>) {
    forall i :: 0 <= i < |ms| ==> 0 < |ms[i].content| <= MAX_HISTORY_TEXT && !ms[i].role.SystemRole?
  }

  lemma {:induction false} CleanedIsHistory(history: seq<RawMessage>)
    ensures IsHistory(Cleaned(history)) && |Cleaned(history)| <= |history|
  {
    if history != [] {
      CleanedIsHistory(history[1..]);
      if Usable(history[0]) {
        FitLength(history[0].content, MAX_HISTORY_TEXT);
      }
    }
  }

  /** The three layers and the current message leave room for seven history messages. */
  lemma {:induction false} LayersTotal(layers: seq<Message>, h: seq<Message>, current: Message)
    requires IsLayers(layers) && |current.content| <= MAX_CURRENT && IsHistory(h)
    ensures Total(Assembled(layers, h, current)) <= 34000 + MAX_HISTORY_TEXT * |h|
  {
    TotalJoin(layers, h);
    TotalJoin(layers + h, [current]);
    TotalBound(h, MAX_HISTORY_TEXT);
    TotalBound([current], MAX_CURRENT);
    assert layers == [layers[0]] + [layers[1], layers[2]];
    TotalJoin([layers[0]], [layers[1], layers[2]]);
    TotalBound([layers[0]], 1000);
    TotalBound([layers[1], layers[2]], MAX_MESSAGE);
  }

  ghost predicate IsLayers(layers: seq<Message>) {
    && |layers| == 3 && |layers[0].content| <= 1000 && |layers[1].content| <= MAX_MESSAGE
         && |layers[2].content| <= MAX_MESSAGE
    && forall i :: 0 <= i < 3 ==> layers[i].role.SystemRole?
  }

  lemma {:induction false} RemovePast(a: seq<Message>, b: seq<Message>, m: Message)
    requires m !in a && b != [] && b[0] == m
    ensures RemoveFirst(a + b, m) == a + b[1..]
  {
    if a == [] {
      assert a + b == b;
    } else {
      assert (a + b)[1..] == a[1..] + b;
      RemovePast(a[1..], b, m);
      assert a + b[1..] == [a[0]] + (a[1..] + b[1..]);
    }
  }

  /** Removing by value takes the oldest history message, wherever an equal one follows. */
  lemma {:induction false} RemovesOldest(layers: seq<Message>, h: seq<Message>, current: Message)
    requires IsLayers(layers) && IsHistory(h) && h != []
    ensures RemoveFirst(Assembled(layers, h, current), h[0]) == Assembled(layers, h[1..], current)
  {
    assert h[0] !in layers;
    assert layers + h + [current] == layers + (h + [current]);
    RemovePast(layers, h + [current], h[0]);
    assert (h + [current])[1..] == h[1..] + [current];
    assert layers + (h[1..] + [current]) == layers + h[1..] + [current];
  }

  /** How many history messages are trimmed. */
  function Trimmed(all: seq<Message>): nat {
    if Total(all) > MAX_TOTAL then 1 else 0
  }

  /** The trimming loop. */
  method Trim(layers: seq<Message>, history: seq<Message>, current: Message) returns (messages: seq<Message>)
    requires IsLayers(layers) && IsHistory(history) && |history| <= MAX_HISTORY && |current.content| <= MAX_CURRENT
    ensures var k := Trimmed(Assembled(layers, history, current));
            k <= |history| && messages == Assembled(layers, history[k..], current) && Total(messages) <= MAX_TOTAL
  {
    messages := Assembled(layers, history, current);
    var rest := history;
    ghost var k := 0;
    while Total(messages) > MAX_TOTAL && rest != []
      invariant k <= |history| && rest == history[k..] && messages == Assembled(layers, rest, current)
      invariant k == 0 || (k == 1 && Total(Assembled(layers, history, current)) > MAX_TOTAL)
      decreases |rest|
    {
      LayersTotal(layers, rest, current);
      RemovesOldest(layers, rest, current);
      messages := RemoveFirst(messages, rest[0]);
      rest, k := rest[1..], k + 1;
    }
    LayersTotal(layers, rest, current);
  }

  lemma {:induction false} LayersFit(system: string, store: string, product: string)
    requires |system| <= 1000
    ensures IsLayers(Layers(system, store, product))
  {
    FitLength(store, MAX_MESSAGE);
    FitLength(product, MAX_MESSAGE);
  }

  method CleanItem(m: RawMessage) returns (out: seq<Message>)
    ensures out == CleanOne(m)
  {
    if !m.Said? || m.role.SystemRole? {
      return [];
    }
    var text := Fit(m.content, MAX_HISTORY_TEXT);
    out := if text == "" then [] else [Message(m.role, text)];
  }

  /** The loop over the stored history. */
  method CleanHistory(history: seq<RawMessage>) returns (clean: seq<Message>)
    ensures clean == Cleaned(LastEight(history))
  {
    clean := [];
    var rest := LastEight(history);
    ghost var total := Cleaned(rest);
    while rest != []
      invariant clean + Cleaned(rest) == total
      decreases |rest|
    {
      var more := CleanItem(rest[0]);
      clean, rest := clean + more, rest[1..];
    }
  }

  /**
   * `compile_effective_context` from the layer texts on.  The only error is an
   * unusable current message; at most one history message is dropped, the
   * oldest; nothing is compressed.
   */
  method CompileContext(system: string, store: string, product: string, history: seq<RawMessage>, text: string)
    returns (out: Option<seq<Message>>)
    requires |system| <= 1000
    ensures out.Some? <==> CleanCurrent(text).Some?
    ensures out.Some? ==>
              var layers, h := Layers(system, store, product), Cleaned(LastEight(history));
              var current := Message(UserRole, CleanCurrent(text).value);
              var k := Trimmed(Assembled(layers, h, current));
              k <= |h| && out.value == layers + h[k..] + [current]
    ensures out.Some? ==> Total(out.value) <= 48000 && forall i :: 0 <= i < |out.value| ==>
              |out.value[i].content| <= 14500
  {
    var current := CleanCurrent(text);
    if current.None? {
      return None;
    }
    var clean := CleanHistory(history);
    CleanedIsHistory(LastEight(history));
    LayersFit(system, store, product);
    var messages := Trim(Layers(system, store, product), clean, Message(UserRole, current.value));
    WithinLimits(Layers(system, store, product), clean, Message(UserRole, current.value), messages);
    out := Finished(messages);
  }

  /** After trimming, neither compression nor a size error applies. */
  lemma {:induction false} WithinLimits(layers: seq<Message>, h: seq<Message>, current: Message, ms: seq<Message>)
    requires IsLayers(layers) && IsHistory(h) && |current.content| <= MAX_CURRENT && Total(ms) <= MAX_TOTAL
    requires exists k :: 0 <= k <= |h| && ms == Assembled(layers, h[k..], current)
    ensures |ms| >= 3 && Finished(ms) == Some(ms) && forall i :: 0 <= i < |ms| ==> |ms[i].content| <= MAX_MESSAGE
  {
  }

  // The budget is tight.

  function Letters(n: nat): string {
    seq(n, _ => 'a')
  }

  lemma {:induction false} LettersFit(n: nat, limit: nat)
    requires n <= limit
    ensures Fit(Letters(n), limit) == Letters(n) && Strip(Letters(n)) == Letters(n) && !HasControl(Letters(n))
  {
    assert Strip(Letters(n)) == Letters(n);
  }

  lemma {:induction false} AllSaid(n: nat, history: seq<RawMessage>, clean: seq<Message>)
    requires |history| == |clean| && 0 < n <= MAX_HISTORY_TEXT
    requires forall i :: 0 <= i < |history| ==> history[i] == Said(UserRole, Letters(n))
    requires forall i :: 0 <= i < |clean| ==> clean[i] == Message(UserRole, Letters(n))
    ensures Cleaned(history) == clean
  {
    if history != [] {
      LettersFit(n, MAX_HISTORY_TEXT);
      AllSaid(n, history[1..], clean[1..]);
      assert clean == [clean[0]] + clean[1..];
    }
  }

  /** A prompt that is full everywhere does lose its oldest message. */
  lemma {:induction false} FullPromptIsTrimmed(system: string)
    requires |system| == 1000
    ensures var text, history := Letters(MAX_MESSAGE), seq(MAX_HISTORY, _ => Said(UserRole, Letters(MAX_HISTORY_TEXT)));
            && CleanCurrent(Letters(MAX_CURRENT)) == Some(Letters(MAX_CURRENT))
            && Trimmed(Assembled(Layers(system, text, text), Cleaned(LastEight(history)),
                                 Message(UserRole, Letters(MAX_CURRENT)))) == 1
  {
    var text, history := Letters(MAX_MESSAGE), seq(MAX_HISTORY, _ => Said(UserRole, Letters(MAX_HISTORY_TEXT)));
    var clean := seq(MAX_HISTORY, _ => Message(UserRole, Letters(MAX_HISTORY_TEXT)));
    LettersFit(MAX_MESSAGE, MAX_MESSAGE);
    LettersFit(MAX_CURRENT, MAX_CURRENT);
    AllSaid(MAX_HISTORY_TEXT, history, clean);
    FullTotal(Layers(system, text, text), clean, Message(UserRole, Letters(MAX_CURRENT)));
  }

  lemma {:induction false} FullTotal(layers: seq<Message>, h: seq<Message>, current: Message)
    requires |layers| == 3 && |h| == MAX_HISTORY && |current.content| == MAX_CURRENT
    requires |layers[0].content| == 1000 && |layers[1].content| == |layers[2].content| == MAX_MESSAGE
    requires forall i :: 0 <= i < |h| ==> |h[i].content| == MAX_HISTORY_TEXT
    ensures Total(Assembled(layers, h, current)) == 50000
  {
    TotalJoin(layers, h);
    TotalJoin(layers + h, [current]);
    assert layers == [layers[0]] + [layers[1], layers[2]];
    TotalJoin([layers[0]], [layers[1], layers[2]]);
    TotalExact([layers[0]], 1000);
    TotalExact([layers[1], layers[2]], MAX_MESSAGE);
    TotalExact(h, MAX_HISTORY_TEXT);
    TotalExact([current], MAX_CURRENT);
  }

  lemma {:induction false} TotalExact(ms: seq<Message>, size: nat)
    requires forall i :: 0 <= i < |ms| ==> |ms[i].content| == size
    ensures Total(ms) == size * |ms|
  {
    if ms != [] {
      TotalExact(ms[1..], size);
      assert size * |ms| == size + size * (|ms| - 1);
    }
  }
}

/** What the pieces of a prompt are, in terms of the texts they are made from. */
module PromptLaws {
  import opened Common
  import opened PythonText
  import opened PromptModel
  import opened PromptBudget

  /** The same text with spaces for its control characters; tab, newline and carriage return stay. */
  predicate Blanks(s: string, out: string) {
    && |out| == |s|
    && forall i :: 0 <= i < |s| ==>
         if (s[i] < ' ' || s[i] as int == 127) && s[i] !in "\t\n\r" then out[i] == ' ' else out[i] == s[i]
  }

  lemma {:induction false} BlankedMeans(s: string)
    ensures Blanks(s, Blanked(s))
  {
  }

  /**
   * A fitted text is the trimmed text with its control characters blanked, if
   * that is short enough; else as much of it as leaves room for an ellipsis,
   * without white space before the ellipsis.
   */
  lemma {:induction false} FitMeans(text: string, limit: nat) returns (clean: string, kept: nat)
    ensures Blanks(Strip(text), clean) && kept <= |clean|
    ensures |clean| <= limit ==> Fit(text, limit) == clean
    ensures |clean| > limit && limit <= 1 ==> Fit(text, limit) == clean[..limit]
    ensures |clean| > limit > 1 ==>
              && Fit(text, limit) == clean[..kept] + "…" && kept < limit
              && (forall i :: kept <= i < limit - 1 ==> IsSpace(clean[i]))
              && (kept > 0 ==> !IsSpace(clean[kept - 1]))
  {
    clean, kept := Blanked(Strip(text)), 0;
    BlankedMeans(Strip(text));
    if |clean| > limit > 1 {
      kept := EllipsisAfter(clean, limit - 1);
    }
  }

  lemma {:induction false} EllipsisAfter(clean: string, room: nat) returns (kept: nat)
    requires room <= |clean|
    ensures kept <= room && StripRight(clean[..room]) == clean[..kept]
    ensures (forall i :: kept <= i < room ==> IsSpace(clean[i])) && (kept > 0 ==> !IsSpace(clean[kept - 1]))
  {
    var front := clean[..room];
    var right := StripRightMeans(front);
    StripRightEnds(front);
    kept := |StripRight(front)|;
    assert forall i :: kept <= i < room ==> clean[i] == front[i] == right[i - kept];
  }

  /** The usable messages of two stretches of history are those of the one and then those of the other. */
  lemma {:induction false} CleanedJoin(a: seq<RawMessage>, b: seq<RawMessage>)
    ensures Cleaned(a + b) == Cleaned(a) + Cleaned(b)
  {
    if a == [] {
      assert a + b == b;
    } else {
      assert (a + b)[1..] == a[1..] + b;
      CleanedJoin(a[1..], b);
    }
  }

  /** Of a stored item the prompt has the buyer's or assistant's text, fitted to 2000 characters, unless blank. */
  lemma {:induction false} CleanedItem(m: RawMessage)
    ensures Cleaned([m]) ==
              match m
              case Said(UserRole, text) => if Blank(text) then [] else [Message(UserRole, Fit(text, 2000))]
              case Said(AssistantRole, text) => if Blank(text) then [] else [Message(AssistantRole, Fit(text, 2000))]
              case _ => []
  {
    assert [m][1..] == [];
    if m.Said? {
      var clean, kept := FitMeans(m.content, 2000);
      BlankMeans(m.content);
    }
  }

  /** The history is cut to its last eight items before that. */
  lemma {:induction false} LastEightMeans(history: seq<RawMessage>) returns (older: seq<RawMessage>)
    ensures history == older + LastEight(history) && |LastEight(history)| <= 8
    ensures older != [] ==> |LastEight(history)| == 8
  {
    older := history[..|history| - |LastEight(history)|];
  }

  /** The buyer's message goes in trimmed, and is refused when blank, too long or with control characters. */
  lemma {:induction false} CurrentMeans(text: string, out: string)
    ensures CleanCurrent(text) == Some(out) <==>
              && out == Strip(text) && !Blank(text) && |out| <= 4000
              && forall c :: c in out ==> (c >= ' ' && c as int != 127) || c == '\t' || c == '\n' || c == '\r'
  {
    BlankMeans(text);
    ControlMeans(Strip(text));
  }

  /** Three system messages lead the prompt: the rules as they are, then the store's and the product's text. */
  lemma {:induction false} LayersMean(system: string, store: string, product: string)
    ensures var layers := Layers(system, store, product);
            && |layers| == 3 && (forall i :: 0 <= i < 3 ==> layers[i].role == SystemRole)
            && layers[0].content == system && layers[1].content == Fit(store, 14500)
            && layers[2].content == Fit(product, 14500)
  {
  }

  /** The compression fits the store's text to 5000 and the product's to 9000 characters; no other message changes. */
  lemma {:induction false} CompressedMeans(ms: seq<Message>)
    requires |ms| >= 3
    ensures var out := Compressed(ms);
            && |out| == |ms| && out[1] == Message(ms[1].role, Fit(ms[1].content, 5000))
            && out[2] == Message(ms[2].role, Fit(ms[2].content, 9000))
            && forall i :: 0 <= i < |ms| && i != 1 && i != 2 ==> out[i] == ms[i]
  {
  }

  /** The total is the sum of the lengths, and one message goes exactly when it is above 48000. */
  lemma {:induction false} TotalMeans(a: seq<Message>, m: Message)
    ensures Total([]) == 0 && Total(a + [m]) == Total(a) + |m.content|
    ensures PromptBudget.Trimmed(a) == (if Total(a) > 48000 then 1 else 0)
  {
    TotalJoin(a, [m]);
    assert [m][1..] == [];
  }
}
