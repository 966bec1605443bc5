/**
 * Agent turns of backend/ai_provider_adapters.py: `parse_agent_response`, and
 * `_agent_replay`, which parses the stored provider data again before every
 * later request and refuses a turn that does not come out the same.
 */
module AgentText {
  import opened Common

  predicate IsControl(c: char) {
    c < ' ' || c == 127 as char
  }

  /** Text may hold tab, newline and carriage return. */
  predicate TextOk(s: string) {
    forall i :: 0 <= i < |s| ==> IsControl(s[i]) ==> s[i] == '\t' || s[i] == '\n' || s[i] == '\r'
  }

  predicate IdOk(s: string) {
    0 < |s| <= 512 && forall i :: 0 <= i < |s| ==> !IsControl(s[i])
  }

  predicate NameOk(s: string) {
    && 0 < |s| <= 64
    && forall i :: 0 <= i < |s| ==>
         'A' <= s[i] <= 'Z' || 'a' <= s[i] <= 'z' || '0' <= s[i] <= '9' || s[i] == '_' || s[i] == '-'
  }
}

/** The argument comparison of a replay: native arguments may carry extra nulls. */
module AgentArguments {
  import opened Common
  import opened Json
  import opened SchemaModel

  /** `_same_agent_arguments` */
  predicate Same(native: Json, canonical: Json)
    decreases native
  {
    if native.Obj? && canonical.Obj? then
      && canonical.fields.Keys <= native.fields.Keys
      && forall k :: k in native.fields ==>
           if k in canonical.fields then Same(native.fields[k], canonical.fields[k]) else native.fields[k] == Null
    else if native.Arr? && canonical.Arr? then
      && |native.items| == |canonical.items|
      && forall i :: 0 <= i < |native.items| ==> Same(native.items[i], canonical.items[i])
    else native == canonical
  }

  lemma {:induction false} SameReflexive(v: Json)
    ensures Same(v, v)
  {
    match v
    case Obj(fields) =>
      forall k | k in fields ensures Same(fields[k], fields[k]) {
        SameReflexive(fields[k]);
      }
    case Arr(items) =>
      forall i | 0 <= i < |items| ensures Same(items[i], items[i]) {
        SameReflexive(items[i]);
      }
    case _ =>
  }

  lemma {:induction false} SameTransitive(a: Json, b: Json, c: Json)
    requires Same(a, b) && Same(b, c)
    ensures Same(a, c)
    decreases a
  {
    if a.Obj? && c.Obj? {
      forall k | k in a.fields
        ensures if k in c.fields then Same(a.fields[k], c.fields[k]) else a.fields[k] == Null
      {
        if k in c.fields {
          SameTransitive(a.fields[k], b.fields[k], c.fields[k]);
        } else if k in b.fields {
          assert b.fields[k] == Null && Same(a.fields[k], Null);
        }
      }
    } else if a.Arr? && c.Arr? {
      forall i | 0 <= i < |a.items| ensures Same(a.items[i], c.items[i]) {
        SameTransitive(a.items[i], b.items[i], c.items[i]);
      }
    }
  }

  /** So it is a partial order: nulls are dropped in one direction only. */
  lemma {:induction false} SameAntisymmetric(a: Json, b: Json)
    requires Same(a, b) && Same(b, a)
    ensures a == b
    decreases a
  {
    if a.Obj? && b.Obj? {
      assert a.fields.Keys == b.fields.Keys;
      forall k | k in a.fields ensures a.fields[k] == b.fields[k] {
        SameAntisymmetric(a.fields[k], b.fields[k]);
      }
      assert a.fields == b.fields;
    } else if a.Arr? && b.Arr? {
      forall i | 0 <= i < |a.items| ensures a.items[i] == b.items[i] {
        SameAntisymmetric(a.items[i], b.items[i]);
      }
      assert a.items == b.items;
    }
  }

  /** Undoing wire-only nulls never leaves the relation, for any value and schema. */
  lemma {:induction false} UndoStaysSame(v: Json, s: Schema)
    ensures Same(v, Undo(v, s))
    decreases s, 1
  {
    match s
    case AnyOf(bs) => UndoFirstStaysSame(v, bs);
    case Node(_, props, _, items, _, _) =>
      if v.Obj? && props.Listed? {
        forall k | k in Undo(v, s).fields
          ensures Same(v.fields[k], Undo(v, s).fields[k])
        {
          if k in props.schemas {
            UndoStaysSame(v.fields[k], props.schemas[k]);
          } else {
            SameReflexive(v.fields[k]);
          }
        }
      } else if v.Arr? && items.Some? {
        forall i | 0 <= i < |v.items|
          ensures Same(v.items[i], Undo(v.items[i], items.value))
        {
          UndoStaysSame(v.items[i], items.value);
        }
      } else {
        SameReflexive(v);
      }
  }

  lemma {:induction false} UndoFirstStaysSame(v: Json, bs: seq<Schema>)
    ensures Same(v, UndoFirst(v, bs))
    decreases bs, 0
  {
    if bs == [] {
      SameReflexive(v);
    } else {
      UndoStaysSame(v, bs[0]);
      UndoFirstStaysSame(v, bs[1..]);
    }
  }
}

module AgentTurns {
  import opened Common
  import opened Json
  import opened SchemaModel
  import opened AgentText
  import opened AgentArguments

  datatype Provider = OpenAiChat | OpenAiResponses | Claude | Gemini

  datatype ToolCall = ToolCall(id: string, name: string, arguments: Json)

  /** The private continuation state of a turn. */
  datatype ProviderData = ProviderData(provider: Provider, payload: Json, callIds: Option<seq<string>>)

  datatype Turn = Turn(content: string, calls: seq<ToolCall>, data: ProviderData)

  /** JSON decoding of encoded arguments, and the random id for the n-th call. */
  datatype Env = Env(loads: string -> Option<Json>, uuid: nat -> string)

  const MAX_DEPTH := 96

  /** `_agent_json`: the value nests at most `room` levels deeper. */
  predicate Shallow(v: Json, room: int)
    decreases v
  {
    && room >= 0
    && (v.Arr? ==> forall i :: 0 <= i < |v.items| ==> Shallow(v.items[i], room - 1))
    && (v.Obj? ==> forall k :: k in v.fields ==> Shallow(v.fields[k], room - 1))
  }

  /** `dict.get`, which does not tell a missing key from a null. */
  function At(fields: map<string, Json>, k: string): Json {
    if k in fields then fields[k] else Null
  }

  predicate Truthy(v: Json) {
    match v
    case Null => false
    case Bool(b) => b
    case Int(i) => i != 0
    case Float(f) => f != 0.0
    case Str(s) => s != ""
    case Arr(items) => items != []
    case Obj(fields) => fields != map[]
  }

  predicate Blocks(v: Json) {
    v.Arr? && forall i :: 0 <= i < |v.items| ==> v.items[i].Obj?
  }

  function Keep(fields: map<string, Json>, keys: set<string>): map<string, Json> {
    map k | k in fields && k in keys :: fields[k]
  }

  predicate IsOrMissing(fields: map<string, Json>, k: string, s: string) {
    k in fields ==> fields[k] == Str(s)
  }

  function BlockText(fields: map<string, Json>): Option<string> {
    var kind := At(fields, "type");
    if kind != Str("text") && kind != Str("output_text") && kind != Str("refusal") then None
    else
      var text := At(fields, if kind == Str("refusal") then "refusal" else "text");
      if text.Str? && TextOk(text.s) then Some(text.s) else None
  }

  /** `_agent_response_text` */
  function ResponseText(v: Json): Option<string> {
    if v.Null? then Some("")
    else if v.Str? then if TextOk(v.s) then Some(v.s) else None
    else if Blocks(v) then JoinedText(v.items)
    else None
  }

  function JoinedText(blocks: seq<Json>): Option<string>
    requires forall i :: 0 <= i < |blocks| ==> blocks[i].Obj?
  {
    if blocks == [] then Some("")
    else
      var first, rest := BlockText(blocks[0].fields), JoinedText(blocks[1..]);
      if first.Some? && rest.Some? then Some(first.value + rest.value) else None
  }

  /** The nested `add`: `spare` is the id used when the provider may leave it out. */
  function Add(id: Json, name: Json, arguments: Json, encoded: bool, spare: Option<string>,
               env: Env): Option<ToolCall> {
    var decoded := if !encoded then Some(arguments)
                   else if arguments.Str? then env.loads(arguments.s) else None;
    var chosen := if spare.Some? && !Truthy(id) then Str(spare.value) else id;
    if decoded.Some? && decoded.value.Obj? && Shallow(decoded.value, MAX_DEPTH)
       && name.Str? && NameOk(name.s) && chosen.Str? && IdOk(chosen.s)
    then Some(ToolCall(chosen.s, name.s, decoded.value))
    else None
  }

  /** What one response block contributes: a call, visible text, and the block to store. */
  datatype Emit = Emit(call: Option<ToolCall>, text: string, native: Json)

  function WithCall(call: Option<ToolCall>, text: string, native: Json): Option<Emit> {
    if call.Some? then Some(Emit(call, text, native)) else None
  }

  function ChatBlock(b: map<string, Json>, env: Env): Option<Emit> {
    if !IsOrMissing(b, "type", "function") || !At(b, "function").Obj? then None
    else
      var f := At(b, "function").fields;
      WithCall(Add(At(b, "id"), At(f, "name"), At(f, "arguments"), true, None, env), "",
               Obj(map["function" := Obj(map["name" := At(f, "name"), "arguments" := At(f, "arguments")]),
                       "type" := Str("function"), "id" := At(b, "id")]))
  }

  const CALL_KEYS := {"type", "id", "call_id", "name", "arguments", "status"}
  const MESSAGE_KEYS := {"type", "id", "role", "content", "status", "phase"}
  const REASONING_KEYS := {"type", "id", "summary", "content", "encrypted_content", "status"}

  function ResponsesBlock(b: map<string, Json>, env: Env): Option<Emit> {
    var status := At(b, "status");
    if status != Null && status != Str("completed") then None
    else if At(b, "type") == Str("function_call") then
      WithCall(Add(At(b, "call_id"), At(b, "name"), At(b, "arguments"), true, None, env), "", Obj(Keep(b, CALL_KEYS)))
    else if At(b, "type") == Str("message") then
      var text := ResponseText(At(b, "content"));
      if IsOrMissing(b, "role", "assistant") && text.Some? then Some(Emit(None, text.value, Obj(Keep(b, MESSAGE_KEYS))))
      else None
    else if At(b, "type") == Str("reasoning") then Some(Emit(None, "", Obj(Keep(b, REASONING_KEYS))))
    else None
  }

  function ClaudeBlock(b: map<string, Json>, env: Env): Option<Emit> {
    var kind := At(b, "type");
    if kind == Str("text") then
      var text := At(b, "text");
      if text.Str? && TextOk(text.s) then Some(Emit(None, text.s, Obj(b))) else None
    else if kind == Str("tool_use") then
      WithCall(Add(At(b, "id"), At(b, "name"), At(b, "input"), false, None, env), "", Obj(b))
    else if kind == Str("thinking") || kind == Str("redacted_thinking") then Some(Emit(None, "", Obj(b)))
    else None
  }

  const PART_KEYS := {"text", "functionCall", "thought", "thoughtSignature", "partMetadata"}

  function GeminiBlock(b: map<string, Json>, spare: string, env: Env): Option<Emit> {
    if !(b.Keys <= PART_KEYS) || ("text" in b && !(b["text"].Str? && TextOk(b["text"].s))) then None
    else
      var text := if "text" in b && At(b, "thought") != Bool(true) then b["text"].s else "";
      if "functionCall" !in b then Some(Emit(None, text, Obj(b)))
      else if !b["functionCall"].Obj? then None
      else
        var f := b["functionCall"].fields;
        WithCall(Add(At(f, "id"), At(f, "name"), if "args" in f then f["args"] else Obj(map[]), false,
                     Some(spare), env),
                 text, Obj(b))
  }

  function Block(p: Provider, b: Json, spare: string, env: Env): Option<Emit> {
    if !b.Obj? then None
    else
      match p
      case OpenAiChat => ChatBlock(b.fields, env)
      case OpenAiResponses => ResponsesBlock(b.fields, env)
      case Claude => ClaudeBlock(b.fields, env)
      case Gemini => GeminiBlock(b.fields, spare, env)
  }

  /** The id for call n when the provider gave none: the stored one in a replay, else a random one. */
  function Spare(ids: seq<string>, env: Env, n: nat): string {
    if n < |ids| then ids[n] else env.uuid(n)
  }

  /** How one block is read, given the id to use if the provider left it out. */
  type Reader = (Json, string) -> Option<Emit>

  /** What the loop has collected after these blocks. */
  function Gather(read: Reader, blocks: seq<Json>, supply: nat -> string): Option<seq<Emit>>
  {
    if blocks == [] then Some([])
    else
      var done := Gather(read, blocks[..|blocks| - 1], supply);
      if done.None? then None
      else
        var e := read(blocks[|blocks| - 1], supply(|CallsOf(done.value)|));
        if e.None? then None else Some(done.value + [e.value])
  }

  function ReaderOf(p: Provider, env: Env): Reader {
    (b, spare) => Block(p, b, spare, env)
  }

  function SupplyOf(ids: seq<string>, env: Env): nat -> string {
    (n: nat) => Spare(ids, env, n)
  }

  function Collect(p: Provider, blocks: seq<Json>, ids: seq<string>, env: Env): Option<seq<Emit>> {
    Gather(ReaderOf(p, env), blocks, SupplyOf(ids, env))
  }

  function CallsOf(es: seq<Emit>): seq<ToolCall> {
    if es == [] then []
    else
      var e := es[|es| - 1];
      CallsOf(es[..|es| - 1]) + if e.call.Some? then [e.call.value] else []
  }

  function TextOf(es: seq<Emit>): string {
    if es == [] then "" else TextOf(es[..|es| - 1]) + es[|es| - 1].text
  }

  function NativeOf(es: seq<Emit>): seq<Json> {
    seq(|es|, i requires 0 <= i < |es| => es[i].native)
  }

  function IdsOf(calls: seq<ToolCall>): seq<string> {
    seq(|calls|, i requires 0 <= i < |calls| => calls[i].id)
  }

  // ----- whole responses -----

  /** Calls with their native arguments, the visible text, and what to store. */
  datatype Raw = Raw(calls: seq<ToolCall>, text: string, payload: Json)

  const CHAT_EXTRAS := {"reasoning_content", "reasoning_details", "refusal"}

  function ChatText(m: map<string, Json>): Option<string> {
    var text := ResponseText(At(m, "content"));
    if text == Some("") && Truthy(At(m, "refusal")) then
      if m["refusal"].Str? && TextOk(m["refusal"].s) then Some(m["refusal"].s) else None
    else text
  }

  function ChatNative(m: map<string, Json>, es: Option<seq<Emit>>): map<string, Json> {
    var base := Keep(m, CHAT_EXTRAS) + map["role" := Str("assistant"), "content" := At(m, "content")];
    if es.Some? then base["tool_calls" := Arr(NativeOf(es.value))] else base
  }

  function ParseMessage(m: map<string, Json>, env: Env): Option<Raw> {
    var text := ChatText(m);
    if !IsOrMissing(m, "role", "assistant") || Truthy(At(m, "function_call")) || text.None? then None
    else if "tool_calls" !in m then Some(Raw([], text.value, Obj(ChatNative(m, None))))
    else if !Blocks(m["tool_calls"]) then None
    else
      var es := Collect(OpenAiChat, m["tool_calls"].items, [], env);
      if es.None? then None else Some(Raw(CallsOf(es.value), text.value, Obj(ChatNative(m, es))))
  }

  function ParseChat(r: map<string, Json>, env: Env): Option<Raw> {
    var choices := At(r, "choices");
    if !Blocks(choices) || choices.items == [] then None
    else
      var choice := choices.items[0].fields;
      if "finish_reason" in choice && choice["finish_reason"] !in {Str("stop"), Str("tool_calls")} then None
      else if !At(choice, "message").Obj? then None
      else ParseMessage(At(choice, "message").fields, env)
  }

  function ParseResponses(r: map<string, Json>, env: Env): Option<Raw> {
    var output := At(r, "output");
    if !IsOrMissing(r, "status", "completed") || !Blocks(output) then None
    else
      var es := Collect(OpenAiResponses, output.items, [], env);
      if es.None? then None else Some(Raw(CallsOf(es.value), TextOf(es.value), Arr(NativeOf(es.value))))
  }

  function ParseClaude(r: map<string, Json>, env: Env): Option<Raw> {
    var content := At(r, "content");
    if "stop_reason" in r && r["stop_reason"] !in {Str("end_turn"), Str("tool_use"), Str("stop_sequence"),
                                                   Str("refusal")}
    then None
    else if !Blocks(content) then None
    else
      var es := Collect(Claude, content.items, [], env);
      if es.None? then None else Some(Raw(CallsOf(es.value), TextOf(es.value), content))
  }

  function ParseGemini(r: map<string, Json>, ids: seq<string>, env: Env): Option<Raw> {
    var candidates := At(r, "candidates");
    if !Blocks(candidates) || candidates.items == [] then None
    else
      var candidate := candidates.items[0].fields;
      var content := At(candidate, "content");
      if !IsOrMissing(candidate, "finishReason", "STOP") || !content.Obj?
         || !IsOrMissing(content.fields, "role", "model") || !Blocks(At(content.fields, "parts")) then None
      else
        var es := Collect(Gemini, At(content.fields, "parts").items, ids, env);
        if es.None? then None else Some(Raw(CallsOf(es.value), TextOf(es.value), content))
  }

  function ParseRaw(p: Provider, response: Json, ids: seq<string>, env: Env): Option<Raw> {
    if !Shallow(response, MAX_DEPTH) || !response.Obj? then None
    else
      match p
      case OpenAiChat => ParseChat(response.fields, env)
      case OpenAiResponses => ParseResponses(response.fields, env)
      case Claude => ParseClaude(response.fields, env)
      case Gemini => ParseGemini(response.fields, ids, env)
  }

  ghost predicate DistinctIds(calls: seq<ToolCall>) {
    forall i, j :: 0 <= i < j < |calls| ==> calls[i].id != calls[j].id
  }

  /** Local validation against the tool catalogue, with wire-only nulls undone for OpenAI. */
  ghost function Canonical(p: Provider, call: ToolCall, tools: Option<map<string, Schema>>): ToolCall {
    if tools.Some? && call.name in tools.value && (p.OpenAiChat? || p.OpenAiResponses?)
    then call.(arguments := Undo(call.arguments, tools.value[call.name]))
    else call
  }

  ghost function Canonicals(p: Provider, calls: seq<ToolCall>, tools: Option<map<string, Schema>>): seq<ToolCall> {
    seq(|calls|, i requires 0 <= i < |calls| => Canonical(p, calls[i], tools))
  }

  ghost predicate Allowed(p: Provider, call: ToolCall, tools: Option<map<string, Schema>>) {
    tools.Some? ==>
      call.name in tools.value && Matches(Canonical(p, call, tools).arguments, tools.value[call.name])
  }

  /** `parse_agent_response` */
  ghost function Parse(p: Provider, response: Json, tools: Option<map<string, Schema>>, ids: seq<string>,
                       env: Env): Option<Turn> {
    var raw := ParseRaw(p, response, ids, env);
    if raw.None? || !DistinctIds(raw.value.calls) || (raw.value.text == "" && raw.value.calls == []) then None
    else
      var calls := raw.value.calls;
      if !(forall i :: 0 <= i < |calls| ==> Allowed(p, calls[i], tools)) then None
      else Some(Turn(raw.value.text, Canonicals(p, calls, tools),
                     ProviderData(p, raw.value.payload, if p.Gemini? then Some(IdsOf(calls)) else None)))
  }

  /** The response that `_agent_replay` builds around stored provider data. */
  function Fixture(data: ProviderData): Json {
    match data.provider
    case OpenAiChat => Obj(map["choices" := Arr([Obj(map["message" := data.payload])])])
    case OpenAiResponses => Obj(map["output" := data.payload])
    case Claude => Obj(map["content" := data.payload])
    case Gemini => Obj(map["candidates" := Arr([Obj(map["content" := data.payload])])])
  }

  ghost predicate SameCalls(stored: seq<ToolCall>, native: seq<ToolCall>) {
    && |stored| == |native|
    && forall i :: 0 <= i < |stored| ==>
         stored[i].id == native[i].id && stored[i].name == native[i].name
         && Same(native[i].arguments, stored[i].arguments)
  }

  /** `_agent_replay`; None is a continuation mismatch. */
  ghost function Replay(turn: Turn, p: Provider, env: Env): Option<ProviderData> {
    if turn.data.provider != p then None
    else if p.Gemini? && turn.data.callIds != Some(IdsOf(turn.calls)) then None
    else
      var ids := if turn.data.callIds.Some? then turn.data.callIds.value else [];
      var parsed := Parse(p, Fixture(turn.data), None, ids, env);
      if parsed.None? || parsed.value.content != turn.content || !SameCalls(turn.calls, parsed.value.calls) then None
      else Some(parsed.value.data)
  }

  lemma {:induction false} LastEmit(done: seq<Emit>, e: Emit)
    ensures CallsOf(done + [e]) == CallsOf(done) + if e.call.Some? then [e.call.value] else []
    ensures TextOf(done + [e]) == TextOf(done) + e.text
    ensures NativeOf(done + [e]) == NativeOf(done) + [e.native]
  {
    assert (done + [e])[..|done|] == done;
  }

  lemma {:induction false} GatherOneMore(read: Reader, blocks: seq<Json>,
                                         supply: nat -> string, done: seq<Emit>, b: Json, e: Emit)
    requires Gather(read, blocks, supply) == Some(done) && read(b, supply(|CallsOf(done)|)) == Some(e)
    ensures Gather(read, blocks + [b], supply) == Some(done + [e])
  {
    assert (blocks + [b])[..|blocks|] == blocks;
  }

  /** The block loop of `parse_agent_response`, as it runs. */
  method CollectBlocks(read: Reader, blocks: seq<Json>, supply: nat -> string)
    returns (ok: bool, calls: seq<ToolCall>, text: string, native: seq<Json>)
    ensures ok == Gather(read, blocks, supply).Some?
    ensures ok ==> var es := Gather(read, blocks, supply).value;
                   calls == CallsOf(es) && text == TextOf(es) && native == NativeOf(es)
  {
    calls, text, native := [], "", [];
    ghost var done: seq<Emit> := [];
    var i := 0;
    while i < |blocks|
      invariant 0 <= i <= |blocks|
      invariant calls == CallsOf(done) && text == TextOf(done) && native == NativeOf(done)
      invariant Gather(read, blocks[..i], supply) == Some(done)
    {
      var e := read(blocks[i], supply(|calls|));
      assert blocks[..i + 1] == blocks[..i] + [blocks[i]];
      if e.None? {
        GatherStops(read, blocks[..i], supply, done, blocks[i]);
        Stuck(read, blocks, supply, i + 1);
        return false, calls, text, native;
      }
      LastEmit(done, e.value);
      GatherOneMore(read, blocks[..i], supply, done, blocks[i], e.value);
      if e.value.call.Some? {
        calls := calls + [e.value.call.value];
      }
      text, native := text + e.value.text, native + [e.value.native];
      done := done + [e.value];
      i := i + 1;
    }
    assert blocks[..i] == blocks;
    ok := true;
  }

  lemma {:induction false} GatherStops(read: Reader, blocks: seq<Json>, supply: nat -> string, done: seq<Emit>, b: Json)
    requires Gather(read, blocks, supply) == Some(done) && read(b, supply(|CallsOf(done)|)).None?
    ensures Gather(read, blocks + [b], supply).None?
  {
    assert (blocks + [b])[..|blocks|] == blocks;
  }

  lemma {:induction false} Stuck(read: Reader, blocks: seq<Json>, supply: nat -> string, i: nat)
    requires i <= |blocks| && Gather(read, blocks[..i], supply).None?
    ensures Gather(read, blocks, supply).None?
    decreases |blocks| - i
  {
    if i == |blocks| {
      assert blocks[..i] == blocks;
    } else {
      assert blocks[..i + 1][..i] == blocks[..i];
      Stuck(read, blocks, supply, i + 1);
    }
  }
}

/** A turn that was parsed once replays without a mismatch, for ever after. */
module ReplayTheorems {
  import opened Common
  import opened Json
  import opened SchemaModel
  import opened AgentText
  import opened AgentArguments
  import opened AgentTurns

  lemma {:induction false} KeepTwice(b: map<string, Json>, keys: set<string>)
    ensures Keep(Keep(b, keys), keys) == Keep(b, keys)
    ensures forall k :: k in keys ==> At(Keep(b, keys), k) == At(b, k) && (k in Keep(b, keys) <==> k in b)
  {
  }

  lemma {:induction false} ChatBlockReplays(b: map<string, Json>, env: Env, again: Env)
    requires ChatBlock(b, env).Some? && again.loads == env.loads
    ensures var e := ChatBlock(b, env).value;
            e.native.Obj? && ChatBlock(e.native.fields, again) == Some(e)
  {
    var e := ChatBlock(b, env).value;
    var n := e.native.fields;
    var f := At(n, "function").fields;
    assert |"function"| == 8 && |"type"| == 4 && |"id"| == 2 && |"name"| == 4 && |"arguments"| == 9;
    assert At(n, "type") == Str("function") && At(n, "id") == At(b, "id");
    assert At(f, "name") == At(At(b, "function").fields, "name");
    assert At(f, "arguments") == At(At(b, "function").fields, "arguments");
  }

  lemma {:induction false} KeptFields(b: map<string, Json>, keys: set<string>, k: string)
    requires k in keys
    ensures At(Keep(b, keys), k) == At(b, k)
    ensures forall s: string :: IsOrMissing(Keep(b, keys), k, s) <==> IsOrMissing(b, k, s)
  {
  }

  lemma {:induction false} ResponsesCallReplays(b: map<string, Json>, env: Env, again: Env)
    requires ResponsesBlock(b, env).Some? && again.loads == env.loads && At(b, "type") == Str("function_call")
    ensures ResponsesBlock(Keep(b, CALL_KEYS), again) == ResponsesBlock(b, env)
  {
    KeepTwice(b, CALL_KEYS);
    KeptFields(b, CALL_KEYS, "type");
    KeptFields(b, CALL_KEYS, "status");
    KeptFields(b, CALL_KEYS, "call_id");
    KeptFields(b, CALL_KEYS, "name");
    KeptFields(b, CALL_KEYS, "arguments");
  }

  lemma {:induction false} ResponsesTextReplays(b: map<string, Json>, env: Env, again: Env)
    requires ResponsesBlock(b, env).Some? && At(b, "type") == Str("message")
    ensures ResponsesBlock(Keep(b, MESSAGE_KEYS), again) == ResponsesBlock(b, env)
  {
    KeepTwice(b, MESSAGE_KEYS);
    KeptFields(b, MESSAGE_KEYS, "type");
    KeptFields(b, MESSAGE_KEYS, "status");
    KeptFields(b, MESSAGE_KEYS, "role");
    KeptFields(b, MESSAGE_KEYS, "content");
  }

  lemma {:induction false} ReasoningReplays(b: map<string, Json>, env: Env, again: Env)
    requires ResponsesBlock(b, env).Some? && At(b, "type") == Str("reasoning")
    ensures ResponsesBlock(Keep(b, REASONING_KEYS), again) == ResponsesBlock(b, env)
  {
    KeepTwice(b, REASONING_KEYS);
    KeptFields(b, REASONING_KEYS, "type");
    KeptFields(b, REASONING_KEYS, "status");
  }

  lemma {:induction false} ResponsesBlockReplays(b: map<string, Json>, env: Env, again: Env)
    requires ResponsesBlock(b, env).Some? && again.loads == env.loads
    ensures var e := ResponsesBlock(b, env).value;
            e.native.Obj? && ResponsesBlock(e.native.fields, again) == Some(e)
  {
    if At(b, "type") == Str("function_call") {
      ResponsesCallReplays(b, env, again);
    } else if At(b, "type") == Str("message") {
      ResponsesTextReplays(b, env, again);
    } else {
      ReasoningReplays(b, env, again);
    }
  }

  /** A stored block parses to the very same contribution. */
  lemma {:induction false} BlockReplays(p: Provider, b: Json, spare: string, env: Env, spare': string, again: Env)
    requires Block(p, b, spare, env).Some? && again.loads == env.loads
    requires var e := Block(p, b, spare, env).value; p.Gemini? && e.call.Some? ==> spare' == e.call.value.id
    ensures var e := Block(p, b, spare, env).value;
            Block(p, e.native, spare', again) == Some(e)
  {
    match p
    case OpenAiChat => ChatBlockReplays(b.fields, env, again);
    case OpenAiResponses => ResponsesBlockReplays(b.fields, env, again);
    case _ =>
  }

  /**
   * Reading a stored block again gives the same contribution, provided the
   * spare id is the one that was used (where ids may be left out).
   */
  ghost predicate Repeats(read: Reader, again: Reader, spared: bool) {
    forall b, spare, spare' :: read(b, spare).Some? ==>
      var e := read(b, spare).value;
      !(spared && e.call.Some? && spare' != e.call.value.id) ==> again(e.native, spare') == Some(e)
  }

  /** The supply hands out the ids that these calls have. */
  ghost predicate Supplies(supply: nat -> string, calls: seq<ToolCall>) {
    forall n: nat :: n < |calls| ==> supply(n) == calls[n].id
  }

  lemma {:induction false} GatherReplays(read: Reader, blocks: seq<Json>,
                                         supply: nat -> string, again: Reader, supply': nat -> string, spared: bool)
    requires Gather(read, blocks, supply).Some? && Repeats(read, again, spared)
    requires spared ==> Supplies(supply', CallsOf(Gather(read, blocks, supply).value))
    ensures Gather(again, NativeOf(Gather(read, blocks, supply).value), supply') == Gather(read, blocks, supply)
    decreases |blocks|
  {
    if blocks != [] {
      var es := Gather(read, blocks, supply).value;
      var front, b := blocks[..|blocks| - 1], blocks[|blocks| - 1];
      var done, e := Gather(read, front, supply).value, es[|es| - 1];
      assert es == done + [e];
      LastEmit(done, e);
      GatherReplays(read, front, supply, again, supply', spared);
      GatherOneMore(again, NativeOf(done), supply', done, e.native, e);
    }
  }

  lemma {:induction false} GatherVerbatim(read: Reader, blocks: seq<Json>, supply: nat -> string)
    requires Gather(read, blocks, supply).Some?
    requires forall b, spare :: read(b, spare).Some? ==> read(b, spare).value.native == b
    ensures NativeOf(Gather(read, blocks, supply).value) == blocks
    decreases |blocks|
  {
    if blocks != [] {
      GatherVerbatim(read, blocks[..|blocks| - 1], supply);
    }
  }

  lemma {:induction false} ReaderRepeats(p: Provider, env: Env, again: Env)
    requires again.loads == env.loads
    ensures Repeats(ReaderOf(p, env), ReaderOf(p, again), p.Gemini?)
  {
    forall b, spare, spare' | Block(p, b, spare, env).Some?
      ensures var e := Block(p, b, spare, env).value;
              !(p.Gemini? && e.call.Some? && spare' != e.call.value.id) ==> Block(p, e.native, spare', again) == Some(e)
    {
      var e := Block(p, b, spare, env).value;
      if !(p.Gemini? && e.call.Some? && spare' != e.call.value.id) {
        BlockReplays(p, b, spare, env, spare', again);
      }
    }
  }

  lemma {:induction false} CollectReplays(p: Provider, blocks: seq<Json>, ids: seq<string>, env: Env,
                                          ids': seq<string>, again: Env)
    requires Collect(p, blocks, ids, env).Some? && again.loads == env.loads
    requires p.Gemini? ==> ids' == IdsOf(CallsOf(Collect(p, blocks, ids, env).value))
    ensures var es := Collect(p, blocks, ids, env).value; Collect(p, NativeOf(es), ids', again) == Some(es)
  {
    ReaderRepeats(p, env, again);
    GatherReplays(ReaderOf(p, env), blocks, SupplyOf(ids, env), ReaderOf(p, again), SupplyOf(ids', again), p.Gemini?);
  }

  lemma {:induction false} CollectVerbatim(p: Provider, blocks: seq<Json>, ids: seq<string>, env: Env)
    requires Collect(p, blocks, ids, env).Some? && (p.Claude? || p.Gemini?)
    ensures NativeOf(Collect(p, blocks, ids, env).value) == blocks
  {
    GatherVerbatim(ReaderOf(p, env), blocks, SupplyOf(ids, env));
  }

  // ----- the four providers -----

  lemma {:induction false} ChatNativeFields(m: map<string, Json>, es: Option<seq<Emit>>)
    ensures var n := ChatNative(m, es);
            && At(n, "content") == At(m, "content") && At(n, "refusal") == At(m, "refusal")
            && IsOrMissing(n, "role", "assistant") && "function_call" !in n
            && ("tool_calls" in n <==> es.Some?)
            && (es.Some? ==> n["tool_calls"] == Arr(NativeOf(es.value)))
            && Keep(n, CHAT_EXTRAS) == Keep(m, CHAT_EXTRAS)
  {
    assert "refusal"[0] == 'r' && "content"[0] == 'c';
    assert |"role"| == 4 && |"tool_calls"| == 10 && |"function_call"| == 13 && |"content"| == 7 && |"refusal"| == 7;
    assert |"reasoning_content"| == 17 && |"reasoning_details"| == 17;
    assert "role" !in CHAT_EXTRAS && "content" !in CHAT_EXTRAS && "tool_calls" !in CHAT_EXTRAS;
    var n := ChatNative(m, es);
    assert Keep(n, CHAT_EXTRAS).Keys == Keep(m, CHAT_EXTRAS).Keys;
  }

  lemma {:induction false} GatherAll(read: Reader, blocks: seq<Json>, supply: nat -> string, good: Json -> bool)
    requires Gather(read, blocks, supply).Some?
    requires forall i, spare :: 0 <= i < |blocks| && read(blocks[i], spare).Some? ==>
              good(read(blocks[i], spare).value.native)
    ensures var es := Gather(read, blocks, supply).value; forall i :: 0 <= i < |es| ==> good(es[i].native)
    decreases |blocks|
  {
    if blocks != [] {
      GatherAll(read, blocks[..|blocks| - 1], supply, good);
    }
  }

  lemma {:induction false} EmitsAreObjects(p: Provider, blocks: seq<Json>, ids: seq<string>, env: Env)
    requires Collect(p, blocks, ids, env).Some?
    ensures var es := Collect(p, blocks, ids, env).value; forall i :: 0 <= i < |es| ==> es[i].native.Obj?
  {
    GatherAll(ReaderOf(p, env), blocks, SupplyOf(ids, env), (v: Json) => v.Obj?);
  }

  lemma {:induction false} MessageReplays(m: map<string, Json>, env: Env, again: Env)
    requires ParseMessage(m, env).Some? && again.loads == env.loads
    ensures var raw := ParseMessage(m, env).value;
            raw.payload.Obj? && ParseMessage(raw.payload.fields, again) == Some(raw)
  {
    if "tool_calls" in m {
      var es := Collect(OpenAiChat, m["tool_calls"].items, [], env);
      ChatNativeFields(m, es);
      EmitsAreObjects(OpenAiChat, m["tool_calls"].items, [], env);
      CollectReplays(OpenAiChat, m["tool_calls"].items, [], env, [], again);
    } else {
      ChatNativeFields(m, None);
    }
  }

  lemma {:induction false} ChatReplays(r: map<string, Json>, env: Env, again: Env)
    requires ParseChat(r, env).Some? && again.loads == env.loads
    ensures var raw := ParseChat(r, env).value;
            ParseChat(Fixture(ProviderData(OpenAiChat, raw.payload, None)).fields, again) == Some(raw)
  {
    var choice := At(r, "choices").items[0].fields;
    MessageReplays(At(choice, "message").fields, env, again);
    var raw := ParseChat(r, env).value;
    assert |"finish_reason"| == 13 && |"message"| == 7;
    var wrapped := map["message" := raw.payload];
    assert "finish_reason" !in wrapped;
    assert Fixture(ProviderData(OpenAiChat, raw.payload, None)).fields == map["choices" := Arr([Obj(wrapped)])];
  }

  lemma {:induction false} ResponsesReplays(r: map<string, Json>, env: Env, again: Env)
    requires ParseResponses(r, env).Some? && again.loads == env.loads
    ensures var raw := ParseResponses(r, env).value;
            ParseResponses(Fixture(ProviderData(OpenAiResponses, raw.payload, None)).fields, again) == Some(raw)
  {
    var raw := ParseResponses(r, env).value;
    EmitsAreObjects(OpenAiResponses, At(r, "output").items, [], env);
    CollectReplays(OpenAiResponses, At(r, "output").items, [], env, [], again);
    assert "status"[0] == 's' && "output"[0] == 'o';
    assert "status" !in map["output" := raw.payload];
  }

  lemma {:induction false} ClaudeReplays(r: map<string, Json>, env: Env, again: Env)
    requires ParseClaude(r, env).Some? && again.loads == env.loads
    ensures var raw := ParseClaude(r, env).value;
            ParseClaude(Fixture(ProviderData(Claude, raw.payload, None)).fields, again) == Some(raw)
  {
    var raw := ParseClaude(r, env).value;
    CollectReplays(Claude, At(r, "content").items, [], env, [], again);
    CollectVerbatim(Claude, At(r, "content").items, [], env);
    assert |"stop_reason"| == 11 && |"content"| == 7;
    assert "stop_reason" !in map["content" := raw.payload];
  }

  lemma {:induction false} GeminiReplays(r: map<string, Json>, ids: seq<string>, env: Env, again: Env)
    requires ParseGemini(r, ids, env).Some? && again.loads == env.loads
    ensures var raw := ParseGemini(r, ids, env).value;
            ParseGemini(Fixture(ProviderData(Gemini, raw.payload, Some(IdsOf(raw.calls)))).fields, IdsOf(raw.calls),
                        again) == Some(raw)
  {
    var raw := ParseGemini(r, ids, env).value;
    var content := At(At(r, "candidates").items[0].fields, "content");
    var es := Collect(Gemini, At(content.fields, "parts").items, ids, env).value;
    assert raw.calls == CallsOf(es);
    CollectReplays(Gemini, At(content.fields, "parts").items, ids, env, IdsOf(raw.calls), again);
    CollectVerbatim(Gemini, At(content.fields, "parts").items, ids, env);
    assert |"finishReason"| == 12 && |"content"| == 7;
    var wrapped := map["content" := raw.payload];
    assert "finishReason" !in wrapped;
  }

  // ----- nesting depth of the fixture -----

  lemma {:induction false} KeepShallow(b: map<string, Json>, keys: set<string>, room: int)
    requires Shallow(Obj(b), room)
    ensures Shallow(Obj(Keep(b, keys)), room)
  {
  }

  lemma {:induction false} BlockShallow(p: Provider, b: Json, spare: string, env: Env, room: int)
    requires Block(p, b, spare, env).Some? && Shallow(b, room) && room >= 2
    ensures Shallow(Block(p, b, spare, env).value.native, room)
  {
    if p.OpenAiChat? {
      var f := At(b.fields, "function");
      assert Shallow(f, room - 1);
      assert Shallow(At(f.fields, "name"), room - 2) && Shallow(At(f.fields, "arguments"), room - 2);
      var inner := Obj(map["name" := At(f.fields, "name"), "arguments" := At(f.fields, "arguments")]);
      assert Shallow(inner, room - 1);
      assert Shallow(At(b.fields, "id"), room - 1);
    } else if p.OpenAiResponses? {
      KeepShallow(b.fields, CALL_KEYS, room);
      KeepShallow(b.fields, MESSAGE_KEYS, room);
      KeepShallow(b.fields, REASONING_KEYS, room);
    }
  }

  lemma {:induction false} CollectShallow(p: Provider, blocks: seq<Json>, ids: seq<string>, env: Env, room: int)
    requires Collect(p, blocks, ids, env).Some? && room >= 2
    requires forall i :: 0 <= i < |blocks| ==> Shallow(blocks[i], room)
    ensures var es := Collect(p, blocks, ids, env).value; forall i :: 0 <= i < |es| ==> Shallow(es[i].native, room)
  {
    forall i, spare | 0 <= i < |blocks| && ReaderOf(p, env)(blocks[i], spare).Some?
      ensures Shallow(ReaderOf(p, env)(blocks[i], spare).value.native, room)
    {
      BlockShallow(p, blocks[i], spare, env, room);
    }
    GatherAll(ReaderOf(p, env), blocks, SupplyOf(ids, env), (v: Json) => Shallow(v, room));
  }

  lemma {:induction false} NativeShallow(m: map<string, Json>, es: seq<Emit>, room: int)
    requires Shallow(Obj(m), room) && room >= 4 && Shallow(Arr(NativeOf(es)), room - 1)
    ensures Shallow(Obj(ChatNative(m, Some(es))), room)
  {
    KeepShallow(m, CHAT_EXTRAS, room);
    assert Shallow(At(m, "content"), room - 1);
    var n := ChatNative(m, Some(es));
    forall k | k in n ensures Shallow(n[k], room - 1) {
      assert k == "tool_calls" || k == "role" || k == "content" || k in Keep(m, CHAT_EXTRAS);
    }
  }

  lemma {:induction false} MessageShallow(m: map<string, Json>, env: Env, room: int)
    requires ParseMessage(m, env).Some? && Shallow(Obj(m), room) && room >= 4
    ensures Shallow(ParseMessage(m, env).value.payload, room)
  {
    KeepShallow(m, CHAT_EXTRAS, room);
    assert Shallow(At(m, "content"), room - 1);
    if "tool_calls" in m {
      var items := m["tool_calls"].items;
      assert Shallow(m["tool_calls"], room - 1);
      CollectShallow(OpenAiChat, items, [], env, room - 2);
      NativeShallow(m, Collect(OpenAiChat, items, [], env).value, room);
    }
  }

  lemma {:induction false} FixtureShallow(p: Provider, response: Json, ids: seq<string>, env: Env,
                                          callIds: Option<seq<string>>)
    requires ParseRaw(p, response, ids, env).Some?
    ensures Shallow(Fixture(ProviderData(p, ParseRaw(p, response, ids, env).value.payload, callIds)), MAX_DEPTH)
  {
    var r := response.fields;
    var payload := ParseRaw(p, response, ids, env).value.payload;
    match p
    case OpenAiChat =>
      var choices := r["choices"];
      assert Shallow(choices, 95) && Shallow(choices.items[0], 94);
      assert Shallow(choices.items[0].fields["message"], 93);
      MessageShallow(choices.items[0].fields["message"].fields, env, 93);
      assert Shallow(Obj(map["message" := payload]), 94);
      assert Shallow(Arr([Obj(map["message" := payload])]), 95);
    case OpenAiResponses =>
      assert Shallow(r["output"], 95);
      CollectShallow(OpenAiResponses, r["output"].items, [], env, 94);
      assert Shallow(payload, 95);
    case Claude => assert Shallow(r["content"], 95);
    case Gemini =>
      var candidates := r["candidates"];
      assert Shallow(candidates, 95) && Shallow(candidates.items[0], 94);
      assert Shallow(candidates.items[0].fields["content"], 93);
      assert Shallow(Obj(map["content" := payload]), 94);
      assert Shallow(Arr([Obj(map["content" := payload])]), 95);
  }

  // ----- the theorem -----

  lemma {:induction false} RawReplays(p: Provider, response: Json, env: Env, again: Env)
    requires ParseRaw(p, response, [], env).Some? && again.loads == env.loads
    ensures var raw := ParseRaw(p, response, [], env).value;
            var data := ProviderData(p, raw.payload, if p.Gemini? then Some(IdsOf(raw.calls)) else None);
            ParseRaw(p, Fixture(data), if p.Gemini? then IdsOf(raw.calls) else [], again) == Some(raw)
  {
    var raw := ParseRaw(p, response, [], env).value;
    FixtureShallow(p, response, [], env, if p.Gemini? then Some(IdsOf(raw.calls)) else None);
    match p
    case OpenAiChat => ChatReplays(response.fields, env, again);
    case OpenAiResponses => ResponsesReplays(response.fields, env, again);
    case Claude => ClaudeReplays(response.fields, env, again);
    case Gemini => GeminiReplays(response.fields, [], env, again);
  }

  lemma {:induction false} CanonicalIsSame(p: Provider, call: ToolCall, tools: Option<map<string, Schema>>)
    ensures var c := Canonical(p, call, tools);
            c.id == call.id && c.name == call.name && Same(call.arguments, c.arguments)
  {
    SameReflexive(call.arguments);
    if tools.Some? && call.name in tools.value {
      UndoStaysSame(call.arguments, tools.value[call.name]);
    }
  }

  /** Without a tool catalogue the calls keep their native arguments. */
  lemma {:induction false} PlainParse(p: Provider, response: Json, ids: seq<string>, env: Env, raw: Raw)
    requires ParseRaw(p, response, ids, env) == Some(raw)
    requires DistinctIds(raw.calls) && !(raw.text == "" && raw.calls == [])
    ensures Parse(p, response, None, ids, env)
              == Some(Turn(raw.text, raw.calls,
                           ProviderData(p, raw.payload, if p.Gemini? then Some(IdsOf(raw.calls)) else None)))
  {
    assert Canonicals(p, raw.calls, None) == raw.calls;
  }

  lemma {:induction false} CanonicalCallsAreSame(p: Provider, calls: seq<ToolCall>, tools: Option<map<string, Schema>>)
    ensures var stored := Canonicals(p, calls, tools);
            SameCalls(stored, calls) && IdsOf(stored) == IdsOf(calls)
  {
    forall i | 0 <= i < |calls|
      ensures var c := Canonical(p, calls[i], tools);
              c.id == calls[i].id && c.name == calls[i].name && Same(calls[i].arguments, c.arguments)
    {
      CanonicalIsSame(p, calls[i], tools);
    }
  }

  /**
   * Every turn accepted from a provider, with or without a tool catalogue,
   * later passes the replay for that provider and gives back its provider data
   * unchanged, whatever random ids the second parse would have drawn.
   */
  lemma {:induction false} ParsedTurnReplays(p: Provider, response: Json, tools: Option<map<string, Schema>>, env: Env,
                                             again: Env)
    requires Parse(p, response, tools, [], env).Some? && again.loads == env.loads
    ensures var turn := Parse(p, response, tools, [], env).value;
            Replay(turn, p, again) == Some(turn.data)
  {
    var turn := Parse(p, response, tools, [], env).value;
    var raw := ParseRaw(p, response, [], env).value;
    CanonicalCallsAreSame(p, raw.calls, tools);
    RawReplays(p, response, env, again);
    PlainParse(p, Fixture(turn.data), if p.Gemini? then IdsOf(raw.calls) else [], again, raw);
  }
}
