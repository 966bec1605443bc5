/**
 * What an accepted provider turn is, said of the response's own fields: which
 * responses are accepted, which text is visible, which calls are asked for,
 * what is stored, and what the tool catalogue and the replay enforce.
 */
module TurnMeaning {
  import opened Common
  import opened Json
  import opened AgentText
  import opened AgentTurns

  function Field(b: Json, k: string): Json {
    if b.Obj? && k in b.fields then b.fields[k] else Null
  }

  predicate Has(b: Json, k: string) {
    b.Obj? && k in b.fields
  }

  predicate HasOr(b: Json, k: string, s: string) {
    b.Obj? && (k in b.fields ==> b.fields[k] == Str(s))
  }

  // ----- leaves -----

  predicate SafeText(s: string) {
    forall i :: 0 <= i < |s| ==> var c := s[i] as int; (c >= 32 && c != 127) || c == 9 || c == 10 || c == 13
  }

  predicate SafeId(s: string) {
    1 <= |s| <= 512 && forall i :: 0 <= i < |s| ==> s[i] as int >= 32 && s[i] as int != 127
  }

  predicate ToolName(s: string) {
    && 1 <= |s| <= 64
    && forall i :: 0 <= i < |s| ==>
         s[i] == '_' || s[i] == '-' || '0' <= s[i] <= '9' || 'a' <= s[i] <= 'z' || 'A' <= s[i] <= 'Z'
  }

  lemma {:induction false} TextOkMeans(s: string)
    ensures TextOk(s) <==> SafeText(s)
  {
  }

  lemma {:induction false} IdOkMeans(s: string)
    ensures IdOk(s) <==> SafeId(s)
  {
  }

  lemma {:induction false} NameOkMeans(s: string)
    ensures NameOk(s) <==> ToolName(s)
  {
  }

  /** A way down into a value. */
  datatype Down = Item(i: nat) | Key(k: string)

  predicate Leads(v: Json, path: seq<Down>)
    decreases |path|
  {
    path == [] ||
    (match path[0]
     case Item(i) => v.Arr? && i < |v.items| && Leads(v.items[i], path[1..])
     case Key(k) => v.Obj? && k in v.fields && Leads(v.fields[k], path[1..]))
  }

  /** The nesting check bounds the length of every way down. */
  lemma {:induction false} ShallowBounds(v: Json, room: int, path: seq<Down>)
    requires Shallow(v, room) && Leads(v, path)
    ensures |path| <= room
    decreases |path|
  {
    if path != [] {
      match path[0]
      case Item(i) => ShallowBounds(v.items[i], room - 1, path[1..]);
      case Key(k) => ShallowBounds(v.fields[k], room - 1, path[1..]);
    }
  }

  /** And a value that fails it has a way down that is too long. */
  lemma {:induction false} DeepHasPath(v: Json, room: int) returns (path: seq<Down>)
    requires !Shallow(v, room)
    ensures Leads(v, path) && |path| > room
    decreases v
  {
    if room < 0 {
      path := [];
    } else if v.Arr? {
      var i :| 0 <= i < |v.items| && !Shallow(v.items[i], room - 1);
      var rest := DeepHasPath(v.items[i], room - 1);
      path := [Item(i)] + rest;
      assert path[1..] == rest;
    } else {
      var k :| k in v.fields && !Shallow(v.fields[k], room - 1);
      var rest := DeepHasPath(v.fields[k], room - 1);
      path := [Key(k)] + rest;
      assert path[1..] == rest;
    }
  }

  // ----- what one block may be -----

  predicate Callable(id: Json, name: Json, args: Option<Json>) {
    && id.Str? && SafeId(id.s) && name.Str? && ToolName(name.s)
    && args.Some? && args.value.Obj? && Shallow(args.value, 96)
  }

  /** Arguments sent as JSON text. */
  function Decoded(v: Json, env: Env): Option<Json> {
    if v.Str? then env.loads(v.s) else None
  }

  predicate Falsy(v: Json) {
    v == Null || v == Bool(false) || v == Int(0) || v == Float(0.0) || v == Str("") || v == Arr([]) || v == Obj(map[])
  }

  predicate VisiblePart(b: Json) {
    || (Field(b, "type") in {Str("text"), Str("output_text")} && Field(b, "text").Str? && SafeText(Field(b, "text").s))
    || (Field(b, "type") == Str("refusal") && Field(b, "refusal").Str? && SafeText(Field(b, "refusal").s))
  }

  function PartText(b: Json): string {
    var t := if Field(b, "type") == Str("refusal") then Field(b, "refusal") else Field(b, "text");
    if t.Str? then t.s else ""
  }

  /** Message content: nothing, text, or a list of text and refusal parts. */
  predicate VisibleContent(v: Json) {
    || v == Null || (v.Str? && SafeText(v.s))
    || (v.Arr? && forall i :: 0 <= i < |v.items| ==> v.items[i].Obj? && VisiblePart(v.items[i]))
  }

  function ContentText(v: Json): string {
    match v
    case Str(s) => s
    case Arr(items) => Texts(items, PartText)
    case _ => ""
  }

  /** The texts of the blocks, one after the other. */
  function Texts(blocks: seq<Json>, piece: Json -> string): string {
    if blocks == [] then "" else Texts(blocks[..|blocks| - 1], piece) + piece(blocks[|blocks| - 1])
  }

  /** The blocks that ask for a tool, in order. */
  function Picks(blocks: seq<Json>, asks: Json -> bool): seq<Json> {
    if blocks == [] then []
    else Picks(blocks[..|blocks| - 1], asks) + if asks(blocks[|blocks| - 1]) then [blocks[|blocks| - 1]] else []
  }

  /** Whether a block of this provider asks for a tool. */
  predicate Asks(p: Provider, b: Json) {
    match p
    case OpenAiChat => true
    case OpenAiResponses => Field(b, "type") == Str("function_call")
    case Claude => Field(b, "type") == Str("tool_use")
    case Gemini => Has(b, "functionCall")
  }

  /** The text a block of this provider shows. */
  function Shows(p: Provider, b: Json): string {
    match p
    case OpenAiChat => ""
    case OpenAiResponses => if Field(b, "type") == Str("message") then ContentText(Field(b, "content")) else ""
    case Claude => if Field(b, "type") == Str("text") && Field(b, "text").Str? then Field(b, "text").s else ""
    case Gemini => if Field(b, "text").Str? && Field(b, "thought") != Bool(true) then Field(b, "text").s else ""
  }

  function GeminiArgs(b: Json): Json {
    var f := Field(b, "functionCall");
    if Has(f, "args") then Field(f, "args") else Obj(map[])
  }

  function GeminiId(b: Json, spare: string): Json {
    var id := Field(Field(b, "functionCall"), "id");
    if Falsy(id) then Str(spare) else id
  }

  /** The call is the one this block asks for; `spare` stands in for an id that Gemini left out. */
  predicate AskedFor(p: Provider, b: Json, spare: string, env: Env, call: ToolCall) {
    match p
    case OpenAiChat =>
      var f := Field(b, "function");
      && Field(b, "id") == Str(call.id) && Field(f, "name") == Str(call.name)
      && Decoded(Field(f, "arguments"), env) == Some(call.arguments)
    case OpenAiResponses =>
      && Field(b, "call_id") == Str(call.id) && Field(b, "name") == Str(call.name)
      && Decoded(Field(b, "arguments"), env) == Some(call.arguments)
    case Claude =>
      Field(b, "id") == Str(call.id) && Field(b, "name") == Str(call.name) && Field(b, "input") == call.arguments
    case Gemini =>
      && GeminiId(b, spare) == Str(call.id) && Field(Field(b, "functionCall"), "name") == Str(call.name)
      && GeminiArgs(b) == call.arguments
  }

  /** The blocks a provider may send. */
  predicate Readable(p: Provider, b: Json, spare: string, env: Env) {
    b.Obj? &&
    match p
    case OpenAiChat =>
      var f := Field(b, "function");
      HasOr(b, "type", "function") && f.Obj?
          && Callable(Field(b, "id"), Field(f, "name"), Decoded(Field(f, "arguments"), env))
    case OpenAiResponses =>
      && Field(b, "status") in {Null, Str("completed")}
      && (Field(b, "type") == Str("function_call") ==>
            Callable(Field(b, "call_id"), Field(b, "name"), Decoded(Field(b, "arguments"), env)))
      && (Field(b, "type") == Str("message") ==> HasOr(b, "role", "assistant") && VisibleContent(Field(b, "content")))
      && Field(b, "type") in {Str("function_call"), Str("message"), Str("reasoning")}
    case Claude =>
      && (Field(b, "type") == Str("text") ==> Field(b, "text").Str? && SafeText(Field(b, "text").s))
      && (Field(b, "type") == Str("tool_use") ==> Callable(Field(b, "id"), Field(b, "name"), Some(Field(b, "input"))))
      && Field(b, "type") in {Str("text"), Str("tool_use"), Str("thinking"), Str("redacted_thinking")}
    case Gemini =>
      && b.fields.Keys <= {"text", "functionCall", "thought", "thoughtSignature", "partMetadata"}
      && (Has(b, "text") ==> Field(b, "text").Str? && SafeText(Field(b, "text").s))
      && (Has(b, "functionCall") ==>
            && Field(b, "functionCall").Obj?
            && Callable(GeminiId(b, spare), Field(Field(b, "functionCall"), "name"), Some(GeminiArgs(b))))
  }

  // ----- the blocks are read as they are meant -----

  lemma {:induction false} FalsyMeans(v: Json)
    ensures Falsy(v) <==> !Truthy(v)
  {
  }

  lemma {:induction false} CallableMeans(id: Json, name: Json, args: Option<Json>)
    ensures Callable(id, name, args) <==>
              && id.Str? && IdOk(id.s) && name.Str? && NameOk(name.s)
              && args.Some? && args.value.Obj? && Shallow(args.value, MAX_DEPTH)
  {
    if name.Str? {
      NameOkMeans(name.s);
    }
    if id.Str? {
      IdOkMeans(id.s);
    }
  }

  lemma {:induction false} AddMeans(id: Json, name: Json, arguments: Json, encoded: bool, spare: Option<string>,
                                    env: Env)
    ensures var args := if encoded then Decoded(arguments, env) else Some(arguments);
            var chosen := if spare.Some? && Falsy(id) then Str(spare.value) else id;
            var call := Add(id, name, arguments, encoded, spare, env);
            && (call.Some? <==> Callable(chosen, name, args))
            && (call.Some? ==>
                  chosen == Str(call.value.id) && name == Str(call.value.name) && args == Some(call.value.arguments))
  {
    FalsyMeans(id);
    CallableMeans(if spare.Some? && Falsy(id) then Str(spare.value) else id, name,
                  if encoded then Decoded(arguments, env) else Some(arguments));
  }

  lemma {:induction false} PartMeans(b: Json)
    requires b.Obj?
    ensures BlockText(b.fields).Some? <==> VisiblePart(b)
    ensures BlockText(b.fields).Some? ==> BlockText(b.fields).value == PartText(b)
  {
    var t := if Field(b, "type") == Str("refusal") then Field(b, "refusal") else Field(b, "text");
    if t.Str? {
      TextOkMeans(t.s);
    }
  }

  lemma {:induction false} TextsFirst(blocks: seq<Json>, piece: Json -> string)
    requires blocks != []
    ensures Texts(blocks, piece) == piece(blocks[0]) + Texts(blocks[1..], piece)
    decreases |blocks|
  {
    if |blocks| == 1 {
      assert blocks[..0] == [] && blocks[1..] == [];
    } else {
      var front, last := blocks[..|blocks| - 1], blocks[|blocks| - 1];
      TextsFirst(front, piece);
      assert front[1..] == blocks[1..][..|blocks| - 2] && blocks[1..][|blocks| - 2] == last;
      assert front[0] == blocks[0];
    }
  }

  lemma {:induction false} JoinedMeans(blocks: seq<Json>)
    requires forall i :: 0 <= i < |blocks| ==> blocks[i].Obj?
    ensures JoinedText(blocks).Some? <==> forall i :: 0 <= i < |blocks| ==> VisiblePart(blocks[i])
    ensures JoinedText(blocks).Some? ==> JoinedText(blocks).value == Texts(blocks, PartText)
  {
    if blocks != [] {
      PartMeans(blocks[0]);
      JoinedMeans(blocks[1..]);
      TextsFirst(blocks, PartText);
      assert forall i :: 0 < i < |blocks| ==> blocks[i] == blocks[1..][i - 1];
    }
  }

  lemma {:induction false} ContentMeans(v: Json)
    ensures ResponseText(v).Some? <==> VisibleContent(v)
    ensures ResponseText(v).Some? ==> ResponseText(v).value == ContentText(v)
  {
    if v.Str? {
      TextOkMeans(v.s);
    } else if Blocks(v) {
      JoinedMeans(v.items);
    }
  }

  /** Exactly the sendable blocks are read, and each is read as what it shows and asks for. */
  ghost predicate ReadAsMeant(p: Provider, b: Json, spare: string, env: Env, e: Option<Emit>) {
    && (e.Some? <==> Readable(p, b, spare, env))
    && (e.Some? ==>
          && e.value.text == Shows(p, b) && (e.value.call.Some? <==> Asks(p, b))
          && (e.value.call.Some? ==> AskedFor(p, b, spare, env, e.value.call.value)))
  }

  lemma {:induction false} ChatMeans(b: Json, spare: string, env: Env)
    requires b.Obj?
    ensures ReadAsMeant(OpenAiChat, b, spare, env, ChatBlock(b.fields, env))
  {
    var f := Field(b, "function");
    AddMeans(Field(b, "id"), Field(f, "name"), Field(f, "arguments"), true, None, env);
  }

  lemma {:induction false} ResponsesMeans(b: Json, spare: string, env: Env)
    requires b.Obj?
    ensures ReadAsMeant(OpenAiResponses, b, spare, env, ResponsesBlock(b.fields, env))
  {
    AddMeans(Field(b, "call_id"), Field(b, "name"), Field(b, "arguments"), true, None, env);
    ContentMeans(Field(b, "content"));
  }

  lemma {:induction false} ClaudeMeans(b: Json, spare: string, env: Env)
    requires b.Obj?
    ensures ReadAsMeant(Claude, b, spare, env, ClaudeBlock(b.fields, env))
  {
    AddMeans(Field(b, "id"), Field(b, "name"), Field(b, "input"), false, None, env);
    if Field(b, "text").Str? {
      TextOkMeans(Field(b, "text").s);
    }
  }

  lemma {:induction false} GeminiMeans(b: Json, spare: string, env: Env)
    requires b.Obj?
    ensures ReadAsMeant(Gemini, b, spare, env, GeminiBlock(b.fields, spare, env))
  {
    var f := Field(b, "functionCall");
    AddMeans(Field(f, "id"), Field(f, "name"), GeminiArgs(b), false, Some(spare), env);
    if Field(b, "text").Str? {
      TextOkMeans(Field(b, "text").s);
    }
  }

  lemma {:induction false} BlockMeans(p: Provider, b: Json, spare: string, env: Env)
    ensures ReadAsMeant(p, b, spare, env, Block(p, b, spare, env))
  {
    if b.Obj? {
      match p
      case OpenAiChat => ChatMeans(b, spare, env);
      case OpenAiResponses => ResponsesMeans(b, spare, env);
      case Claude => ClaudeMeans(b, spare, env);
      case Gemini => GeminiMeans(b, spare, env);
    }
  }
}

/** Whole responses, the tool catalogue, and the replay. */
module TurnLaws {
  import opened Common
  import opened Json
  import opened SchemaModel
  import opened AgentArguments
  import opened AgentTurns
  import opened TurnMeaning

  // ----- the loop over the blocks -----

  function AsksOf(p: Provider): Json -> bool {
    b => Asks(p, b)
  }

  function ShowsOf(p: Provider): Json -> string {
    b => Shows(p, b)
  }

  /** The id that stands in for a missing one in block i: the next unused stored or random one. */
  function SpareFor(p: Provider, blocks: seq<Json>, ids: seq<string>, env: Env, i: nat): string
    requires i <= |blocks|
  {
    var n := |Picks(blocks[..i], AsksOf(p))|;
    if n < |ids| then ids[n] else env.uuid(n)
  }

  ghost predicate AllReadable(p: Provider, blocks: seq<Json>, ids: seq<string>, env: Env) {
    forall i :: 0 <= i < |blocks| ==> ReadableAt(p, blocks, ids, env, i)
  }

  /** The calls are those the blocks ask for, in order. */
  ghost predicate CallsAsked(p: Provider, blocks: seq<Json>, ids: seq<string>, env: Env, calls: seq<ToolCall>) {
    var picks := Picks(blocks, AsksOf(p));
    && |calls| == |picks|
    && forall i :: 0 <= i < |calls| ==>
         AskedFor(p, picks[i], if i < |ids| then ids[i] else env.uuid(i), env, calls[i])
  }

  ghost predicate CollectedAsMeant(p: Provider, blocks: seq<Json>, ids: seq<string>, env: Env, es: Option<seq<Emit>>) {
    && (es.Some? <==> AllReadable(p, blocks, ids, env))
    && (es.Some? ==>
          && TextOf(es.value) == Texts(blocks, ShowsOf(p)) && CallsAsked(p, blocks, ids, env, CallsOf(es.value)))
  }

  lemma {:induction false} SparePrefix(p: Provider, blocks: seq<Json>, ids: seq<string>, env: Env, n: nat, i: nat)
    requires i <= n <= |blocks|
    ensures SpareFor(p, blocks[..n], ids, env, i) == SpareFor(p, blocks, ids, env, i)
  {
    assert blocks[..n][..i] == blocks[..i];
  }

  /** Block i is readable where it stands. */
  ghost predicate ReadableAt(p: Provider, blocks: seq<Json>, ids: seq<string>, env: Env, i: nat)
    requires i < |blocks|
  {
    Readable(p, blocks[i], SpareFor(p, blocks, ids, env, i), env)
  }

  lemma {:induction false} ReadableInPrefix(p: Provider, blocks: seq<Json>, ids: seq<string>, env: Env, n: nat, i: nat)
    requires i < n <= |blocks|
    ensures ReadableAt(p, blocks[..n], ids, env, i) <==> ReadableAt(p, blocks, ids, env, i)
  {
    SparePrefix(p, blocks, ids, env, n, i);
    assert blocks[..n][i] == blocks[i];
  }

  lemma {:induction false} ReadablePrefix(p: Provider, blocks: seq<Json>, ids: seq<string>, env: Env)
    requires blocks != []
    ensures var n := |blocks| - 1;
            AllReadable(p, blocks, ids, env) <==>
              AllReadable(p, blocks[..n], ids, env) && ReadableAt(p, blocks, ids, env, n)
  {
    var n := |blocks| - 1;
    var front := blocks[..n];
    forall i | 0 <= i < n ensures ReadableAt(p, front, ids, env, i) <==> ReadableAt(p, blocks, ids, env, i) {
      ReadableInPrefix(p, blocks, ids, env, n, i);
    }
    if AllReadable(p, front, ids, env) && ReadableAt(p, blocks, ids, env, n) {
      forall i | 0 <= i < |blocks| ensures ReadableAt(p, blocks, ids, env, i) {
        assert i < n ==> ReadableAt(p, front, ids, env, i);
      }
    }
    if AllReadable(p, blocks, ids, env) {
      forall i | 0 <= i < n ensures ReadableAt(p, front, ids, env, i) {
        assert ReadableAt(p, blocks, ids, env, i);
      }
    }
  }

  lemma {:induction false} CallsGrow(p: Provider, blocks: seq<Json>, ids: seq<string>, env: Env, calls: seq<ToolCall>,
                                     e: Emit)
    requires blocks != [] && CallsAsked(p, blocks[..|blocks| - 1], ids, env, calls)
    requires ReadAsMeant(p, blocks[|blocks| - 1], SpareFor(p, blocks, ids, env, |blocks| - 1), env, Some(e))
    ensures CallsAsked(p, blocks, ids, env, calls + if e.call.Some? then [e.call.value] else [])
  {
    assert blocks[..|blocks| - 1] == blocks[..|blocks| - 1];
  }

  lemma {:induction false} CollectMeans(p: Provider, blocks: seq<Json>, ids: seq<string>, env: Env)
    ensures CollectedAsMeant(p, blocks, ids, env, Collect(p, blocks, ids, env))
    decreases |blocks|
  {
    if blocks != [] {
      var n := |blocks| - 1;
      var done := Collect(p, blocks[..n], ids, env);
      CollectMeans(p, blocks[..n], ids, env);
      ReadablePrefix(p, blocks, ids, env);
      BlockMeans(p, blocks[n], SpareFor(p, blocks, ids, env, n), env);
      if done.Some? {
        CollectStep(p, blocks, ids, env, done.value);
      }
    }
  }

  lemma {:induction false} CollectStep(p: Provider, blocks: seq<Json>, ids: seq<string>, env: Env, done: seq<Emit>)
    requires blocks != [] && Collect(p, blocks[..|blocks| - 1], ids, env) == Some(done)
    requires CallsAsked(p, blocks[..|blocks| - 1], ids, env, CallsOf(done))
    requires TextOf(done) == Texts(blocks[..|blocks| - 1], ShowsOf(p))
    ensures var n := |blocks| - 1;
            var e := Block(p, blocks[n], SpareFor(p, blocks, ids, env, n), env);
            && (Collect(p, blocks, ids, env) == if e.None? then None else Some(done + [e.value]))
            && (e.Some? ==>
                  && TextOf(done + [e.value]) == Texts(blocks, ShowsOf(p))
                  && CallsAsked(p, blocks, ids, env, CallsOf(done + [e.value])))
  {
    var n := |blocks| - 1;
    var spare := SpareFor(p, blocks, ids, env, n);
    var e := Block(p, blocks[n], spare, env);
    BlockMeans(p, blocks[n], spare, env);
    assert spare == SupplyOf(ids, env)(|CallsOf(done)|);
    assert e == ReaderOf(p, env)(blocks[n], spare);
    if e.Some? {
      LastEmit(done, e.value);
      CallsGrow(p, blocks, ids, env, CallsOf(done), e.value);
    }
  }

  // ----- whole responses -----

  predicate Objects(v: Json) {
    v.Arr? && forall i :: 0 <= i < |v.items| ==> v.items[i].Obj?
  }

  function FirstOf(v: Json): Json {
    if v.Arr? && v.items != [] then v.items[0] else Null
  }

  function ChatMessage(r: Json): Json {
    Field(FirstOf(Field(r, "choices")), "message")
  }

  function GeminiContent(r: Json): Json {
    Field(FirstOf(Field(r, "candidates")), "content")
  }

  /** Where the provider puts its blocks. */
  function BlocksOf(p: Provider, r: Json): Json {
    match p
    case OpenAiChat => if Has(ChatMessage(r), "tool_calls") then Field(ChatMessage(r), "tool_calls") else Arr([])
    case OpenAiResponses => Field(r, "output")
    case Claude => Field(r, "content")
    case Gemini => Field(GeminiContent(r), "parts")
  }

  /** The visible text of a chat message: its content, or its refusal if that is empty. */
  function ChatShown(m: Json): string {
    if ContentText(Field(m, "content")) == "" && Field(m, "refusal").Str? then Field(m, "refusal").s
    else ContentText(Field(m, "content"))
  }

  predicate ChatVisible(m: Json) {
    && VisibleContent(Field(m, "content"))
    && (ContentText(Field(m, "content")) == "" && !Falsy(Field(m, "refusal")) ==>
          Field(m, "refusal").Str? && SafeText(Field(m, "refusal").s))
  }

  /** The provider says that the generation is complete, and the message is the model's. */
  predicate Finished(p: Provider, r: Json) {
    match p
    case OpenAiChat =>
      var choice, m := FirstOf(Field(r, "choices")), ChatMessage(r);
      && Objects(Field(r, "choices")) && choice.Obj?
      && (Has(choice, "finish_reason") ==> Field(choice, "finish_reason") in {Str("stop"), Str("tool_calls")})
      && HasOr(m, "role", "assistant") && Falsy(Field(m, "function_call")) && ChatVisible(m)
    case OpenAiResponses => HasOr(r, "status", "completed")
    case Claude =>
      Has(r, "stop_reason") ==>
        Field(r, "stop_reason") in {Str("end_turn"), Str("tool_use"), Str("stop_sequence"), Str("refusal")}
    case Gemini =>
      && Objects(Field(r, "candidates")) && HasOr(FirstOf(Field(r, "candidates")), "finishReason", "STOP")
      && HasOr(GeminiContent(r), "role", "model")
  }

  function ShownIn(p: Provider, r: Json): string {
    if p.OpenAiChat? then ChatShown(ChatMessage(r))
    else if BlocksOf(p, r).Arr? then Texts(BlocksOf(p, r).items, ShowsOf(p)) else ""
  }

  /** The responses that can become a turn, apart from repeated ids and empty turns. */
  ghost predicate Parsable(p: Provider, r: Json, ids: seq<string>, env: Env) {
    && Shallow(r, 96) && r.Obj? && Finished(p, r)
    && Objects(BlocksOf(p, r)) && AllReadable(p, BlocksOf(p, r).items, if p.Gemini? then ids else [], env)
  }

  ghost predicate ParsedAsMeant(p: Provider, r: Json, ids: seq<string>, env: Env, raw: Option<Raw>) {
    && (raw.Some? <==> Parsable(p, r, ids, env))
    && (raw.Some? ==>
          && raw.value.text == ShownIn(p, r)
          && CallsAsked(p, BlocksOf(p, r).items, if p.Gemini? then ids else [], env, raw.value.calls))
  }

  lemma {:induction false} ResponsesParse(r: Json, ids: seq<string>, env: Env)
    ensures ParsedAsMeant(OpenAiResponses, r, ids, env, ParseRaw(OpenAiResponses, r, ids, env))
  {
    if Objects(Field(r, "output")) {
      CollectMeans(OpenAiResponses, Field(r, "output").items, [], env);
    }
  }

  lemma {:induction false} ClaudeParse(r: Json, ids: seq<string>, env: Env)
    ensures ParsedAsMeant(Claude, r, ids, env, ParseRaw(Claude, r, ids, env))
  {
    if Objects(Field(r, "content")) {
      CollectMeans(Claude, Field(r, "content").items, [], env);
    }
  }

  lemma {:induction false} GeminiParse(r: Json, ids: seq<string>, env: Env)
    ensures ParsedAsMeant(Gemini, r, ids, env, ParseRaw(Gemini, r, ids, env))
  {
    var parts := Field(GeminiContent(r), "parts");
    if Objects(parts) {
      CollectMeans(Gemini, parts.items, ids, env);
    }
  }

  lemma {:induction false} ChatTextMeans(m: Json)
    requires m.Obj?
    ensures ChatText(m.fields).Some? <==> ChatVisible(m)
    ensures ChatText(m.fields).Some? ==> ChatText(m.fields).value == ChatShown(m)
  {
    ContentMeans(Field(m, "content"));
    FalsyMeans(Field(m, "refusal"));
    if Field(m, "refusal").Str? {
      TextOkMeans(Field(m, "refusal").s);
    }
  }

  /** A message that the chat parser reads. */
  ghost predicate MessageParsable(m: Json, env: Env) {
    var calls := if Has(m, "tool_calls") then Field(m, "tool_calls") else Arr([]);
    && HasOr(m, "role", "assistant") && Falsy(Field(m, "function_call")) && ChatVisible(m)
    && Objects(calls) && AllReadable(OpenAiChat, calls.items, [], env)
  }

  lemma {:induction false} MessageParse(m: Json, env: Env)
    requires m.Obj?
    ensures var raw := ParseMessage(m.fields, env);
            && (raw.Some? <==> MessageParsable(m, env))
            && (raw.Some? ==>
                  && raw.value.text == ChatShown(m)
                  && CallsAsked(OpenAiChat, if Has(m, "tool_calls") then Field(m, "tool_calls").items else [], [], env,
                                raw.value.calls))
  {
    ChatTextMeans(m);
    FalsyMeans(Field(m, "function_call"));
    if Has(m, "tool_calls") && Objects(Field(m, "tool_calls")) {
      CollectMeans(OpenAiChat, Field(m, "tool_calls").items, [], env);
    }
  }

  lemma {:induction false} ChatParse(r: Json, ids: seq<string>, env: Env)
    ensures ParsedAsMeant(OpenAiChat, r, ids, env, ParseRaw(OpenAiChat, r, ids, env))
  {
    var m := ChatMessage(r);
    if m.Obj? {
      MessageParse(m, env);
    }
  }

  lemma {:induction false} RawMeans(p: Provider, r: Json, ids: seq<string>, env: Env)
    ensures ParsedAsMeant(p, r, ids, env, ParseRaw(p, r, ids, env))
  {
    match p
    case OpenAiChat => ChatParse(r, ids, env);
    case OpenAiResponses => ResponsesParse(r, ids, env);
    case Claude => ClaudeParse(r, ids, env);
    case Gemini => GeminiParse(r, ids, env);
  }

  lemma {:induction false} AskedOnce(p: Provider, b: Json, spare: string, env: Env, a: ToolCall, c: ToolCall)
    requires AskedFor(p, b, spare, env, a) && AskedFor(p, b, spare, env, c)
    ensures a == c
  {
  }

  lemma {:induction false} AskedUniquely(p: Provider, blocks: seq<Json>, ids: seq<string>, env: Env, a: seq<ToolCall>,
                                         c: seq<ToolCall>)
    requires CallsAsked(p, blocks, ids, env, a) && CallsAsked(p, blocks, ids, env, c)
    ensures a == c
  {
    forall i | 0 <= i < |a| ensures a[i] == c[i] {
      AskedOnce(p, Picks(blocks, AsksOf(p))[i], if i < |ids| then ids[i] else env.uuid(i), env, a[i], c[i]);
    }
  }

  /** These are the calls of the response, under distinct ids, and the turn is not empty. */
  ghost predicate MakesTurn(p: Provider, r: Json, ids: seq<string>, env: Env, calls: seq<ToolCall>)
    requires Parsable(p, r, ids, env)
  {
    && CallsAsked(p, BlocksOf(p, r).items, if p.Gemini? then ids else [], env, calls)
    && (forall i, j :: 0 <= i < j < |calls| ==> calls[i].id != calls[j].id)
    && (ShownIn(p, r) != "" || calls != [])
  }

  lemma {:induction false} RawTurn(p: Provider, r: Json, ids: seq<string>, env: Env, raw: Raw)
    requires ParseRaw(p, r, ids, env) == Some(raw)
    ensures var turn := Parse(p, r, None, ids, env);
            && (turn.Some? <==> DistinctIds(raw.calls) && (raw.text != "" || raw.calls != []))
            && (turn.Some? ==> turn.value.content == raw.text && turn.value.calls == raw.calls)
  {
    assert Canonicals(p, raw.calls, None) == raw.calls;
  }

  lemma {:induction false} RawMakesTurn(p: Provider, r: Json, ids: seq<string>, env: Env, raw: Raw)
    requires ParsedAsMeant(p, r, ids, env, Some(raw))
    ensures (exists calls: seq<ToolCall> :: MakesTurn(p, r, ids, env, calls)) <==> MakesTurn(p, r, ids, env, raw.calls)
    ensures MakesTurn(p, r, ids, env, raw.calls) <==> DistinctIds(raw.calls) && (raw.text != "" || raw.calls != [])
  {
    if calls: seq<ToolCall> :| MakesTurn(p, r, ids, env, calls) {
      AskedUniquely(p, BlocksOf(p, r).items, if p.Gemini? then ids else [], env, raw.calls, calls);
    }
  }

  /**
   * Without a catalogue a response is accepted exactly when it is parsable,
   * its calls have distinct ids and it shows or asks for something; the turn
   * then holds the text it shows, block by block, and the calls its blocks ask
   * for, in order.
   */
  lemma {:induction false} TurnIsTheResponse(p: Provider, r: Json, ids: seq<string>, env: Env)
    ensures var turn := Parse(p, r, None, ids, env);
            && (turn.Some? <==>
                  Parsable(p, r, ids, env) && exists calls: seq<ToolCall> :: MakesTurn(p, r, ids, env, calls))
            && (turn.Some? ==> turn.value.content == ShownIn(p, r) && MakesTurn(p, r, ids, env, turn.value.calls))
  {
    RawMeans(p, r, ids, env);
    var raw := ParseRaw(p, r, ids, env);
    if raw.Some? {
      RawTurn(p, r, ids, env, raw.value);
      RawMakesTurn(p, r, ids, env, raw.value);
    }
  }

  // ----- the tool catalogue -----

  /** The arguments that are validated: wire-only nulls are undone for the two OpenAI providers. */
  ghost function Checked(p: Provider, call: ToolCall, schema: Schema): Json {
    if p.OpenAiChat? || p.OpenAiResponses? then Undo(call.arguments, schema) else call.arguments
  }

  /** Every call of an accepted turn is in the catalogue, fits its schema and has an id of its own. */
  lemma {:induction false} CatalogueIsEnforced(p: Provider, r: Json, tools: map<string, Schema>, ids: seq<string>,
                                               env: Env)
    requires Parse(p, r, Some(tools), ids, env).Some?
    ensures var calls := Parse(p, r, Some(tools), ids, env).value.calls;
            && (forall i :: 0 <= i < |calls| ==>
                  calls[i].name in tools && Matches(calls[i].arguments, tools[calls[i].name]))
            && (forall i, j :: 0 <= i < j < |calls| ==> calls[i].id != calls[j].id)
  {
    var raw := ParseRaw(p, r, ids, env).value.calls;
    var calls := Parse(p, r, Some(tools), ids, env).value.calls;
    forall i | 0 <= i < |calls|
      ensures calls[i].name in tools && Matches(calls[i].arguments, tools[calls[i].name]) && calls[i].id == raw[i].id
    {
      assert calls[i] == Canonical(p, raw[i], Some(tools));
      assert Allowed(p, raw[i], Some(tools));
    }
  }

  /**
   * A catalogue accepts a turn exactly when the turn is accepted without one
   * and each call is listed and fits its schema, after the undoing; and then
   * it changes nothing but the arguments it undid.
   */
  lemma {:induction false} CatalogueAccepts(p: Provider, r: Json, tools: map<string, Schema>, ids: seq<string>,
                                            env: Env)
    ensures var plain, checked := Parse(p, r, None, ids, env), Parse(p, r, Some(tools), ids, env);
            && (checked.Some? <==> plain.Some? && AllListed(p, plain.value.calls, tools))
            && (checked.Some? ==>
                  && checked.value.content == plain.value.content && checked.value.data == plain.value.data
                  && OnlyUndone(p, plain.value.calls, checked.value.calls, tools))
  {
    var raw := ParseRaw(p, r, ids, env);
    if raw.Some? {
      var calls := raw.value.calls;
      assert Canonicals(p, calls, None) == calls;
      AllowedMeans(p, calls, tools);
      if AllListed(p, calls, tools) {
        UndoneMeans(p, calls, tools);
      }
    }
  }

  /** Each call is in the catalogue and its arguments, once undone, fit the schema. */
  ghost predicate AllListed(p: Provider, calls: seq<ToolCall>, tools: map<string, Schema>) {
    forall i :: 0 <= i < |calls| ==>
      calls[i].name in tools && Matches(Checked(p, calls[i], tools[calls[i].name]), tools[calls[i].name])
  }

  /** The calls are the same, with the validated arguments. */
  ghost predicate OnlyUndone(p: Provider, plain: seq<ToolCall>, checked: seq<ToolCall>, tools: map<string, Schema>) {
    && |checked| == |plain|
    && forall i :: 0 <= i < |plain| ==>
         && plain[i].name in tools && checked[i].id == plain[i].id && checked[i].name == plain[i].name
         && checked[i].arguments == Checked(p, plain[i], tools[plain[i].name])
  }

  lemma {:induction false} AllowedMeans(p: Provider, calls: seq<ToolCall>, tools: map<string, Schema>)
    ensures (forall i :: 0 <= i < |calls| ==> Allowed(p, calls[i], Some(tools))) <==> AllListed(p, calls, tools)
    ensures forall i :: 0 <= i < |calls| ==> Allowed(p, calls[i], None)
  {
    forall i | 0 <= i < |calls|
      ensures Allowed(p, calls[i], Some(tools)) <==>
                calls[i].name in tools && Matches(Checked(p, calls[i], tools[calls[i].name]), tools[calls[i].name])
    {
    }
  }

  lemma {:induction false} UndoneMeans(p: Provider, calls: seq<ToolCall>, tools: map<string, Schema>)
    requires AllListed(p, calls, tools)
    ensures OnlyUndone(p, calls, Canonicals(p, calls, Some(tools)), tools)
  {
  }

  // ----- what is stored -----

  /** The same block, restricted to these keys. */
  predicate Restricted(b: Json, kept: Json, keys: set<string>) {
    && b.Obj? && kept.Obj? && kept.fields.Keys == b.fields.Keys * keys
    && forall k :: k in kept.fields ==> kept.fields[k] == b.fields[k]
  }

  /** What a Responses block leaves in the stored turn. */
  predicate StoredBlock(b: Json, kept: Json) {
    && (Field(b, "type") == Str("function_call") ==>
          Restricted(b, kept, {"type", "id", "call_id", "name", "arguments", "status"}))
    && (Field(b, "type") == Str("message") ==>
          Restricted(b, kept, {"type", "id", "role", "content", "status", "phase"}))
    && (Field(b, "type") == Str("reasoning") ==>
          Restricted(b, kept, {"type", "id", "summary", "content", "encrypted_content", "status"}))
  }

  lemma {:induction false} KeepRestricts(b: Json, keys: set<string>)
    requires b.Obj?
    ensures Restricted(b, Obj(Keep(b.fields, keys)), keys)
  {
  }

  lemma {:induction false} ResponsesBlockStores(b: Json, env: Env)
    requires b.Obj? && ResponsesBlock(b.fields, env).Some?
    ensures StoredBlock(b, ResponsesBlock(b.fields, env).value.native)
  {
    KeepRestricts(b, {"type", "id", "call_id", "name", "arguments", "status"});
    KeepRestricts(b, {"type", "id", "role", "content", "status", "phase"});
    KeepRestricts(b, {"type", "id", "summary", "content", "encrypted_content", "status"});
  }

  /** A stored chat call: its id, name and argument text as sent, as a function call. */
  predicate StoredCall(b: Json, kept: Json) {
    var f := Field(b, "function");
    kept == Obj(map["type" := Str("function"), "id" := Field(b, "id"),
                    "function" := Obj(map["name" := Field(f, "name"), "arguments" := Field(f, "arguments")])])
  }

  lemma {:induction false} EmitsCount(p: Provider, blocks: seq<Json>, ids: seq<string>, env: Env)
    requires Collect(p, blocks, ids, env).Some?
    ensures |Collect(p, blocks, ids, env).value| == |blocks|
    decreases |blocks|
  {
    if blocks != [] {
      EmitsCount(p, blocks[..|blocks| - 1], ids, env);
    }
  }

  lemma {:induction false} LastRead(p: Provider, blocks: seq<Json>, ids: seq<string>, env: Env)
    requires Collect(p, blocks, ids, env).Some? && blocks != []
    ensures var n := |blocks| - 1;
            var front, all := Collect(p, blocks[..n], ids, env), Collect(p, blocks, ids, env).value;
            && front.Some? && |all| == |front.value| + 1 && all[..|front.value|] == front.value
            && Some(all[|front.value|]) == Block(p, blocks[n], SupplyOf(ids, env)(|CallsOf(front.value)|), env)
  {
  }

  lemma {:induction false} EmitsAt(p: Provider, blocks: seq<Json>, ids: seq<string>, env: Env, i: nat)
    returns (spare: string)
    requires Collect(p, blocks, ids, env).Some? && i < |blocks|
    ensures var es := Collect(p, blocks, ids, env).value;
            |es| == |blocks| && Some(es[i]) == Block(p, blocks[i], spare, env)
    decreases |blocks|
  {
    var n := |blocks| - 1;
    LastRead(p, blocks, ids, env);
    EmitsCount(p, blocks, ids, env);
    var front, all := Collect(p, blocks[..n], ids, env).value, Collect(p, blocks, ids, env).value;
    if i < n {
      spare := EmitsAt(p, blocks[..n], ids, env, i);
      assert blocks[..n][i] == blocks[i] && all[i] == all[..n][i];
    } else {
      spare := SupplyOf(ids, env)(|CallsOf(front)|);
    }
  }

  /** What is kept of a Responses turn: every block, in order, with exactly its replayable fields. */
  lemma {:induction false} ResponsesStored(r: Json, tools: Option<map<string, Schema>>, ids: seq<string>, env: Env)
    requires Parse(OpenAiResponses, r, tools, ids, env).Some?
    ensures var payload, output := Parse(OpenAiResponses, r, tools, ids, env).value.data.payload, Field(r, "output");
            && payload.Arr? && output.Arr? && |payload.items| == |output.items|
            && forall i :: 0 <= i < |output.items| ==> StoredBlock(output.items[i], payload.items[i])
  {
    var blocks := Field(r, "output").items;
    var es := Collect(OpenAiResponses, blocks, [], env).value;
    EmitsCount(OpenAiResponses, blocks, [], env);
    forall i | 0 <= i < |blocks| ensures StoredBlock(blocks[i], es[i].native) {
      var spare := EmitsAt(OpenAiResponses, blocks, [], env, i);
      ResponsesBlockStores(blocks[i], env);
    }
  }

  /** A Claude turn keeps its content as sent, a Gemini turn its content and the ids that were used. */
  lemma {:induction false} VerbatimStored(p: Provider, r: Json, tools: Option<map<string, Schema>>, ids: seq<string>,
                                          env: Env)
    requires (p.Claude? || p.Gemini?) && Parse(p, r, tools, ids, env).Some?
    ensures var turn := Parse(p, r, tools, ids, env).value;
            && turn.data.provider == p
            && turn.data.payload == (if p.Claude? then Field(r, "content") else GeminiContent(r))
            && (p.Claude? ==> turn.data.callIds == None)
            && (p.Gemini? ==>
                  && turn.data.callIds.Some? && |turn.data.callIds.value| == |turn.calls|
                  && forall i :: 0 <= i < |turn.calls| ==> turn.data.callIds.value[i] == turn.calls[i].id)
  {
  }

  /** A chat turn keeps role, content, the reasoning and refusal fields, and its calls. */
  lemma {:induction false} ChatStored(r: Json, tools: Option<map<string, Schema>>, ids: seq<string>, env: Env)
    requires Parse(OpenAiChat, r, tools, ids, env).Some?
    ensures var payload, m := Parse(OpenAiChat, r, tools, ids, env).value.data.payload, ChatMessage(r);
            payload.Obj? && m.Obj? && StoredMessage(m, payload)
  {
    var m := ChatMessage(r);
    if Has(m, "tool_calls") {
      ChatCallsStored(Field(m, "tool_calls").items, env);
      NativeMeans(m, Collect(OpenAiChat, Field(m, "tool_calls").items, [], env));
    } else {
      NativeMeans(m, None);
    }
  }

  ghost predicate StoredMessage(m: Json, payload: Json) {
    && Field(payload, "role") == Str("assistant") && Has(payload, "content")
    && Field(payload, "content") == Field(m, "content") && StoredExtras(m, payload)
    && (Has(payload, "tool_calls") <==> Has(m, "tool_calls"))
    && (Has(m, "tool_calls") ==> StoredCalls(Field(m, "tool_calls"), Field(payload, "tool_calls")))
  }

  ghost predicate StoredExtras(m: Json, payload: Json) {
    && (forall k :: k in {"reasoning_content", "reasoning_details", "refusal"} ==>
          (Has(payload, k) <==> Has(m, k)) && Field(payload, k) == Field(m, k))
    && (forall k :: Has(payload, k) ==>
          k in {"role", "content", "tool_calls", "reasoning_content", "reasoning_details", "refusal"})
  }

  predicate StoredCalls(sent: Json, kept: Json) {
    && sent.Arr? && kept.Arr? && |kept.items| == |sent.items|
    && forall i :: 0 <= i < |sent.items| ==> StoredCall(sent.items[i], kept.items[i])
  }

  lemma {:induction false} NativeMeans(m: Json, es: Option<seq<Emit>>)
    requires m.Obj?
    ensures var payload := Obj(ChatNative(m.fields, es));
            && Field(payload, "role") == Str("assistant") && Has(payload, "content")
            && Field(payload, "content") == Field(m, "content") && StoredExtras(m, payload)
            && (Has(payload, "tool_calls") <==> es.Some?)
            && (es.Some? ==> Field(payload, "tool_calls") == Arr(NativeOf(es.value)))
  {
  }

  lemma {:induction false} ChatCallsStored(blocks: seq<Json>, env: Env)
    requires Collect(OpenAiChat, blocks, [], env).Some?
    ensures var native := NativeOf(Collect(OpenAiChat, blocks, [], env).value);
            |native| == |blocks| && forall i :: 0 <= i < |blocks| ==> StoredCall(blocks[i], native[i])
  {
    var es := Collect(OpenAiChat, blocks, [], env).value;
    EmitsCount(OpenAiChat, blocks, [], env);
    forall i | 0 <= i < |blocks| ensures StoredCall(blocks[i], es[i].native) {
      var spare := EmitsAt(OpenAiChat, blocks, [], env, i);
    }
  }

  // ----- the replay -----

  /** The turn parsed again has the same text, ids and names, and the same arguments up to undone nulls. */
  ghost predicate Reproduces(again: Turn, turn: Turn) {
    && again.content == turn.content && |again.calls| == |turn.calls|
    && forall i :: 0 <= i < |turn.calls| ==>
         && again.calls[i].id == turn.calls[i].id && again.calls[i].name == turn.calls[i].name
         && Same(again.calls[i].arguments, turn.calls[i].arguments)
  }

  /** The stored ids are those of the calls. */
  predicate CarriesIds(turn: Turn) {
    && turn.data.callIds.Some? && |turn.data.callIds.value| == |turn.calls|
    && forall i :: 0 <= i < |turn.calls| ==> turn.data.callIds.value[i] == turn.calls[i].id
  }

  lemma {:induction false} CarriesIdsMeans(turn: Turn)
    ensures CarriesIds(turn) <==> turn.data.callIds == Some(IdsOf(turn.calls))
  {
    if CarriesIds(turn) {
      assert turn.data.callIds.value == IdsOf(turn.calls);
    }
  }

  lemma {:induction false} ReproducesMeans(again: Turn, turn: Turn)
    ensures Reproduces(again, turn) <==> again.content == turn.content && SameCalls(turn.calls, again.calls)
  {
  }

  /**
   * The replay accepts a stored turn exactly when it belongs to the provider,
   * carries its own call ids where they may be missing, and its provider data
   * still parses to the same turn; and then it answers that data.
   */
  lemma {:induction false} ReplayAccepts(turn: Turn, p: Provider, env: Env)
    ensures var ids := if turn.data.callIds.Some? then turn.data.callIds.value else [];
            var again := Parse(p, Fixture(turn.data), None, ids, env);
            && (Replay(turn, p, env).Some? <==>
                  && turn.data.provider == p && (p.Gemini? ==> CarriesIds(turn))
                  && again.Some? && Reproduces(again.value, turn))
            && (Replay(turn, p, env).Some? ==> Replay(turn, p, env).value == again.value.data)
  {
    var ids := if turn.data.callIds.Some? then turn.data.callIds.value else [];
    var again := Parse(p, Fixture(turn.data), None, ids, env);
    CarriesIdsMeans(turn);
    if again.Some? {
      ReproducesMeans(again.value, turn);
    }
  }

  /** The response rebuilt for the replay holds the stored data where the provider puts it, and nothing else. */
  lemma {:induction false} RebuiltResponse(data: ProviderData)
    ensures var r := Fixture(data);
            && (data.provider.OpenAiChat? ==> ChatMessage(r) == data.payload)
            && (data.provider.OpenAiResponses? ==> Field(r, "output") == data.payload)
            && (data.provider.Claude? ==> Field(r, "content") == data.payload)
            && (data.provider.Gemini? ==> GeminiContent(r) == data.payload)
            && r.Obj? && |r.fields.Keys| == 1
  {
  }

  /** The comparison of arguments, one level at a time: only nulls may be missing. */
  lemma {:induction false} SameMeans(native: Json, canonical: Json)
    ensures native.Obj? && canonical.Obj? ==>
              (Same(native, canonical) <==>
                 && (forall k :: k in canonical.fields ==>
                     k in native.fields && Same(native.fields[k], canonical.fields[k]))
                 && (forall k :: k in native.fields && k !in canonical.fields ==> native.fields[k] == Null))
    ensures native.Arr? && canonical.Arr? ==>
              (Same(native, canonical) <==>
                 && |native.items| == |canonical.items|
                 && forall i :: 0 <= i < |native.items| ==> Same(native.items[i], canonical.items[i]))
    ensures !(native.Obj? && canonical.Obj?) && !(native.Arr? && canonical.Arr?) ==>
              (Same(native, canonical) <==> native == canonical)
  {
  }
}
