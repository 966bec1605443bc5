/**
 * Conversation history of backend/ai_provider_adapters.py: `_agent_messages`
 * checks that every tool call has exactly one result, and puts the results of
 * each batch into call order.
 */
module HistoryModel {
  import opened Common
  import opened Json
  import opened AgentText
  import opened AgentTurns

  /**
   * One history item.  Absent `tool_calls` and `provider_data` are None;
   * Malformed is any item whose fields do not have these shapes.
   */
  datatype Msg =
    | User(content: string)
    | System(content: string)
    | Assistant(content: string, calls: Option<seq<ToolCall>>, data: Option<map<string, Json>>)
    | Tool(id: string, name: string, body: map<string, Json>)
    | Malformed

  function Calls(m: Msg): seq<ToolCall> {
    if m.Assistant? && m.calls.Some? then m.calls.value else []
  }

  /** `_agent_calls` */
  predicate CallsOk(calls: seq<ToolCall>) {
    && (forall i :: 0 <= i < |calls| ==> IdOk(calls[i].id) && NameOk(calls[i].name) && calls[i].arguments.Obj?)
    && (forall i, j :: 0 <= i < j < |calls| ==> calls[i].id != calls[j].id)
  }

  /** An item of the right shape; the nesting limit counts from the list of all messages. */
  predicate WellTyped(m: Msg) {
    match m
    case User(c) => TextOk(c)
    case System(c) => TextOk(c)
    case Assistant(c, _, data) =>
      && TextOk(c) && CallsOk(Calls(m)) && (data.Some? ==> Shallow(Obj(data.value), MAX_DEPTH - 2))
      && forall i :: 0 <= i < |Calls(m)| ==> Shallow(Calls(m)[i].arguments, MAX_DEPTH - 4)
    case Tool(id, _, body) => IdOk(id) && Shallow(Obj(body), MAX_DEPTH - 2)
    case Malformed => false
  }

  /** The copy that is kept: an assistant item gets both optional fields. */
  function Clean(m: Msg): Msg {
    if m.Assistant? then
      Assistant(m.content, Some(Calls(m)), Some(if m.data.Some? then m.data.value else map[]))
    else m
  }

  function IdSet(calls: seq<ToolCall>): set<string> {
    set i | 0 <= i < |calls| :: calls[i].id
  }

  /** A result for one of the calls, under the name that was called. */
  predicate Answers(t: Msg, calls: seq<ToolCall>) {
    t.Tool? && WellTyped(t) && exists i :: 0 <= i < |calls| && calls[i].id == t.id && calls[i].name == t.name
  }

  /** Some of the calls answered, none of them twice. */
  predicate PartialBatch(calls: seq<ToolCall>, batch: seq<Msg>) {
    && (forall j :: 0 <= j < |batch| ==> Answers(batch[j], calls))
    && (forall i, j :: 0 <= i < j < |batch| ==> batch[i].id != batch[j].id)
  }

  predicate FullBatch(calls: seq<ToolCall>, batch: seq<Msg>) {
    |batch| == |calls| && PartialBatch(calls, batch)
  }

  /** Histories that `_agent_messages` lets through, given the call ids used before. */
  predicate Accepts(ms: seq<Msg>, seen: set<string>)
    decreases |ms|
  {
    ms == [] ||
    (var n := |Calls(ms[0])|;
     && WellTyped(ms[0]) && !ms[0].Tool?
     && IdSet(Calls(ms[0])) !! seen
     && n < |ms| && FullBatch(Calls(ms[0]), ms[1..1 + n])
     && Accepts(ms[1 + n..], seen + IdSet(Calls(ms[0]))))
  }

  /** The result of a batch for this call id. */
  function Find(batch: seq<Msg>, id: string): Msg {
    if batch == [] then Malformed
    else if batch[0].Tool? && batch[0].id == id then batch[0]
    else Find(batch[1..], id)
  }

  function Reorder(calls: seq<ToolCall>, batch: seq<Msg>): seq<Msg> {
    seq(|calls|, i requires 0 <= i < |calls| => Find(batch, calls[i].id))
  }

  /** The history that comes out. */
  function Ordered(ms: seq<Msg>): seq<Msg>
    decreases |ms|
  {
    if ms == [] then []
    else
      var n := |Calls(ms[0])|;
      if n >= |ms| then [Clean(ms[0])]
      else [Clean(ms[0])] + Reorder(Calls(ms[0]), ms[1..1 + n]) + Ordered(ms[1 + n..])
  }
}

module HistoryLoop {
  import opened Common
  import opened AgentTurns
  import opened HistoryModel

  /** `tool_results` holds exactly the results collected so far, by call id. */
  ghost predicate Indexes(results: map<string, Msg>, got: seq<Msg>) {
    && (forall j :: 0 <= j < |got| ==> got[j].Tool? && got[j].id in results && results[got[j].id] == got[j])
    && (forall id :: id in results ==> exists j :: 0 <= j < |got| && got[j].Tool? && got[j].id == id)
    && |results| == |got|
  }

  /** What is still to come when `got` of the pending calls are answered. */
  predicate RestAccepts(pending: seq<ToolCall>, got: seq<Msg>, rest: seq<Msg>, seen: set<string>)
    requires |got| <= |pending|
  {
    var need := |pending| - |got|;
    need <= |rest| && FullBatch(pending, got + rest[..need]) && Accepts(rest[need..], seen)
  }

  function RestOrdered(pending: seq<ToolCall>, got: seq<Msg>, rest: seq<Msg>): seq<Msg>
    requires |got| <= |pending|
  {
    var need := |pending| - |got|;
    if need > |rest| then [] else Reorder(pending, got + rest[..need]) + Ordered(rest[need..])
  }

  lemma {:induction false} FindIn(batch: seq<Msg>, id: string, j: nat)
    requires j < |batch| && batch[j].Tool? && batch[j].id == id
    requires forall i :: 0 <= i < |batch| ==> batch[i].Tool?
    requires forall i, k :: 0 <= i < k < |batch| ==> batch[i].id != batch[k].id
    ensures Find(batch, id) == batch[j]
  {
    if j > 0 {
      FindIn(batch[1..], id, j - 1);
    }
  }

  /** A full batch answers every call, so the index has them all. */
  lemma {:induction false} FullBatchCovers(calls: seq<ToolCall>, batch: seq<Msg>, i: nat) returns (j: nat)
    requires CallsOk(calls) && FullBatch(calls, batch) && i < |calls|
    ensures j < |batch| && batch[j].Tool? && batch[j].id == calls[i].id && batch[j].name == calls[i].name
  {
    var answered := set j | 0 <= j < |batch| :: batch[j].id;
    if forall j :: 0 <= j < |batch| ==> batch[j].id != calls[i].id {
      BatchIds(batch);
      CallIds(calls);
      assert answered <= IdSet(calls) - {calls[i].id};
      SubsetSize(answered, IdSet(calls) - {calls[i].id});
      assert false;
    }
    j :| 0 <= j < |batch| && batch[j].id == calls[i].id;
    var k :| 0 <= k < |calls| && calls[k].id == batch[j].id && calls[k].name == batch[j].name;
    assert k == i;
  }

  lemma {:induction false} BatchIds(batch: seq<Msg>)
    requires forall i :: 0 <= i < |batch| ==> batch[i].Tool?
    requires forall i, k :: 0 <= i < k < |batch| ==> batch[i].id != batch[k].id
    ensures |set j | 0 <= j < |batch| :: batch[j].id| == |batch|
  {
    if batch != [] {
      var front, last := batch[..|batch| - 1], batch[|batch| - 1];
      BatchIds(front);
      assert (set j | 0 <= j < |batch| :: batch[j].id) == (set j | 0 <= j < |front| :: front[j].id) + {last.id};
    }
  }

  lemma {:induction false} CallIds(calls: seq<ToolCall>)
    requires forall i, j :: 0 <= i < j < |calls| ==> calls[i].id != calls[j].id
    ensures |IdSet(calls)| == |calls|
  {
    if calls != [] {
      var front, last := calls[..|calls| - 1], calls[|calls| - 1];
      CallIds(front);
      assert IdSet(calls) == IdSet(front) + {last.id};
    }
  }

  /** The code's test on a tool item is whether it extends the partial batch. */
  predicate Fits(t: Msg, pending: seq<ToolCall>, results: map<string, Msg>) {
    Answers(t, pending) && t.id !in results
  }

  lemma {:induction false} MoreResults(got: seq<Msg>, t: Msg)
    ensures (got + [t])[|got|] == t && forall j :: 0 <= j < |got| ==> (got + [t])[j] == got[j]
  {
  }

  lemma {:induction false} FittingExtends(t: Msg, pending: seq<ToolCall>, results: map<string, Msg>, got: seq<Msg>)
    requires PartialBatch(pending, got) && Indexes(results, got) && Answers(t, pending) && t.id !in results
    ensures PartialBatch(pending, got + [t])
  {
    MoreResults(got, t);
    var more := got + [t];
    forall i, j | 0 <= i < j < |more| ensures more[i].id != more[j].id {
      assert more[i] == got[i];
    }
  }

  lemma {:induction false} ExtensionFits(t: Msg, pending: seq<ToolCall>, results: map<string, Msg>, got: seq<Msg>)
    requires PartialBatch(pending, got + [t]) && Indexes(results, got)
    ensures Answers(t, pending) && t.id !in results
  {
    MoreResults(got, t);
    var more := got + [t];
    assert Answers(more[|got|], pending);
    forall j | 0 <= j < |got| ensures got[j].id != t.id {
      assert more[j].id != more[|got|].id;
    }
  }

  lemma {:induction false} FitsExtends(t: Msg, pending: seq<ToolCall>, results: map<string, Msg>, got: seq<Msg>)
    requires PartialBatch(pending, got) && Indexes(results, got)
    ensures Fits(t, pending, results) <==> PartialBatch(pending, got + [t])
  {
    if Fits(t, pending, results) {
      FittingExtends(t, pending, results, got);
    } else if PartialBatch(pending, got + [t]) {
      ExtensionFits(t, pending, results, got);
    }
  }

  lemma {:induction false} IndexGrows(t: Msg, results: map<string, Msg>, got: seq<Msg>)
    requires Indexes(results, got) && t.Tool? && t.id !in results
    ensures Indexes(results[t.id := t], got + [t])
  {
    var more, results' := got + [t], results[t.id := t];
    assert more[|got|] == t && |results'| == |results| + 1;
    forall id | id in results'
      ensures exists j :: 0 <= j < |more| && more[j].Tool? && more[j].id == id
    {
      if id != t.id {
        var j :| 0 <= j < |got| && got[j].Tool? && got[j].id == id;
        assert more[j].id == id;
      }
    }
  }

  /** Taking one item of the batch from the rest. */
  lemma {:induction false} TakeOne(pending: seq<ToolCall>, got: seq<Msg>, rest: seq<Msg>, seen: set<string>)
    requires |got| < |pending| && rest != []
    ensures RestAccepts(pending, got, rest, seen) <==> RestAccepts(pending, got + [rest[0]], rest[1..], seen)
    ensures RestOrdered(pending, got, rest) == RestOrdered(pending, got + [rest[0]], rest[1..])
  {
    var need := |pending| - |got|;
    if need <= |rest| {
      assert got + rest[..need] == got + [rest[0]] + rest[1..][..need - 1];
      assert rest[need..] == rest[1..][need - 1..];
    }
  }

  lemma {:induction false} BadExtensionRejects(pending: seq<ToolCall>, got: seq<Msg>, rest: seq<Msg>, seen: set<string>)
    requires |got| < |pending| && rest != [] && !PartialBatch(pending, got + [rest[0]])
    ensures !RestAccepts(pending, got, rest, seen)
  {
    var need := |pending| - |got|;
    if need <= |rest| {
      var all := got + rest[..need];
      assert forall j :: 0 <= j < |got| + 1 ==> (got + [rest[0]])[j] == all[j];
      assert !PartialBatch(pending, all);
    }
  }

  lemma {:induction false} FullReorder(pending: seq<ToolCall>, got: seq<Msg>, results: map<string, Msg>)
    requires CallsOk(pending) && FullBatch(pending, got) && Indexes(results, got)
    ensures forall i :: 0 <= i < |pending| ==> pending[i].id in results
    ensures Reorder(pending, got) == seq(|pending|, i requires 0 <= i < |pending| => results[pending[i].id])
  {
    forall i | 0 <= i < |pending|
      ensures pending[i].id in results && Find(got, pending[i].id) == results[pending[i].id]
    {
      var j := FullBatchCovers(pending, got, i);
      FindIn(got, pending[i].id, j);
    }
  }

  lemma {:induction false} BatchDone(pending: seq<ToolCall>, got: seq<Msg>, rest: seq<Msg>, seen: set<string>)
    requires |got| == |pending|
    ensures RestAccepts(pending, got, rest, seen) <==> FullBatch(pending, got) && Accepts(rest, seen)
    ensures RestOrdered(pending, got, rest) == Reorder(pending, got) + Ordered(rest)
  {
    assert rest[..0] == [] && got + [] == got && rest[0..] == rest;
  }

  /** Starting on an item that is not a tool result. */
  lemma {:induction false} HeadAccepts(ms: seq<Msg>, seen: set<string>)
    requires ms != []
    ensures var calls := Calls(ms[0]);
            Accepts(ms, seen) <==>
              WellTyped(ms[0]) && !ms[0].Tool? && IdSet(calls) !! seen
                  && RestAccepts(calls, [], ms[1..], seen + IdSet(calls))
  {
    var n := |Calls(ms[0])|;
    if n < |ms| {
      HeadSlices(ms, n);
    }
  }

  lemma {:induction false} RestOrderedFirst(calls: seq<ToolCall>, rest: seq<Msg>, batch: seq<Msg>, tail: seq<Msg>)
    requires |calls| <= |rest| && batch == rest[..|calls|] && tail == rest[|calls|..]
    ensures RestOrdered(calls, [], rest) == Reorder(calls, batch) + Ordered(tail)
  {
    assert [] + rest[..|calls|] == batch;
  }

  lemma {:induction false} OrderedFirst(ms: seq<Msg>, calls: seq<ToolCall>, batch: seq<Msg>, tail: seq<Msg>)
    requires ms != [] && calls == Calls(ms[0]) && |calls| < |ms|
    requires batch == ms[1..1 + |calls|] && tail == ms[1 + |calls|..]
    ensures Ordered(ms) == [Clean(ms[0])] + (Reorder(calls, batch) + Ordered(tail))
  {
    Associates([Clean(ms[0])], Reorder(calls, batch), Ordered(tail));
  }

  lemma {:induction false} HeadOrdered(ms: seq<Msg>)
    requires ms != [] && |Calls(ms[0])| < |ms|
    ensures Ordered(ms) == [Clean(ms[0])] + RestOrdered(Calls(ms[0]), [], ms[1..])
  {
    var calls, rest := Calls(ms[0]), ms[1..];
    var batch, tail := rest[..|calls|], rest[|calls|..];
    HeadSlices(ms, |calls|);
    OrderedFirst(ms, calls, batch, tail);
    RestOrderedFirst(calls, rest, batch, tail);
  }

  lemma {:induction false} HeadSlices(ms: seq<Msg>, n: nat)
    requires n < |ms|
    ensures [] + ms[1..][..n] == ms[1..][..n] == ms[1..1 + n] && ms[1..][n..] == ms[1 + n..]
  {
  }

  /** `rest` is still to be read: it decides the verdict, and completes `result` to the final output. */
  ghost predicate Sound(verdict: bool, final: seq<Msg>, rest: seq<Msg>, result: seq<Msg>, pending: seq<ToolCall>,
                        got: seq<Msg>, seen: set<string>)
    requires |got| <= |pending|
  {
    && (verdict <==> RestAccepts(pending, got, rest, seen))
    && (verdict ==> final == result + RestOrdered(pending, got, rest))
  }

  lemma {:induction false} Associates<T>(a: seq<T>, b: seq<T>, c: seq<T>)
    ensures a + (b + c) == a + b + c
  {
  }

  lemma {:induction false} SoundStart(ms: seq<Msg>)
    ensures Sound(Accepts(ms, {}), Ordered(ms), ms, [], [], [], {})
  {
    assert [] + Ordered(ms) == Ordered(ms);
    BatchDone([], [], ms, {});
  }

  lemma {:induction false} SoundTake(verdict: bool, final: seq<Msg>, rest: seq<Msg>, result: seq<Msg>,
                                     pending: seq<ToolCall>, got: seq<Msg>, seen: set<string>)
    requires rest != [] && |got| < |pending| && Sound(verdict, final, rest, result, pending, got, seen)
    ensures Sound(verdict, final, rest[1..], result, pending, got + [rest[0]], seen)
  {
    TakeOne(pending, got, rest, seen);
  }

  lemma {:induction false} SoundFlush(verdict: bool, final: seq<Msg>, rest: seq<Msg>, result: seq<Msg>,
                                      pending: seq<ToolCall>, got: seq<Msg>, seen: set<string>)
    requires FullBatch(pending, got) && Sound(verdict, final, rest, result, pending, got, seen)
    ensures Sound(verdict, final, rest, result + Reorder(pending, got), [], [], seen)
  {
    BatchDone(pending, got, rest, seen);
    BatchDone([], [], rest, seen);
    Associates(result, Reorder(pending, got), Ordered(rest));
    assert Reorder([], []) == [] && [] + Ordered(rest) == Ordered(rest);
  }

  lemma {:induction false} SoundHead(verdict: bool, final: seq<Msg>, rest: seq<Msg>, result: seq<Msg>,
                                     seen: set<string>)
    requires rest != [] && !rest[0].Tool? && Sound(verdict, final, rest, result, [], [], seen)
    ensures var calls := Calls(rest[0]);
            if WellTyped(rest[0]) && IdSet(calls) !! seen
            then Sound(verdict, final, rest[1..], result + [Clean(rest[0])], calls, [], seen + IdSet(calls))
            else !verdict
  {
    BatchDone([], [], rest, seen);
    HeadAccepts(rest, seen);
    if verdict {
      HeadOrdered(rest);
      assert [] + Ordered(rest) == Ordered(rest);
      Associates(result, [Clean(rest[0])], RestOrdered(Calls(rest[0]), [], rest[1..]));
    }
  }

  lemma {:induction false} SoundEnd(verdict: bool, final: seq<Msg>, result: seq<Msg>, pending: seq<ToolCall>,
                                    got: seq<Msg>, seen: set<string>)
    requires |got| < |pending| || (pending == [] && got == [])
    requires Sound(verdict, final, [], result, pending, got, seen)
    ensures verdict <==> pending == []
    ensures pending == [] ==> final == result
  {
    if pending == [] {
      BatchDone([], [], [], seen);
      assert Reorder([], []) == [] && Ordered([]) == [];
      assert Accepts([], seen) && FullBatch([], []);
    }
  }

  /** The loop's variables between two items. */
  ghost predicate Consistent(pending: seq<ToolCall>, results: map<string, Msg>, got: seq<Msg>) {
    && CallsOk(pending) && PartialBatch(pending, got) && Indexes(results, got)
    && (|got| < |pending| || (pending == [] && got == []))
  }

  /** The loop body for a tool result; `batch` is the completed batch in call order, if it is complete. */
  method TakeResult(item: Msg, pending: seq<ToolCall>, results: map<string, Msg>, ghost got: seq<Msg>)
    returns (ok: bool, results': map<string, Msg>, batch: Option<seq<Msg>>)
    requires item.Tool? && Consistent(pending, results, got)
    ensures ok <==> PartialBatch(pending, got + [item])
    ensures ok && batch.None? ==> Consistent(pending, results', got + [item])
    ensures ok && batch.Some? ==> FullBatch(pending, got + [item]) && batch.value == Reorder(pending, got + [item])
  {
    FitsExtends(item, pending, results, got);
    ok, results', batch := Fits(item, pending, results), results, None;
    if ok {
      IndexGrows(item, results, got);
      results' := results[item.id := item];
      if |results'| == |pending| {
        FullReorder(pending, got + [item], results');
        batch := Some(seq(|pending|, k requires 0 <= k < |pending| => results'[pending[k].id]));
      }
    }
  }

  /** The loop's variables `result`, `pending`, `tool_results` and `seen`. */
  datatype Loop = Loop(result: seq<Msg>, pending: seq<ToolCall>, results: map<string, Msg>, seen: set<string>)

  ghost predicate LoopInv(verdict: bool, final: seq<Msg>, rest: seq<Msg>, st: Loop, got: seq<Msg>) {
    Consistent(st.pending, st.results, got) && Sound(verdict, final, rest, st.result, st.pending, got, st.seen)
  }

  /** The loop body for a tool result. */
  method ToolItem(rest: seq<Msg>, st: Loop, ghost got: seq<Msg>, ghost verdict: bool, ghost final: seq<Msg>)
    returns (ok: bool, st': Loop, ghost got': seq<Msg>)
    requires rest != [] && rest[0].Tool? && LoopInv(verdict, final, rest, st, got)
    ensures if ok then LoopInv(verdict, final, rest[1..], st', got') else !verdict
  {
    var taken, results, batch := TakeResult(rest[0], st.pending, st.results, got);
    ok, st', got' := taken, st, got;
    if !ok {
      ToolRejected(st.pending, got, rest, st.seen);
      return;
    }
    TakenWasPending(st.pending, got, rest[0]);
    SoundTake(verdict, final, rest, st.result, st.pending, got, st.seen);
    st', got' := st.(results := results), got + [rest[0]];
    if batch.Some? {
      SoundFlush(verdict, final, rest[1..], st.result, st.pending, got', st.seen);
      st', got' := Loop(st.result + batch.value, [], map[], st.seen), [];
    }
  }

  /** The loop body for any other item. */
  method TurnItem(rest: seq<Msg>, st: Loop, ghost got: seq<Msg>, ghost verdict: bool, ghost final: seq<Msg>)
    returns (ok: bool, st': Loop, ghost got': seq<Msg>)
    requires rest != [] && !rest[0].Tool? && LoopInv(verdict, final, rest, st, got)
    ensures if ok then LoopInv(verdict, final, rest[1..], st', got') else !verdict
  {
    var item := rest[0];
    ok, st', got' := false, st, got;
    if st.pending != [] {
      BadExtension(st.pending, got, rest, st.seen);
      return;
    }
    SoundHead(verdict, final, rest, st.result, st.seen);
    ok := WellTyped(item) && IdSet(Calls(item)) !! st.seen;
    if ok {
      FreshBatch(item);
      st', got' := Loop(st.result + [Clean(item)], Calls(item), map[], st.seen + IdSet(Calls(item))), [];
    }
  }

  lemma {:induction false} FreshBatch(item: Msg)
    requires WellTyped(item) && !item.Tool?
    ensures Consistent(Calls(item), map[], [])
  {
  }

  /** The loop of `_agent_messages`. */
  method CheckAndOrder(ms: seq<Msg>, ghost verdict: bool, ghost final: seq<Msg>) returns (out: Option<seq<Msg>>)
    requires Sound(verdict, final, ms, [], [], [], {})
    ensures out.Some? <==> verdict
    ensures out.Some? ==> out.value == final
  {
    var rest, st := ms, Loop([], [], map[], {});
    ghost var got: seq<Msg> := [];
    while rest != []
      invariant LoopInv(verdict, final, rest, st, got)
      decreases |rest|
    {
      var ok;
      if rest[0].Tool? {
        ok, st, got := ToolItem(rest, st, got, verdict, final);
      } else {
        ok, st, got := TurnItem(rest, st, got, verdict, final);
      }
      if !ok {
        return None;
      }
      rest := rest[1..];
    }
    SoundEnd(verdict, final, st.result, st.pending, got, st.seen);
    out := if st.pending == [] then Some(st.result) else None;
  }

  /** `_agent_messages`: an empty history is refused, and a refusal returns nothing. */
  method AgentMessages(ms: seq<Msg>) returns (out: Option<seq<Msg>>)
    ensures out.Some? <==> ms != [] && Accepts(ms, {})
    ensures out.Some? ==> out.value == Ordered(ms)
  {
    if ms == [] {
      return None;
    }
    SoundStart(ms);
    out := CheckAndOrder(ms, Accepts(ms, {}), Ordered(ms));
  }

  lemma {:induction false} TakenWasPending(pending: seq<ToolCall>, got: seq<Msg>, item: Msg)
    requires PartialBatch(pending, got + [item])
    ensures pending != []
  {
    assert Answers((got + [item])[|got|], pending);
  }

  lemma {:induction false} ToolRejected(pending: seq<ToolCall>, got: seq<Msg>, rest: seq<Msg>, seen: set<string>)
    requires |got| < |pending| || (pending == [] && got == [])
    requires rest != [] && rest[0].Tool? && !PartialBatch(pending, got + [rest[0]])
    ensures !RestAccepts(pending, got, rest, seen)
  {
    if pending == [] {
      BatchDone([], [], rest, seen);
    } else {
      BadExtensionRejects(pending, got, rest, seen);
    }
  }

  lemma {:induction false} BadExtension(pending: seq<ToolCall>, got: seq<Msg>, rest: seq<Msg>, seen: set<string>)
    requires |got| < |pending| && rest != [] && !rest[0].Tool?
    ensures !RestAccepts(pending, got, rest, seen)
  {
    assert (got + [rest[0]])[|got|] == rest[0] && !Answers(rest[0], pending);
    BadExtensionRejects(pending, got, rest, seen);
  }
}

/** What the accepted histories and their ordering look like from outside. */
module HistoryTheorems {
  import opened Common
  import opened AgentTurns
  import opened HistoryModel
  import opened HistoryLoop

  /** Ordering a batch permutes it, and puts the results into call order. */
  lemma {:induction false} ReorderPermutes(calls: seq<ToolCall>, batch: seq<Msg>)
    requires CallsOk(calls) && FullBatch(calls, batch)
    ensures FullBatch(calls, Reorder(calls, batch)) && multiset(Reorder(calls, batch)) == multiset(batch)
    ensures forall i :: 0 <= i < |calls| ==>
              Reorder(calls, batch)[i].Tool? && Reorder(calls, batch)[i].id == calls[i].id
                  && Reorder(calls, batch)[i].name == calls[i].name
  {
    var out := Reorder(calls, batch);
    forall i | 0 <= i < |calls|
      ensures out[i] in batch && out[i].Tool? && out[i].id == calls[i].id && out[i].name == calls[i].name
    {
      var j := FullBatchCovers(calls, batch, i);
      FindIn(batch, calls[i].id, j);
      assert batch[j] in batch;
    }
    forall i | 0 <= i < |calls| ensures Answers(out[i], calls) {
      var j :| 0 <= j < |batch| && batch[j] == out[i];
      assert Answers(batch[j], calls);
    }
    DistinctPermutation(out, batch);
  }

  /** Two lists of tool results with distinct ids and equal length, one inside the other. */
  lemma {:induction false} DistinctPermutation(out: seq<Msg>, batch: seq<Msg>)
    requires |out| == |batch| && (forall i :: 0 <= i < |out| ==> out[i] in batch)
    requires forall i, j :: 0 <= i < j < |out| ==> out[i] != out[j]
    requires forall i, j :: 0 <= i < j < |batch| ==> batch[i] != batch[j]
    ensures multiset(out) == multiset(batch)
  {
    DistinctSize(out);
    DistinctSize(batch);
    var a, b := (set m | m in out), (set m | m in batch);
    assert a <= b;
    SubsetIsAll(a, b);
    forall m ensures multiset(out)[m] == multiset(batch)[m] {
      DistinctCounts(out, m);
      DistinctCounts(batch, m);
      assert m in out <==> m in a;
      assert m in batch <==> m in b;
    }
  }

  lemma {:induction false} SubsetIsAll<T>(a: set<T>, b: set<T>)
    requires a <= b && |a| == |b|
    ensures a == b
  {
    if x :| x in b && x !in a {
      SubsetSize(a, b - {x});
    }
  }

  lemma {:induction false} DistinctSize(s: seq<Msg>)
    requires forall i, j :: 0 <= i < j < |s| ==> s[i] != s[j]
    ensures |set m | m in s| == |s|
  {
    if s != [] {
      var front, last := s[..|s| - 1], s[|s| - 1];
      DistinctSize(front);
      assert s == front + [last];
      assert (set m | m in s) == (set m | m in front) + {last};
    }
  }

  lemma {:induction false} DistinctCounts(s: seq<Msg>, m: Msg)
    requires forall i, j :: 0 <= i < j < |s| ==> s[i] != s[j]
    ensures multiset(s)[m] == if m in s then 1 else 0
  {
    if s != [] {
      var front, last := s[..|s| - 1], s[|s| - 1];
      DistinctCounts(front, m);
      assert s == front + [last];
      assert last !in front;
    }
  }

  lemma {:induction false} OrderedLength(ms: seq<Msg>, seen: set<string>)
    requires Accepts(ms, seen)
    ensures |Ordered(ms)| == |ms|
    decreases |ms|
  {
    if ms != [] {
      var n := |Calls(ms[0])|;
      OrderedLength(ms[1 + n..], seen + IdSet(Calls(ms[0])));
    }
  }

  /**
   * Item i as the ordering leaves it: an item that is not a tool result stays
   * where it is, and after an assistant item with n calls the next n items are
   * the same results as before, now in the order of the calls.
   */
  ghost predicate InPlace(ms: seq<Msg>, out: seq<Msg>, i: nat)
    requires i < |ms| == |out|
  {
    && (out[i].Tool? <==> ms[i].Tool?)
    && (!ms[i].Tool? ==>
          var calls := Calls(ms[i]);
          && out[i] == Clean(ms[i]) && i + |calls| < |ms|
          && InCallOrder(calls, ms[i + 1..i + 1 + |calls|], out[i + 1..i + 1 + |calls|]))
  }

  ghost predicate InCallOrder(calls: seq<ToolCall>, batch: seq<Msg>, out: seq<Msg>) {
    && |out| == |batch| == |calls| && multiset(out) == multiset(batch)
    && forall k :: 0 <= k < |calls| ==> out[k].Tool? && out[k].id == calls[k].id
  }

  lemma {:induction false} InPlaceLater(ms: seq<Msg>, out: seq<Msg>, tail: seq<Msg>, outTail: seq<Msg>, a: nat, j: nat)
    requires a <= |ms| == |out| && tail == ms[a..] && outTail == out[a..] && j < |tail| && InPlace(tail, outTail, j)
    ensures InPlace(ms, out, a + j)
  {
    if !ms[a + j].Tool? {
      var n := |Calls(tail[j])|;
      assert ms[a + j + 1..a + j + 1 + n] == tail[j + 1..j + 1 + n];
      assert out[a + j + 1..a + j + 1 + n] == outTail[j + 1..j + 1 + n];
    }
  }

  lemma {:induction false} OrderedBatch(calls: seq<ToolCall>, batch: seq<Msg>, out: seq<Msg>)
    requires CallsOk(calls) && FullBatch(calls, batch) && out == Reorder(calls, batch)
    ensures InCallOrder(calls, batch, out)
  {
    ReorderPermutes(calls, batch);
  }

  /** A history in three parts: its first item, that item's batch, and the rest. */
  ghost predicate InParts(ms: seq<Msg>, h: Msg, batch: seq<Msg>, tail: seq<Msg>) {
    ms == [h] + batch + tail
  }

  lemma {:induction false} FirstInPlace(ms: seq<Msg>, out: seq<Msg>, h: Msg, batch: seq<Msg>, outBatch: seq<Msg>,
                                        tail: seq<Msg>, outTail: seq<Msg>)
    requires InParts(ms, h, batch, tail) && InParts(out, Clean(h), outBatch, outTail) && |tail| == |outTail|
    requires !h.Tool? && InCallOrder(Calls(h), batch, outBatch)
    ensures |out| == |ms| && InPlace(ms, out, 0)
  {
    PartsBatch(ms, h, batch, tail);
    PartsBatch(out, Clean(h), outBatch, outTail);
  }

  lemma {:induction false} ResultInPlace(ms: seq<Msg>, out: seq<Msg>, h: Msg, batch: seq<Msg>, outBatch: seq<Msg>,
                                         tail: seq<Msg>, outTail: seq<Msg>, i: nat)
    requires InParts(ms, h, batch, tail) && InParts(out, Clean(h), outBatch, outTail) && |tail| == |outTail|
    requires InCallOrder(Calls(h), batch, outBatch) && FullBatch(Calls(h), batch) && 0 < i <= |batch|
    ensures |out| == |ms| && i < |ms| && InPlace(ms, out, i)
  {
    PartsMiddle(ms, h, batch, tail, i);
    PartsMiddle(out, Clean(h), outBatch, outTail, i);
    InPlaceResult(ms, out, Calls(h), batch, i);
  }

  lemma {:induction false} TailInPlace(ms: seq<Msg>, out: seq<Msg>, h: Msg, batch: seq<Msg>, outBatch: seq<Msg>,
                                       tail: seq<Msg>, outTail: seq<Msg>, i: nat)
    requires InParts(ms, h, batch, tail) && InParts(out, Clean(h), outBatch, outTail)
    requires |tail| == |outTail| && |batch| == |outBatch| && |batch| < i < |ms|
              && InPlace(tail, outTail, i - 1 - |batch|)
    ensures |out| == |ms| && InPlace(ms, out, i)
  {
    PartsLater(ms, [h], batch, tail);
    PartsLater(out, [Clean(h)], outBatch, outTail);
    InPlaceLater(ms, out, tail, outTail, 1 + |batch|, i - 1 - |batch|);
  }

  lemma {:induction false} InPlaceResult(ms: seq<Msg>, out: seq<Msg>, calls: seq<ToolCall>, batch: seq<Msg>, i: nat)
    requires 0 < i < |ms| == |out| && i <= |batch| && ms[i] == batch[i - 1] && out[i].Tool?
    requires FullBatch(calls, batch)
    ensures InPlace(ms, out, i)
  {
    assert Answers(batch[i - 1], calls);
  }

  lemma {:induction false} PartsLater(ms: seq<Msg>, h: seq<Msg>, batch: seq<Msg>, tail: seq<Msg>)
    requires ms == h + batch + tail
    ensures ms[|h| + |batch|..] == tail
  {
  }

  lemma {:induction false} PartsMiddle(ms: seq<Msg>, h: Msg, batch: seq<Msg>, tail: seq<Msg>, i: nat)
    requires ms == [h] + batch + tail && 0 < i <= |batch|
    ensures ms[i] == batch[i - 1]
  {
  }

  lemma {:induction false} PartsBatch(ms: seq<Msg>, h: Msg, batch: seq<Msg>, tail: seq<Msg>)
    requires ms == [h] + batch + tail
    ensures ms[0] == h && ms[1..1 + |batch|] == batch
  {
  }

  lemma {:induction false} Parts(ms: seq<Msg>, seen: set<string>) returns (calls: seq<ToolCall>, batch: seq<Msg>,
                                 tail: seq<Msg>)
    requires Accepts(ms, seen) && ms != []
    ensures !ms[0].Tool? && WellTyped(ms[0]) && calls == Calls(ms[0]) && CallsOk(calls) && FullBatch(calls, batch)
    ensures IdSet(calls) !! seen
    ensures ms == [ms[0]] + batch + tail && Accepts(tail, seen + IdSet(calls))
    ensures Ordered(ms) == [Clean(ms[0])] + Reorder(calls, batch) + Ordered(tail)
  {
    calls := Calls(ms[0]);
    batch, tail := ms[1..1 + |calls|], ms[1 + |calls|..];
    ThreeParts(ms, |calls|);
    OrderedFirst(ms, calls, batch, tail);
    Associates([Clean(ms[0])], Reorder(calls, batch), Ordered(tail));
  }

  lemma {:induction false} ThreeParts(ms: seq<Msg>, n: nat)
    requires n < |ms|
    ensures ms == [ms[0]] + ms[1..1 + n] + ms[1 + n..]
  {
  }

  /** Ordering a whole history moves nothing but results inside their batch. */
  lemma {:induction false} OrderedInPlace(ms: seq<Msg>, seen: set<string>, i: nat)
    requires Accepts(ms, seen) && i < |ms|
    ensures |Ordered(ms)| == |ms| && InPlace(ms, Ordered(ms), i)
    decreases |ms|, 1
  {
    var calls, batch, tail := Parts(ms, seen);
    var outBatch, outTail := Reorder(calls, batch), Ordered(tail);
    OrderedLength(tail, seen + IdSet(calls));
    OrderedBatch(calls, batch, outBatch);
    OrderedPlaces(ms, Ordered(ms), batch, outBatch, tail, outTail, i, seen + IdSet(calls));
  }

  lemma {:induction false} OrderedPlaces(ms: seq<Msg>, out: seq<Msg>, batch: seq<Msg>, outBatch: seq<Msg>,
                                         tail: seq<Msg>, outTail: seq<Msg>, i: nat, seen: set<string>)
    requires ms != [] && InParts(ms, ms[0], batch, tail) && InParts(out, Clean(ms[0]), outBatch, outTail)
    requires |tail| == |outTail| && i < |ms| && !ms[0].Tool? && outTail == Ordered(tail) && Accepts(tail, seen)
    requires InCallOrder(Calls(ms[0]), batch, outBatch) && FullBatch(Calls(ms[0]), batch)
    ensures |out| == |ms| && InPlace(ms, out, i)
    decreases |ms|, 0
  {
    if i == 0 {
      FirstInPlace(ms, out, ms[0], batch, outBatch, tail, outTail);
    } else if i <= |batch| {
      ResultInPlace(ms, out, ms[0], batch, outBatch, tail, outTail, i);
    } else {
      OrderedInPlace(tail, seen, i - 1 - |batch|);
      TailInPlace(ms, out, ms[0], batch, outBatch, tail, outTail, i);
    }
  }

  lemma {:induction false} FindSelf(calls: seq<ToolCall>, batch: seq<Msg>)
    requires CallsOk(calls) && FullBatch(calls, batch)
    requires forall i :: 0 <= i < |calls| ==> batch[i].id == calls[i].id
    ensures Reorder(calls, batch) == batch
  {
    forall i | 0 <= i < |calls| ensures Find(batch, calls[i].id) == batch[i] {
      FindIn(batch, calls[i].id, i);
    }
  }

  /** The converse of Parts. */
  lemma {:induction false} Joined(ms: seq<Msg>, h: Msg, batch: seq<Msg>, tail: seq<Msg>, seen: set<string>)
    requires ms == [h] + batch + tail && !h.Tool? && WellTyped(h) && IdSet(Calls(h)) !! seen
              && FullBatch(Calls(h), batch)
    requires Accepts(tail, seen + IdSet(Calls(h)))
    ensures Accepts(ms, seen)
    ensures Ordered(ms) == [Clean(h)] + Reorder(Calls(h), batch) + Ordered(tail)
  {
    PartsLater(ms, [h], batch, tail);
    PartsBatch(ms, h, batch, tail);
  }

  /** The output is accepted again and does not change again. */
  lemma {:induction false} OrderingIsIdempotent(ms: seq<Msg>, seen: set<string>)
    requires Accepts(ms, seen)
    ensures Accepts(Ordered(ms), seen) && Ordered(Ordered(ms)) == Ordered(ms)
    decreases |ms|
  {
    if ms != [] {
      var calls, batch, tail := Parts(ms, seen);
      OrderingIsIdempotent(tail, seen + IdSet(calls));
      ReorderPermutes(calls, batch);
      FindSelf(calls, Reorder(calls, batch));
      Joined(Ordered(ms), Clean(ms[0]), Reorder(calls, batch), Ordered(tail), seen);
    }
  }

  /** The n calls of a non-tool item are answered, once each, by exactly the n items after it. */
  ghost predicate Answered(ms: seq<Msg>, i: nat)
    requires i < |ms|
  {
    var n := |Calls(ms[i])|;
    !ms[i].Tool? ==> i + n < |ms| && FullBatch(Calls(ms[i]), ms[i + 1..i + 1 + n])
  }

  /** A tool result stands among the items that answer an earlier assistant item. */
  ghost predicate Owned(ms: seq<Msg>, i: nat)
    requires i < |ms|
  {
    ms[i].Tool? ==> exists k :: 0 <= k < i && !ms[k].Tool? && i <= k + |Calls(ms[k])|
  }

  ghost predicate FreshIds(ms: seq<Msg>, i: nat, seen: set<string>)
    requires i < |ms|
  {
    IdSet(Calls(ms[i])) !! seen && forall j :: 0 <= j < i ==> IdSet(Calls(ms[j])) !! IdSet(Calls(ms[i]))
  }

  ghost predicate WellPlaced(ms: seq<Msg>, i: nat, seen: set<string>)
    requires i < |ms|
  {
    WellTyped(ms[i]) && Answered(ms, i) && Owned(ms, i) && FreshIds(ms, i, seen)
  }

  ghost predicate WellFormed(ms: seq<Msg>, seen: set<string>) {
    forall i :: 0 <= i < |ms| ==> WellPlaced(ms, i, seen)
  }

  /** `ms` is the item h, a full batch of answers to it, and `tail`. */
  ghost predicate Splits(ms: seq<Msg>, h: Msg, batch: seq<Msg>, tail: seq<Msg>) {
    !h.Tool? && FullBatch(Calls(h), batch) && ms == [h] + batch + tail
  }

  lemma {:induction false} SplitAt(ms: seq<Msg>, h: Msg, batch: seq<Msg>, tail: seq<Msg>, i: nat)
    requires Splits(ms, h, batch, tail) && i < |ms|
    ensures i == 0 ==> ms[i] == h
    ensures 0 < i <= |batch| ==> ms[i] == batch[i - 1] && ms[i].Tool? && WellTyped(ms[i]) && Calls(ms[i]) == []
    ensures i > |batch| ==> ms[i] == tail[i - 1 - |batch|]
  {
  }

  lemma {:induction false} SliceShifts(ms: seq<Msg>, tail: seq<Msg>, m: nat, i: nat, n: nat)
    requires m <= |ms| && tail == ms[m..] && m <= i && i + n < |ms|
    ensures ms[i + 1..i + 1 + n] == tail[i - m + 1..i - m + 1 + n]
  {
  }

  lemma {:induction false} AnsweredShifts(ms: seq<Msg>, tail: seq<Msg>, m: nat, i: nat)
    requires m <= i < |ms| && tail == ms[m..]
    ensures Answered(ms, i) <==> Answered(tail, i - m)
  {
    assert ms[i] == tail[i - m];
    var n := |Calls(ms[i])|;
    if i + n < |ms| {
      SliceShifts(ms, tail, m, i, n);
    }
  }

  lemma {:induction false} SplitAnswered(ms: seq<Msg>, h: Msg, batch: seq<Msg>, tail: seq<Msg>, i: nat)
    requires Splits(ms, h, batch, tail) && i < |ms|
    ensures i <= |batch| ==> Answered(ms, i)
    ensures i > |batch| ==> (Answered(ms, i) <==> Answered(tail, i - 1 - |batch|))
  {
    if i == 0 {
      PartsBatch(ms, h, batch, tail);
    } else if i <= |batch| {
      SplitAt(ms, h, batch, tail, i);
    } else {
      PartsLater(ms, [h], batch, tail);
      AnsweredShifts(ms, tail, 1 + |batch|, i);
    }
  }

  lemma {:induction false} SplitOwned(ms: seq<Msg>, h: Msg, batch: seq<Msg>, tail: seq<Msg>, i: nat)
    requires Splits(ms, h, batch, tail) && i < |ms|
    ensures i <= |batch| ==> Owned(ms, i)
    ensures i > |batch| ==> (Owned(ms, i) <==> Owned(tail, i - 1 - |batch|))
  {
    SplitAt(ms, h, batch, tail, i);
    var m := 1 + |batch|;
    assert ms[0] == h && |batch| <= 0 + |Calls(ms[0])|;
    if i >= m && ms[i].Tool? {
      if k :| 0 <= k < i && !ms[k].Tool? && i <= k + |Calls(ms[k])| {
        SplitAt(ms, h, batch, tail, k);
        assert tail[k - m] == ms[k];
      }
      if k :| 0 <= k < i - m && !tail[k].Tool? && i - m <= k + |Calls(tail[k])| {
        assert ms[k + m] == tail[k];
      }
    }
  }

  lemma {:induction false} SplitFresh(ms: seq<Msg>, h: Msg, batch: seq<Msg>, tail: seq<Msg>, seen: set<string>, i: nat)
    requires Splits(ms, h, batch, tail) && |batch| < i < |ms|
    ensures FreshIds(ms, i, seen) <==> FreshIds(tail, i - 1 - |batch|, seen + IdSet(Calls(h)))
  {
    var m := 1 + |batch|;
    assert ms[i] == tail[i - m];
    forall j | 0 <= j < i
      ensures IdSet(Calls(ms[j])) == if j == 0 then IdSet(Calls(h)) else if j < m then {} else IdSet(Calls(tail[j - m]))
    {
      SplitAt(ms, h, batch, tail, j);
    }
    forall j | 0 <= j < i - m ensures tail[j] == ms[j + m] {
    }
    assert ms[0] == h;
  }

  lemma {:induction false} SplitWellPlaced(ms: seq<Msg>, h: Msg, batch: seq<Msg>, tail: seq<Msg>, seen: set<string>,
                                           i: nat)
    requires Splits(ms, h, batch, tail) && i < |ms| && WellTyped(h) && IdSet(Calls(h)) !! seen
    ensures i <= |batch| ==> WellPlaced(ms, i, seen)
    ensures i > |batch| ==> (WellPlaced(ms, i, seen) <==> WellPlaced(tail, i - 1 - |batch|, seen + IdSet(Calls(h))))
  {
    SplitAt(ms, h, batch, tail, i);
    SplitAnswered(ms, h, batch, tail, i);
    SplitOwned(ms, h, batch, tail, i);
    if i > |batch| {
      SplitFresh(ms, h, batch, tail, seen, i);
    }
  }

  lemma {:induction false} SplitWellFormed(ms: seq<Msg>, h: Msg, batch: seq<Msg>, tail: seq<Msg>, seen: set<string>)
    requires Splits(ms, h, batch, tail) && WellTyped(h) && IdSet(Calls(h)) !! seen
    ensures WellFormed(ms, seen) <==> WellFormed(tail, seen + IdSet(Calls(h)))
  {
    var m := 1 + |batch|;
    if WellFormed(tail, seen + IdSet(Calls(h))) {
      forall i | 0 <= i < |ms| ensures WellPlaced(ms, i, seen) {
        SplitWellPlaced(ms, h, batch, tail, seen, i);
      }
    }
    if WellFormed(ms, seen) {
      forall j | 0 <= j < |tail| ensures WellPlaced(tail, j, seen + IdSet(Calls(h))) {
        SplitWellPlaced(ms, h, batch, tail, seen, j + m);
      }
    }
  }

  lemma {:induction false} HeadOfWellFormed(ms: seq<Msg>, seen: set<string>) returns (batch: seq<Msg>, tail: seq<Msg>)
    requires ms != [] && WellFormed(ms, seen)
    ensures Splits(ms, ms[0], batch, tail) && WellTyped(ms[0]) && IdSet(Calls(ms[0])) !! seen
    ensures |Calls(ms[0])| < |ms| && batch == ms[1..1 + |Calls(ms[0])|] && tail == ms[1 + |Calls(ms[0])|..]
  {
    assert WellPlaced(ms, 0, seen);
    var m := 1 + |Calls(ms[0])|;
    batch, tail := ms[1..m], ms[m..];
    assert ms == [ms[0]] + batch + tail;
  }

  /** What the loop accepts, said of every position on its own. */
  lemma {:induction false} AcceptedExactlyWhenWellFormed(ms: seq<Msg>, seen: set<string>)
    ensures Accepts(ms, seen) <==> WellFormed(ms, seen)
    decreases |ms|
  {
    if ms != [] {
      if Accepts(ms, seen) {
        var calls, batch, tail := Parts(ms, seen);
        AcceptedExactlyWhenWellFormed(tail, seen + IdSet(calls));
        SplitWellFormed(ms, ms[0], batch, tail, seen);
      } else if WellFormed(ms, seen) {
        var batch, tail := HeadOfWellFormed(ms, seen);
        SplitWellFormed(ms, ms[0], batch, tail, seen);
        AcceptedExactlyWhenWellFormed(tail, seen + IdSet(Calls(ms[0])));
      }
    }
  }
}
