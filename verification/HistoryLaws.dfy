/** What an accepted history and its ordering are, said of the items' own fields. */
module HistoryLaws {
  import opened Common
  import opened Json
  import opened AgentText
  import opened AgentTurns
  import opened TurnMeaning
  import opened HistoryModel
  import opened HistoryTheorems

  /** The calls an item asks for. */
  function Asked(m: Msg): seq<ToolCall> {
    match m
    case Assistant(_, Some(calls), _) => calls
    case _ => []
  }

  /** No way down into the value is longer than this. */
  ghost predicate NoDeeper(v: Json, n: int) {
    forall path :: Leads(v, path) ==> |path| <= n
  }

  lemma {:induction false} DepthMeans(v: Json, n: int)
    ensures Shallow(v, n) <==> NoDeeper(v, n)
  {
    if Shallow(v, n) {
      forall path | Leads(v, path) ensures |path| <= n {
        ShallowBounds(v, n, path);
      }
    } else {
      var path := DeepHasPath(v, n);
    }
  }

  ghost predicate SaneCall(call: ToolCall) {
    SafeId(call.id) && ToolName(call.name) && call.arguments.Obj? && NoDeeper(call.arguments, 92)
  }

  /** An item of a history that can be sent on: safe texts, ids and names, nesting of at most 96 from the list. */
  ghost predicate Sane(m: Msg) {
    match m
    case User(text) => SafeText(text)
    case System(text) => SafeText(text)
    case Assistant(text, calls, data) =>
      && SafeText(text) && (data.Some? ==> NoDeeper(Obj(data.value), 94))
      && (calls.Some? ==>
            && (forall a :: 0 <= a < |calls.value| ==> SaneCall(calls.value[a]))
            && (forall a, b :: 0 <= a < b < |calls.value| ==> calls.value[a].id != calls.value[b].id))
    case Tool(id, _, body) => SafeId(id) && NoDeeper(Obj(body), 94)
    case Malformed => false
  }

  lemma {:induction false} CallMeans(call: ToolCall)
    ensures SaneCall(call) <==> IdOk(call.id) && NameOk(call.name) && call.arguments.Obj? && Shallow(call.arguments, 92)
  {
    IdOkMeans(call.id);
    NameOkMeans(call.name);
    DepthMeans(call.arguments, 92);
  }

  lemma {:induction false} AssistantMeans(m: Msg)
    requires m.Assistant?
    ensures WellTyped(m) <==> Sane(m)
  {
    TextOkMeans(m.content);
    if m.data.Some? {
      DepthMeans(Obj(m.data.value), 94);
    }
    forall a | 0 <= a < |Calls(m)|
      ensures SaneCall(Calls(m)[a]) <==>
                && IdOk(Calls(m)[a].id) && NameOk(Calls(m)[a].name) && Calls(m)[a].arguments.Obj?
                && Shallow(Calls(m)[a].arguments, MAX_DEPTH - 4)
    {
      CallMeans(Calls(m)[a]);
    }
  }

  lemma {:induction false} ItemMeans(m: Msg)
    ensures WellTyped(m) <==> Sane(m)
    ensures Calls(m) == Asked(m)
  {
    match m
    case User(c) => TextOkMeans(c);
    case System(c) => TextOkMeans(c);
    case Assistant(_, _, _) => AssistantMeans(m);
    case Tool(id, _, body) =>
      IdOkMeans(id);
      DepthMeans(Obj(body), 94);
    case Malformed =>
  }

  // ----- which histories are accepted -----

  /** Item w is the result of one of these calls, under the called name. */
  predicate ResultOf(m: Msg, calls: seq<ToolCall>) {
    m.Tool? && exists c :: 0 <= c < |calls| && calls[c].id == m.id && calls[c].name == m.name
  }

  /** The calls of item i are answered by as many results right after it, one each. */
  predicate AnsweredNext(ms: seq<Msg>, i: nat)
    requires i < |ms|
  {
    var n := |Asked(ms[i])|;
    && i + n < |ms|
    && (forall w :: i < w <= i + n ==> ResultOf(ms[w], Asked(ms[i])))
    && (forall w, w' :: i < w < w' <= i + n ==> ms[w].id != ms[w'].id)
  }

  /** A result stands right after the calls it belongs to. */
  predicate BelongsToCalls(ms: seq<Msg>, i: nat)
    requires i < |ms|
  {
    ms[i].Tool? ==> exists k :: 0 <= k < i && i <= k + |Asked(ms[k])|
  }

  /** No call id is used twice in the history. */
  predicate NewIds(ms: seq<Msg>, i: nat)
    requires i < |ms|
  {
    forall j, a, b :: 0 <= j < i && 0 <= a < |Asked(ms[j])| && 0 <= b < |Asked(ms[i])| ==>
      Asked(ms[j])[a].id != Asked(ms[i])[b].id
  }

  ghost predicate GoodItem(ms: seq<Msg>, i: nat)
    requires i < |ms|
  {
    Sane(ms[i]) && AnsweredNext(ms, i) && BelongsToCalls(ms, i) && NewIds(ms, i)
  }

  lemma {:induction false} NextAnswers(ms: seq<Msg>, i: nat)
    requires i < |ms| && !ms[i].Tool?
              && (forall w :: 0 <= w < |ms| ==> WellTyped(ms[w]) && Calls(ms[w]) == Asked(ms[w]))
    ensures AnsweredNext(ms, i) <==> Answered(ms, i)
  {
    var calls := Asked(ms[i]);
    if i + |calls| < |ms| {
      var batch := ms[i + 1..i + 1 + |calls|];
      assert forall w :: i < w <= i + |calls| ==> ms[w] == batch[w - i - 1];
      assert forall j :: 0 <= j < |batch| ==> batch[j] == ms[i + 1 + j];
      BatchMeans(ms, i, calls, batch);
    }
  }

  lemma {:induction false} BatchMeans(ms: seq<Msg>, i: nat, calls: seq<ToolCall>, batch: seq<Msg>)
    requires i + |calls| < |ms| && |batch| == |calls| && (forall w :: 0 <= w < |ms| ==> WellTyped(ms[w]))
    requires forall w :: i < w <= i + |calls| ==> ms[w] == batch[w - i - 1]
    requires forall j :: 0 <= j < |batch| ==> batch[j] == ms[i + 1 + j]
    ensures FullBatch(calls, batch) <==>
              && (forall w :: i < w <= i + |calls| ==> ResultOf(ms[w], calls))
              && (forall w, w' :: i < w < w' <= i + |calls| ==> ms[w].id != ms[w'].id)
  {
    forall j | 0 <= j < |batch| ensures Answers(batch[j], calls) <==> ResultOf(ms[i + 1 + j], calls) {
    }
    if FullBatch(calls, batch) {
      forall w | i < w <= i + |calls| ensures ResultOf(ms[w], calls) {
        assert Answers(batch[w - i - 1], calls);
      }
      forall w, w' | i < w < w' <= i + |calls| ensures ms[w].id != ms[w'].id {
        assert batch[w - i - 1].id != batch[w' - i - 1].id;
      }
    }
  }

  lemma {:induction false} NewMeans(ms: seq<Msg>, i: nat)
    requires i < |ms| && (forall w :: 0 <= w < |ms| ==> Calls(ms[w]) == Asked(ms[w]))
    ensures NewIds(ms, i) <==> FreshIds(ms, i, {})
  {
    if FreshIds(ms, i, {}) {
      forall j, a, b | 0 <= j < i && 0 <= a < |Asked(ms[j])| && 0 <= b < |Asked(ms[i])|
        ensures Asked(ms[j])[a].id != Asked(ms[i])[b].id
      {
        assert Asked(ms[j])[a].id in IdSet(Calls(ms[j])) && Asked(ms[i])[b].id in IdSet(Calls(ms[i]));
      }
    }
  }

  lemma {:induction false} PlaceMeans(ms: seq<Msg>, i: nat)
    requires i < |ms| && (forall w :: 0 <= w < |ms| ==> WellTyped(ms[w]) && Calls(ms[w]) == Asked(ms[w]))
    ensures WellPlaced(ms, i, {}) <==> AnsweredNext(ms, i) && BelongsToCalls(ms, i) && NewIds(ms, i)
  {
    NewMeans(ms, i);
    if !ms[i].Tool? {
      NextAnswers(ms, i);
    } else {
      assert Owned(ms, i) <==> BelongsToCalls(ms, i) by {
        assert forall k :: 0 <= k < i && ms[k].Tool? ==> Asked(ms[k]) == [];
      }
    }
  }

  /**
   * A history is accepted exactly when every item is sane, the calls of every
   * item are answered right after it, once each and under the called name,
   * every result belongs to such calls, and no call id comes twice.
   */
  lemma {:induction false} AcceptedMeans(ms: seq<Msg>)
    ensures Accepts(ms, {}) <==> forall i :: 0 <= i < |ms| ==> GoodItem(ms, i)
  {
    AcceptedExactlyWhenWellFormed(ms, {});
    forall i | 0 <= i < |ms| ensures (WellTyped(ms[i]) <==> Sane(ms[i])) && Calls(ms[i]) == Asked(ms[i]) {
      ItemMeans(ms[i]);
    }
    if forall i :: 0 <= i < |ms| ==> WellTyped(ms[i]) {
      forall i | 0 <= i < |ms| ensures WellPlaced(ms, i, {}) <==> GoodItem(ms, i) {
        PlaceMeans(ms, i);
      }
    } else {
      var i :| 0 <= i < |ms| && !WellTyped(ms[i]);
      assert !WellPlaced(ms, i, {}) && !GoodItem(ms, i);
    }
  }

  // ----- what comes out -----

  /** The copy of an item that is no result: its own content, with missing calls and data as empty ones. */
  predicate CopyOf(m: Msg, out: Msg) {
    match m
    case Assistant(text, calls, data) =>
      && out.Assistant? && out.content == text && out.calls == Some(Asked(m))
      && out.data == (if data.Some? then data else Some(map[]))
    case _ => out == m
  }

  /** Result number c of a batch in the output is the input's result for call number c. */
  predicate OutputResult(ms: seq<Msg>, out: seq<Msg>, i: nat, c: nat)
    requires i < |ms| == |out| && c < |Asked(ms[i])| && i + |Asked(ms[i])| < |ms|
  {
    && out[i + 1 + c].Tool? && out[i + 1 + c].id == Asked(ms[i])[c].id && out[i + 1 + c].name == Asked(ms[i])[c].name
    && exists w :: i < w <= i + |Asked(ms[i])| && ms[w] == out[i + 1 + c]
  }

  /** Item by item, what `_agent_messages` returns for an accepted history. */
  lemma {:induction false} OutputMeans(ms: seq<Msg>, i: nat)
    requires Accepts(ms, {}) && i < |ms|
    ensures |Ordered(ms)| == |ms|
    ensures !ms[i].Tool? ==> CopyOf(ms[i], Ordered(ms)[i]) && i + |Asked(ms[i])| < |ms|
    ensures !ms[i].Tool? ==> forall c :: 0 <= c < |Asked(ms[i])| ==> OutputResult(ms, Ordered(ms), i, c)
  {
    var out := Ordered(ms);
    OrderedInPlace(ms, {}, i);
    ItemMeans(ms[i]);
    AcceptedExactlyWhenWellFormed(ms, {});
    assert WellPlaced(ms, i, {});
    if !ms[i].Tool? {
      forall c | 0 <= c < |Asked(ms[i])| ensures OutputResult(ms, out, i, c) {
        FromBatch(ms, out, i, c);
      }
    }
  }

  lemma {:induction false} FromBatch(ms: seq<Msg>, out: seq<Msg>, i: nat, c: nat)
    requires i < |ms| == |out| && InPlace(ms, out, i) && !ms[i].Tool? && Calls(ms[i]) == Asked(ms[i])
              && WellPlaced(ms, i, {})
    requires c < |Asked(ms[i])|
    ensures OutputResult(ms, out, i, c)
  {
    var calls := Asked(ms[i]);
    var batch, outBatch := ms[i + 1..i + 1 + |calls|], out[i + 1..i + 1 + |calls|];
    assert InCallOrder(calls, batch, outBatch) && FullBatch(calls, batch);
    assert outBatch[c] == out[i + 1 + c] && outBatch[c].id == calls[c].id;
    assert outBatch[c] in multiset(outBatch);
    assert outBatch[c] in multiset(batch);
    var j :| 0 <= j < |batch| && batch[j] == outBatch[c];
    assert ms[i + 1 + j] == batch[j];
    assert Answers(batch[j], calls);
    var d :| 0 <= d < |calls| && calls[d].id == batch[j].id && calls[d].name == batch[j].name;
    assert d == c;
  }
}
