/** `compose_escape` and `compose_literal` of backend/docker_engine.py. */
module ComposeCodec {
  import opened Json

  /** Python's `value.replace("$", "$$")`. */
  function EscapeText(s: string): string {
    if s == "" then "" else (if s[0] == '$' then "$$" else [s[0]]) + EscapeText(s[1..])
  }

  /** Python's `value.replace("$$", "$")`, left to right without overlaps. */
  function LiteralText(s: string): string {
    if s == "" then ""
    else if |s| >= 2 && s[0] == '$' && s[1] == '$' then "$" + LiteralText(s[2..])
    else [s[0]] + LiteralText(s[1..])
  }

  function Escape(v: Json): Json {
    match v
    case Str(s) => Str(EscapeText(s))
    case Arr(items) => Arr(seq(|items|, i requires 0 <= i < |items| => Escape(items[i])))
    case Obj(fields) => Obj(map k | k in fields :: k := Escape(fields[k]))
    case _ => v
  }

  function Literal(v: Json): Json {
    match v
    case Str(s) => Str(LiteralText(s))
    case Arr(items) => Arr(seq(|items|, i requires 0 <= i < |items| => Literal(items[i])))
    case Obj(fields) => Obj(map k | k in fields :: k := Literal(fields[k]))
    case _ => v
  }

  lemma {:induction false} TextRoundTrip(s: string)
    ensures LiteralText(EscapeText(s)) == s
  {
    if s != "" {
      TextRoundTrip(s[1..]);
      var e := EscapeText(s);
      if s[0] == '$' {
        assert e[2..] == EscapeText(s[1..]);
      } else {
        assert e[0] == s[0] && e[1..] == EscapeText(s[1..]);
      }
    }
  }

  /** Escaping is undone at every depth, whatever runs of `$` the strings hold. */
  lemma {:induction false} RoundTrip(v: Json)
    ensures Literal(Escape(v)) == v
  {
    match v
    case Str(s) => TextRoundTrip(s);
    case Arr(items) =>
      forall i | 0 <= i < |items| ensures Literal(Escape(items[i])) == items[i] {
        RoundTrip(items[i]);
      }
      assert Literal(Escape(v)).items == items;
    case Obj(fields) =>
      forall k | k in fields ensures Literal(Escape(fields[k])) == fields[k] {
        RoundTrip(fields[k]);
      }
      assert Literal(Escape(v)).fields == fields;
    case _ =>
  }

  // The other direction: only text whose runs of `$` are all even survives.

  /** s[i..j] is a longest run of `$`. */
  ghost predicate IsRun(s: string, i: nat, j: nat) {
    && i < j <= |s| && (forall k :: i <= k < j ==> s[k] == '$')
    && (i == 0 || s[i - 1] != '$') && (j == |s| || s[j] != '$')
  }

  ghost predicate EvenRuns(s: string) {
    forall i: nat, j: nat :: IsRun(s, i, j) ==> (j - i) % 2 == 0
  }

  ghost predicate EvenRunsEverywhere(v: Json) {
    match v
    case Str(s) => EvenRuns(s)
    case Arr(items) => forall i :: 0 <= i < |items| ==> EvenRunsEverywhere(items[i])
    case Obj(fields) => forall k :: k in fields ==> EvenRunsEverywhere(fields[k])
    case _ => true
  }

  /** Dropping the first character when it is not `$` drops no run. */
  lemma {:induction false} RunsAfterPlain(s: string)
    requires s != "" && s[0] != '$'
    ensures EvenRuns(s) <==> EvenRuns(s[1..])
  {
    var t := s[1..];
    if EvenRuns(t) {
      forall i: nat, j: nat | IsRun(s, i, j) ensures (j - i) % 2 == 0 {
        assert i > 0;
        assert IsRun(t, i - 1, j - 1);
      }
    }
    if EvenRuns(s) {
      forall i: nat, j: nat | IsRun(t, i, j) ensures (j - i) % 2 == 0 {
        assert IsRun(s, i + 1, j + 1);
      }
    }
  }

  /** Dropping a leading pair shortens the first run by two. */
  lemma {:induction false} RunsAfterPair(s: string)
    requires |s| >= 2 && s[0] == '$' && s[1] == '$'
    ensures EvenRuns(s) <==> EvenRuns(s[2..])
  {
    var t := s[2..];
    if EvenRuns(t) {
      forall i: nat, j: nat | IsRun(s, i, j) ensures (j - i) % 2 == 0 {
        if i == 0 {
          assert j >= 2;
          assert j == 2 || IsRun(t, 0, j - 2);
        } else {
          assert i > 2;
          assert IsRun(t, i - 2, j - 2);
        }
      }
    }
    if EvenRuns(s) {
      forall i: nat, j: nat | IsRun(t, i, j) ensures (j - i) % 2 == 0 {
        if i == 0 {
          assert IsRun(s, 0, j + 2);
        } else {
          assert IsRun(s, i + 2, j + 2);
        }
      }
    }
  }

  lemma {:induction false} TextSurvivesExactlyWhen(s: string)
    ensures EscapeText(LiteralText(s)) == s <==> EvenRuns(s)
    decreases |s|
  {
    if s == "" {
    } else if |s| >= 2 && s[0] == '$' && s[1] == '$' {
      TextSurvivesExactlyWhen(s[2..]);
      RunsAfterPair(s);
      assert LiteralText(s)[1..] == LiteralText(s[2..]);
      assert s == "$$" + s[2..];
    } else if s[0] == '$' {
      assert IsRun(s, 0, 1);
      assert EscapeText(LiteralText(s)) == "$$" + EscapeText(LiteralText(s[1..])) by {
        assert LiteralText(s)[1..] == LiteralText(s[1..]);
      }
    } else {
      TextSurvivesExactlyWhen(s[1..]);
      RunsAfterPlain(s);
      assert LiteralText(s)[1..] == LiteralText(s[1..]);
      assert s == [s[0]] + s[1..];
    }
  }

  /** A stored value comes back from literal and escape exactly when all its `$` runs are even. */
  lemma {:induction false} SurvivesExactlyWhen(v: Json)
    ensures Escape(Literal(v)) == v <==> EvenRunsEverywhere(v)
  {
    match v
    case Str(s) => TextSurvivesExactlyWhen(s);
    case Arr(items) =>
      forall i | 0 <= i < |items| ensures Escape(Literal(items[i])) == items[i] <==> EvenRunsEverywhere(items[i]) {
        SurvivesExactlyWhen(items[i]);
      }
      var back := Escape(Literal(v)).items;
      assert |back| == |items| && forall i :: 0 <= i < |items| ==> back[i] == Escape(Literal(items[i]));
    case Obj(fields) =>
      forall k | k in fields ensures Escape(Literal(fields[k])) == fields[k] <==> EvenRunsEverywhere(fields[k]) {
        SurvivesExactlyWhen(fields[k]);
      }
      var back := Escape(Literal(v)).fields;
      assert back.Keys == fields.Keys && forall k :: k in fields ==> back[k] == Escape(Literal(fields[k]));
    case _ =>
  }

  /** Escaping works character by character: it doubles every `$` and copies the rest. */
  lemma {:induction false} EscapeMeans(s: string, c: char)
    ensures EscapeText("") == "" && EscapeText(s + [c]) == EscapeText(s) + if c == '$' then ['$', '$'] else [c]
  {
    if s == "" {
      assert [c][1..] == "" && "" + [c] == [c];
    } else {
      assert (s + [c])[1..] == s[1..] + [c];
      EscapeMeans(s[1..], c);
    }
  }

  /** An escaped value has no odd run of `$` left, so a later pass has nothing to interpolate. */
  lemma {:induction false} EscapedStaysLiteral(v: Json)
    ensures EvenRunsEverywhere(Escape(v))
  {
    RoundTrip(v);
    SurvivesExactlyWhen(Escape(v));
  }

  /** Only texts change: lists keep their length, objects their keys, and every element is escaped on its own. */
  lemma {:induction false} EscapeKeepsShape(v: Json)
    ensures match v
            case Str(s) => Escape(v) == Str(EscapeText(s))
            case Arr(items) =>
              && Escape(v).Arr? && |Escape(v).items| == |items|
              && forall i :: 0 <= i < |items| ==> Escape(v).items[i] == Escape(items[i])
            case Obj(fields) =>
              && Escape(v).Obj? && Escape(v).fields.Keys == fields.Keys
              && forall k :: k in fields ==> Escape(v).fields[k] == Escape(fields[k])
            case _ => Escape(v) == v
  {
  }
}

/** The frame loop of `_logs`: the multiplexed stream of the Docker attach endpoint. */
module LogFrames {
  import opened Common

  const MAX_RAW := 4 * 1024 * 1024

  /** One frame: stream type, three ignored bytes, and the payload. */
  datatype Frame = Frame(stream: Byte, pad: seq<Byte>, payload: seq<Byte>)

  predicate FrameOk(f: Frame) {
    |f.pad| == 3 && |f.payload| < 0x1_0000_0000
  }

  predicate FramesOk(fs: seq<Frame>) {
    forall i :: 0 <= i < |fs| ==> FrameOk(fs[i])
  }

  function BigEndian(n: nat): seq<Byte>
    requires n < 0x1_0000_0000
  {
    [(n / 0x100 / 0x100 / 0x100) as Byte, (n / 0x100 / 0x100 % 0x100) as Byte, (n / 0x100 % 0x100) as Byte,
     (n % 0x100) as Byte]
  }

  /** `struct.unpack(">I", b)` */
  function Unpack(b: seq<Byte>): nat
    requires |b| == 4
  {
    ((b[0] as int * 0x100 + b[1] as int) * 0x100 + b[2] as int) * 0x100 + b[3] as int
  }

  lemma {:induction false} UnpackBigEndian(n: nat)
    requires n < 0x1_0000_0000
    ensures Unpack(BigEndian(n)) == n
  {
  }

  lemma {:induction false} LowDigit(q: nat, r: Byte)
    ensures (q * 0x100 + r as int) / 0x100 == q && (q * 0x100 + r as int) % 0x100 == r as int
  {
  }

  lemma {:induction false} BigEndianUnpack(b: seq<Byte>)
    requires |b| == 4
    ensures Unpack(b) < 0x1_0000_0000 && BigEndian(Unpack(b)) == b
  {
    var high: nat := b[0] as int;
    var middle: nat := high * 0x100 + b[1] as int;
    LowDigit(high, b[1]);
    LowDigit(middle, b[2]);
    LowDigit(middle * 0x100 + b[2] as int, b[3]);
  }

  function EncodeFrame(f: Frame): seq<Byte>
    requires FrameOk(f)
  {
    [f.stream] + f.pad + BigEndian(|f.payload|) + f.payload
  }

  function EncodeAll(fs: seq<Frame>): seq<Byte>
    requires FramesOk(fs)
  {
    if fs == [] then [] else EncodeFrame(fs[0]) + EncodeAll(fs[1..])
  }

  /** The payloads of stream 1, in order. */
  function Stdout(fs: seq<Frame>): seq<Byte> {
    if fs == [] then [] else (if fs[0].stream == 1 then fs[0].payload else []) + Stdout(fs[1..])
  }

  /** The first frame of raw, if it is complete. */
  function First(raw: seq<Byte>): Option<Frame> {
    if |raw| < 8 || Unpack(raw[4..8]) > |raw| - 8 then None
    else Some(Frame(raw[0], raw[1..4], raw[8..8 + Unpack(raw[4..8])]))
  }

  function Decode(raw: seq<Byte>): Option<seq<Frame>>
    decreases |raw|
  {
    if raw == [] then Some([])
    else if First(raw).None? then None
    else
      var rest := Decode(raw[8 + |First(raw).value.payload|..]);
      if rest.None? then None else Some([First(raw).value] + rest.value)
  }

  lemma {:induction false} FirstOfFrame(f: Frame, tail: seq<Byte>)
    requires FrameOk(f)
    ensures var raw := EncodeFrame(f) + tail; First(raw) == Some(f) && raw[8 + |f.payload|..] == tail
  {
    var raw := EncodeFrame(f) + tail;
    UnpackBigEndian(|f.payload|);
    assert raw[4..8] == BigEndian(|f.payload|);
    assert raw[1..4] == f.pad && raw[8..8 + |f.payload|] == f.payload;
  }

  lemma {:induction false} FrameOfFirst(raw: seq<Byte>)
    requires First(raw).Some?
    ensures var f := First(raw).value;
            FrameOk(f) && 8 + |f.payload| <= |raw| && raw == EncodeFrame(f) + raw[8 + |f.payload|..]
  {
    var f := First(raw).value;
    BigEndianUnpack(raw[4..8]);
    assert raw == [raw[0]] + raw[1..4] + raw[4..8] + raw[8..8 + |f.payload|] + raw[8 + |f.payload|..];
  }

  /** Decoding finds the frames that were sent, and there is only one way to read a stream. */
  lemma {:induction false} DecodeUndoesEncode(fs: seq<Frame>)
    requires FramesOk(fs)
    ensures Decode(EncodeAll(fs)) == Some(fs)
  {
    if fs != [] {
      DecodeUndoesEncode(fs[1..]);
      FirstOfFrame(fs[0], EncodeAll(fs[1..]));
      assert fs == [fs[0]] + fs[1..];
    }
  }

  /** Whatever decodes is a concatenation of well-formed frames. */
  lemma {:induction false} EncodeUndoesDecode(raw: seq<Byte>)
    requires Decode(raw).Some?
    ensures FramesOk(Decode(raw).value) && EncodeAll(Decode(raw).value) == raw
    decreases |raw|
  {
    if raw != [] {
      var f := First(raw).value;
      FrameOfFirst(raw);
      EncodeUndoesDecode(raw[8 + |f.payload|..]);
    }
  }

  /** Raw output is a stream of frames. */
  ghost predicate IsStream(raw: seq<Byte>, fs: seq<Frame>) {
    FramesOk(fs) && EncodeAll(fs) == raw
  }

  lemma {:induction false} DecodesExactlyStreams(raw: seq<Byte>)
    ensures Decode(raw).Some? <==> exists fs :: IsStream(raw, fs)
    ensures forall fs :: IsStream(raw, fs) ==> Decode(raw) == Some(fs)
  {
    if Decode(raw).Some? {
      EncodeUndoesDecode(raw);
      assert IsStream(raw, Decode(raw).value);
    }
    forall fs | IsStream(raw, fs) ensures Decode(raw) == Some(fs) {
      DecodeUndoesEncode(fs);
    }
  }

  /** What the loop has still to do with raw, when `done` is already in the output buffer. */
  function Output(done: seq<Byte>, raw: seq<Byte>): Option<seq<Byte>> {
    if Decode(raw).None? then None else Some(done + Stdout(Decode(raw).value))
  }

  lemma {:induction false} OutputStep(done: seq<Byte>, raw: seq<Byte>)
    requires raw != []
    ensures First(raw).None? ==> Output(done, raw) == None
    ensures First(raw).Some? ==>
              var f := First(raw).value;
              Output(done, raw) == Output(if f.stream == 1 then done + f.payload else done, raw[8 + |f.payload|..])
  {
    if First(raw).Some? {
      var f, rest := First(raw).value, Decode(raw[8 + |First(raw).value.payload|..]);
      if rest.Some? {
        assert Decode(raw).value[1..] == rest.value;
        assert done + (f.payload + Stdout(rest.value)) == done + f.payload + Stdout(rest.value);
        assert [] + Stdout(rest.value) == Stdout(rest.value);
      }
    }
  }

  /** The loop of `_logs`. */
  method ReadFrames(body: seq<Byte>) returns (out: Option<seq<Byte>>)
    ensures out == Output([], body)
  {
    var raw, output := body, [];
    ghost var total := Output([], body);
    while raw != []
      invariant total == Output(output, raw)
      decreases |raw|
    {
      OutputStep(output, raw);
      if |raw| < 8 {
        return None;
      }
      var length := Unpack(raw[4..8]);
      if length > |raw| - 8 {
        return None;
      }
      if raw[0] == 1 {
        output := output + raw[8..8 + length];
      }
      raw := raw[8 + length..];
    }
    assert output + [] == output;
    out := Some(output);
  }

  /** `_logs` on the bytes of a response; None is the output error. */
  method ReadLogs(status: int, body: seq<Byte>) returns (out: Option<seq<Byte>>)
    ensures out.Some? <==> status == 200 && |body| <= 4194304 && exists fs :: IsStream(body, fs)
    ensures out.Some? ==> forall fs :: IsStream(body, fs) ==> out.value == Stdout(fs)
  {
    if status != 200 || |body| > MAX_RAW {
      return None;
    }
    out := ReadFrames(body);
    DecodesExactlyStreams(body);
  }

  /** The output is the payloads of the frames of stream 1, one after the other. */
  lemma {:induction false} StdoutMeans(fs: seq<Frame>, f: Frame)
    ensures Stdout([]) == [] && Stdout(fs + [f]) == Stdout(fs) + if f.stream as int == 1 then f.payload else []
  {
    if fs == [] {
      assert [f][1..] == [] && [] + [f] == [f];
    } else {
      assert (fs + [f])[1..] == fs[1..] + [f];
      StdoutMeans(fs[1..], f);
    }
  }

  /** On the wire: stream, three bytes of padding, the length with its highest byte first, and the payload. */
  lemma {:induction false} FrameBytes(f: Frame)
    requires FrameOk(f)
    ensures var raw := EncodeFrame(f);
            && |raw| == 8 + |f.payload| && raw[0] == f.stream && raw[1..4] == f.pad && raw[8..] == f.payload
            && raw[4] as int * 16777216 + raw[5] as int * 65536 + raw[6] as int * 256 + raw[7] as int == |f.payload|
  {
    UnpackBigEndian(|f.payload|);
    var raw := EncodeFrame(f);
    assert raw[4..8] == BigEndian(|f.payload|);
    assert raw[4] == raw[4..8][0] && raw[5] == raw[4..8][1] && raw[6] == raw[4..8][2] && raw[7] == raw[4..8][3];
  }

  lemma {:induction false} EncodeMore(fs: seq<Frame>, f: Frame)
    requires FramesOk(fs) && FrameOk(f)
    ensures EncodeAll([]) == [] && EncodeAll(fs + [f]) == EncodeAll(fs) + EncodeFrame(f)
  {
    if fs == [] {
      assert [f][1..] == [] && [] + [f] == [f];
    } else {
      assert (fs + [f])[1..] == fs[1..] + [f];
      EncodeMore(fs[1..], f);
    }
  }
}
