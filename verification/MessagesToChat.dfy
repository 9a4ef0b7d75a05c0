/** Messages events to Chat frames, and the round trip between the two translators. */
module MessagesToChat {
  import opened Options
  import opened ChatStream
  import opened ChatToMessages
  import opened MessagesGrammar
  import opened Search
  import opened Strings

  /** A content block announced by a start event; other kinds carry nothing that is read. */
  datatype Started = StartedTool(id: string, name: string) | StartedOther

  datatype Delta = ThinkingPart(text: string) | TextPart(text: string) | JsonPart(text: string) | OtherPart

  datatype Body =
    | Start
    | BlockStart(index: int, block: Option<Started>)
    | BlockDelta(index: int, delta: Option<Delta>)
    | Stopping(reason: Option<string>)
    | Stop
    | Error(message: string)
    | Other

  datatype Info = Info(id: string, model: string)

  /** One data payload. Any decoded event may carry a message object with id and model. */
  datatype Payload = DoneMarker | Garbage | Decoded(info: Option<Info>, body: Body)

  // ----- Reasons and identifiers -----

  function FinishOf(reason: string, sawTool: bool): string {
    if reason == "max_tokens" then "length"
    else if reason == "tool_use" then "tool_calls"
    else if sawTool then "tool_calls" else "stop"
  }

  function FinishChunkReason(reason: Option<string>, sawTool: bool): string {
    var finish := if reason.Some? then FinishOf(reason.value, sawTool) else "stop";
    if sawTool && finish == "stop" then "tool_calls" else finish
  }

  function StripMsgPrefix(id: string): string {
    if |id| > 4 && id[..4] == "msg_" then id[4..] else id
  }

  // ----- Output chunks -----

  const Nothing := Choice("", "", "", "", "", [], "")

  function ChunkOf(id: string, c: Choice): Frame { Chunk(id, NoUsage, [c]) }

  function ToolChunk(id: string, d: ToolDelta): Frame { ChunkOf(id, Nothing.(tools := [d])) }

  // ----- The translator as a function on its state and output -----

  datatype Writer = Writer(model: string, id: string, toolIndex: map<int, int>, nextTool: int,
                               sawToolUse: bool, finishSent: bool, out: seq<Frame>, emitDone: bool)

  function NewWriter(model: string): Writer {
    Writer(model, "chatcmpl-stream", map[], 0, false, false, [], false)
  }

  function Send(m: Writer, f: Frame): Writer {
    m.(out := m.out + [f])
  }

  function NoteInfo(m: Writer, info: Option<Info>): Writer {
    if info == None then m
    else
      var m := if info.value.id == "" then m else m.(id := "chatcmpl-" + StripMsgPrefix(info.value.id));
      if info.value.model == "" then m else m.(model := info.value.model)
  }

  function NewTool(m: Writer, block: int): Writer {
    m.(sawToolUse := true, toolIndex := m.toolIndex[block := m.nextTool], nextTool := m.nextTool + 1)
  }

  function SendFinish(m: Writer, reason: string): Writer {
    if m.finishSent then m else Send(m.(finishSent := true), ChunkOf(m.id, Nothing.(finish := reason)))
  }

  function FeedPart(m: Writer, index: int, delta: Delta): Writer {
    match delta
    case ThinkingPart(t) => if t == "" then m else Send(m, ChunkOf(m.id, Nothing.(reasoningContent := t)))
    case TextPart(t) => if t == "" then m else Send(m, ChunkOf(m.id, Nothing.(content := t)))
    case JsonPart(t) =>
      if t == "" then m
      else
        var m := if index in m.toolIndex then m else NewTool(m, index);
        Send(m, ToolChunk(m.id, ToolDelta(m.toolIndex[index], "", "", t)))
    case OtherPart => m
  }

  function FeedBody(m: Writer, body: Body): Writer {
    match body
    case Start => m
    case BlockStart(index, block) =>
      if block == None || block.value == StartedOther then m
      else
        Send(NewTool(m, index), ToolChunk(m.id, ToolDelta(m.nextTool, block.value.id, block.value.name, "")))
    case BlockDelta(index, delta) => if delta == None then m else FeedPart(m, index, delta.value)
    case Stopping(reason) => SendFinish(m, FinishChunkReason(reason, m.sawToolUse))
    case Stop => SendFinish(m, if m.sawToolUse then "tool_calls" else "stop").(emitDone := true)
    case Error(message) => Send(m, ErrorObject(if message == "" then "upstream anthropic error" else message))
    case Other => m
  }

  function FeedPayload(m: Writer, p: Payload): Writer {
    match p
    case DoneMarker => m.(emitDone := true)
    case Garbage => m
    case Decoded(info, body) => FeedBody(NoteInfo(m, info), body)
  }

  // ----- The translator as an object -----

  class MessagesStream {
    var model: string
    var id: string
    var toolIndex: map<int, int>
    var nextTool: int
    var sawToolUse: bool
    var finishSent: bool
    ghost var out: seq<Frame>
    ghost var done: bool

    constructor (model: string)
      ensures Value() == NewWriter(model)
    {
      this.model, id := model, "chatcmpl-stream";
      toolIndex, nextTool, sawToolUse, finishSent := map[], 0, false, false;
      out, done := [], false;
    }

    ghost function Value(): Writer
      reads this
    {
      Writer(model, id, toolIndex, nextTool, sawToolUse, finishSent, out, done)
    }

    /** Returns the chunks to write and whether the end marker is to follow them. */
    method FeedJSON(data: Payload) returns (chunks: seq<Frame>, emitDone: bool)
      modifies this
      ensures Value() == FeedPayload(old(Value()), data)
      ensures out == old(out) + chunks && done == (old(done) || emitDone)
    {
      chunks, emitDone := [], false;
      assert out + [] == out;
      match data {
      case DoneMarker => emitDone := true;
      case Garbage =>
      case Decoded(info, body) =>
        if info.Some? {
          if info.value.id != "" {
            id := "chatcmpl-" + StripMsgPrefix(info.value.id);
          }
          if info.value.model != "" {
            model := info.value.model;
          }
        }
        chunks, emitDone := OnBody(body);
      }
      out := out + chunks;
      done := done || emitDone;
    }

    method OnBody(body: Body) returns (chunks: seq<Frame>, emitDone: bool)
      modifies this
      ensures Value().(out := old(out) + chunks, emitDone := old(done) || emitDone) == FeedBody(old(Value()), body)
      ensures out == old(out) && done == old(done)
    {
      chunks, emitDone := [], false;
      match body
      case Start =>
      case BlockStart(index, block) =>
        if block.Some? && block.value.StartedTool? {
          sawToolUse := true;
          var toolIdx := nextTool;
          toolIndex := toolIndex[index := toolIdx];
          nextTool := nextTool + 1;
          chunks := [ToolChunk(id, ToolDelta(toolIdx, block.value.id, block.value.name, ""))];
        }
      case BlockDelta(index, delta) =>
        if delta.Some? {
          chunks := OnDelta(index, delta.value);
        }
      case Stopping(reason) =>
        var finish := "stop";
        if reason.Some? {
          finish := FinishOf(reason.value, sawToolUse);
        }
        if sawToolUse && finish == "stop" {
          finish := "tool_calls";
        }
        if !finishSent {
          finishSent := true;
          chunks := [ChunkOf(id, Nothing.(finish := finish))];
        }
      case Stop =>
        if !finishSent {
          finishSent := true;
          var finish := "stop";
          if sawToolUse {
            finish := "tool_calls";
          }
          chunks := [ChunkOf(id, Nothing.(finish := finish))];
        }
        emitDone := true;
      case Error(message) =>
        chunks := [ErrorObject(if message == "" then "upstream anthropic error" else message)];
      case Other =>
    }

    method OnDelta(index: int, delta: Delta) returns (chunks: seq<Frame>)
      modifies this
      ensures Value().(out := old(out) + chunks) == FeedPart(old(Value()), index, delta)
      ensures out == old(out) && done == old(done)
    {
      chunks := [];
      match delta
      case ThinkingPart(t) =>
        if t != "" {
          chunks := [ChunkOf(id, Nothing.(reasoningContent := t))];
        }
      case TextPart(t) =>
        if t != "" {
          chunks := [ChunkOf(id, Nothing.(content := t))];
        }
      case JsonPart(t) =>
        if t != "" {
          if index !in toolIndex {
            toolIndex := toolIndex[index := nextTool];
            nextTool := nextTool + 1;
            sawToolUse := true;
          }
          chunks := [ToolChunk(id, ToolDelta(toolIndex[index], "", "", t))];
        }
      case OtherPart =>
    }
  }

  // ----- Translating what the other translator emitted -----

  function Encode(ev: Event): Payload {
    match ev
    case MessageStart(id, model, _, _) => Decoded(Some(Info(id, model)), Start)
    case TextStart(i) => Decoded(None, BlockStart(i, Some(StartedOther)))
    case ThinkingStart(i) => Decoded(None, BlockStart(i, Some(StartedOther)))
    case ToolStart(i, id, name) => Decoded(None, BlockStart(i, Some(StartedTool(id, name))))
    case TextDelta(i, t) => Decoded(None, BlockDelta(i, Some(TextPart(t))))
    case ThinkingDelta(i, t) => Decoded(None, BlockDelta(i, Some(ThinkingPart(t))))
    case JsonDelta(i, t) => Decoded(None, BlockDelta(i, Some(JsonPart(t))))
    case BlockStop(i) => Decoded(None, Other)
    case MessageDelta(reason, _) => Decoded(None, Stopping(Some(reason)))
    case MessageStop => Decoded(None, Stop)
  }

  function Translate(model: string, trace: seq<Event>): Writer
    decreases |trace|
  {
    if trace == [] then NewWriter(model)
    else FeedPayload(Translate(model, trace[..|trace| - 1]), Encode(trace[|trace| - 1]))
  }

  /** Chunks that carry a finish reason. */
  function FinishChunks(frames: seq<Frame>): nat
    decreases |frames|
  {
    if frames == [] then 0
    else
      var f := frames[|frames| - 1];
      FinishChunks(frames[..|frames| - 1]) + (if f.Chunk? && f.choices != [] && f.choices[0].finish != "" then 1 else 0)
  }

  lemma {:induction false} ReadSent(out: seq<Frame>, f: Frame)
    ensures ReadFrames(out + [f]) == AddFrame(ReadFrames(out), f)
    ensures FinishChunks(out + [f])
            == FinishChunks(out) + (if f.Chunk? && f.choices != [] && f.choices[0].finish != "" then 1 else 0)
  {
    assert (out + [f])[..|out|] == out;
  }

  // ----- Every grammatical stream keeps its content -----

  /** Tool calls are renumbered by first appearance. */
  ghost predicate ToolsCarried(m: Writer, d: Doc, tools: seq<Tool>) {
    && |tools| == |d.tools| == m.nextTool
    && m.sawToolUse == (d.tools != [])
    && (forall i :: 0 <= i < |tools| ==> tools[i] == Tool(i, d.tools[i].id, d.tools[i].name, d.tools[i].args))
    && (forall i :: 0 <= i < |tools| ==> d.tools[i].block in m.toolIndex && m.toolIndex[d.tools[i].block] == i)
    && (forall i :: 0 <= i < |d.tools| ==> d.tools[i].block < |d.blocks|)
  }

  /** The finish reason of a message that stopped for a reason, with or without tool calls. */
  function FinishFor(reason: string, usedTools: bool): string {
    if reason == "max_tokens" then "length"
    else if usedTools || reason == "tool_use" then "tool_calls"
    else "stop"
  }

  /** The identifier of the chunks of a message. */
  function ChunkId(id: string): string {
    if id == "" then "chatcmpl-stream"
    else if HasPrefix(id, "msg_") && id != "msg_" then "chatcmpl-" + id[4..]
    else "chatcmpl-" + id
  }

  ghost predicate AllNamed(frames: seq<Frame>, id: string) {
    forall i :: 0 <= i < |frames| ==> frames[i].Chunk? && frames[i].id == id
  }

  ghost predicate Carried(m: Writer, d: Doc) {
    var v := ReadFrames(m.out);
    && m.id == ChunkId(d.id) && AllNamed(m.out, m.id) && (!d.started ==> m.out == [] && d.id == "")
    && v.text == d.text && v.reasoning == d.reasoning
    && ToolsCarried(m, d, v.tools)
    && m.finishSent == d.stop.Some? && m.emitDone == d.ended && !v.done
    && FinishChunks(m.out) == (if d.stop.Some? then 1 else 0)
    && v.finish == (if d.stop.Some? then FinishFor(d.stop.value, d.tools != []) else "")
  }

  lemma {:induction false} AddNoTools(tools: seq<Tool>)
    ensures AddTools(tools, []) == tools
  {}

  lemma {:induction false} AddOneTool(tools: seq<Tool>, d: ToolDelta)
    ensures AddTools(tools, [d]) == AddTool(tools, d)
  {
    assert [d][..0] == [];
  }

  lemma {:induction false} PositionIsIndex(tools: seq<Tool>, i: int)
    requires forall j :: 0 <= j < |tools| ==> tools[j].index == j
    ensures 0 <= i <= |tools| ==> ToolPosition(tools, i) == i
  {
    var p := ToolPosition(tools, i);
    if 0 <= i < |tools| {
      assert tools[i].index == i;
    }
  }

  lemma {:induction false} PlainChunkCarried(m: Writer, d: Doc, c: Choice)
    requires Carried(m, d) && d.started && c.tools == [] && c.finish == ""
    ensures Carried(Send(m, ChunkOf(m.id, c)), d.(text := d.text + c.content, reasoning := d.reasoning + Thinking(c)))
  {
    hide ReadFrames, FinishChunks, AddTools;
    ReadSent(m.out, ChunkOf(m.id, c));
    AddNoTools(ReadFrames(m.out).tools);
  }

  lemma {:induction false} ToolStartCarried(m: Writer, d: Doc, id: string, name: string)
    requires Carried(m, d) && MayStart(d, |d.blocks|)
    ensures Carried(FeedBody(m, BlockStart(|d.blocks|, Some(StartedTool(id, name)))),
                    d.(blocks := d.blocks + [Block(ToolUse, true)],
                       tools := d.tools + [DocTool(|d.blocks|, id, name, "")]))
  {
    hide ReadFrames, FinishChunks, AddTools, ToolPosition;
    var delta := ToolDelta(m.nextTool, id, name, "");
    var tools := ReadFrames(m.out).tools;
    ReadSent(m.out, ToolChunk(m.id, delta));
    AddOneTool(tools, delta);
    PositionIsIndex(tools, m.nextTool);
    assert AddTool(tools, delta) == tools + [Tool(m.nextTool, id, name, "")];
  }

  lemma {:induction false} JsonCarried(m: Writer, d: Doc, block: nat, t: string)
    requires Carried(m, d) && InBlock(d, block, ToolUse) && DocToolPosition(d.tools, block) < |d.tools| && t != ""
    ensures var p := DocToolPosition(d.tools, block);
            Carried(FeedPart(m, block, JsonPart(t)),
                d.(tools := d.tools[p := d.tools[p].(args := d.tools[p].args + t)]))
  {
    hide ReadFrames, FinishChunks, AddTools, AddTool;
    var p := DocToolPosition(d.tools, block);
    var delta := ToolDelta(p, "", "", t);
    var tools := ReadFrames(m.out).tools;
    assert d.tools[p].block == block && m.toolIndex[block] == p;
    ReadSent(m.out, ToolChunk(m.id, delta));
    AddOneTool(tools, delta);
    ArgsCarried(m, d, tools, p, t);
    var v := ReadFrames(m.out);
    assert v.text + "" == v.text && v.reasoning + "" == v.reasoning;
  }

  lemma {:induction false} ArgsCarried(m: Writer, d: Doc, tools: seq<Tool>, p: nat, t: string)
    requires ToolsCarried(m, d, tools) && p < |tools|
    ensures AddTool(tools, ToolDelta(p, "", "", t)) == tools[p := tools[p].(args := tools[p].args + t)]
    ensures ToolsCarried(m, d.(tools := d.tools[p := d.tools[p].(args := d.tools[p].args + t)]),
                         AddTool(tools, ToolDelta(p, "", "", t)))
  {
    PositionIsIndex(tools, p);
  }

  lemma {:induction false} FinishCarried(m: Writer, d: Doc, reason: string)
    requires Carried(m, d) && d.started && d.stop == None
    ensures Carried(FeedBody(m, Stopping(Some(reason))), d.(stop := Some(reason)))
  {
    hide ReadFrames, FinishChunks, AddTools, ToolPosition;
    var c := Nothing.(finish := FinishChunkReason(Some(reason), m.sawToolUse));
    ReadSent(m.out, ChunkOf(m.id, c));
    AddNoTools(ReadFrames(m.out).tools);
    var v := ReadFrames(m.out);
    assert v.text + "" == v.text && v.reasoning + "" == v.reasoning;
  }

  lemma {:induction false} DeltaCarried(m: Writer, d: Doc, ev: Event)
    requires Carried(m, d) && Accept(d, ev).Some? && (ev.TextDelta? || ev.ThinkingDelta? || ev.JsonDelta?)
    ensures Carried(FeedPayload(m, Encode(ev)), Accept(d, ev).value)
  {
    hide Carried, ReadFrames, FinishChunks;
    if ev.text == "" {
      EmptyDelta(m, d, ev);
    } else {
      match ev
      case TextDelta(i, t) =>
        PlainChunkCarried(m, d, Nothing.(content := t));
        assert d.reasoning + "" == d.reasoning;
      case ThinkingDelta(i, t) =>
        PlainChunkCarried(m, d, Nothing.(reasoningContent := t));
        assert d.text + "" == d.text;
      case JsonDelta(i, t) => JsonCarried(m, d, i, t);
    }
  }

  lemma {:induction false} EmptyDelta(m: Writer, d: Doc, ev: Event)
    requires Accept(d, ev).Some? && (ev.TextDelta? || ev.ThinkingDelta? || ev.JsonDelta?) && ev.text == ""
    ensures FeedPayload(m, Encode(ev)) == m && Accept(d, ev).value == d
  {
    assert d.text + "" == d.text && d.reasoning + "" == d.reasoning;
    if ev.JsonDelta? {
      var p := DocToolPosition(d.tools, ev.index);
      assert d.tools[p].args + "" == d.tools[p].args;
      assert d.tools[p := d.tools[p]] == d.tools;
    }
  }

  lemma {:induction false} SameToolsCarried(m: Writer, d: Doc, tools: seq<Tool>, m': Writer, d': Doc)
    requires ToolsCarried(m, d, tools)
    requires m'.toolIndex == m.toolIndex && m'.nextTool == m.nextTool && m'.sawToolUse == m.sawToolUse
    requires d'.tools == d.tools && |d.blocks| <= |d'.blocks|
    ensures ToolsCarried(m', d', tools)
  {}

  lemma {:induction false} ChunkIdIs(id: string)
    ensures ChunkId(id) == if id == "" then "chatcmpl-stream" else "chatcmpl-" + StripMsgPrefix(id)
  {
    assert |id| == 4 ==> id[..4] == id;
  }

  /** Starts of text and reasoning blocks, stops of blocks, and the ends of the message
      write nothing. */
  lemma {:induction false} SilentCarried(m: Writer, d: Doc, ev: Event)
    requires Carried(m, d) && Accept(d, ev).Some?
    requires ev.MessageStart? || ev.TextStart? || ev.ThinkingStart? || ev.BlockStop? || ev.MessageStop?
    ensures Carried(FeedPayload(m, Encode(ev)), Accept(d, ev).value)
  {
    hide ReadFrames, FinishChunks, ToolsCarried, FinishFor, DocToolPosition, StripMsgPrefix, ChunkId;
    var m', d' := FeedPayload(m, Encode(ev)), Accept(d, ev).value;
    if ev.MessageStart? { ChunkIdIs(ev.id); }
    SameToolsCarried(m, d, ReadFrames(m.out).tools, m', d');
  }

  lemma {:induction false} EventCarried(m: Writer, d: Doc, ev: Event)
    requires Carried(m, d) && Accept(d, ev).Some?
    ensures Carried(FeedPayload(m, Encode(ev)), Accept(d, ev).value)
  {
    hide Carried, ReadFrames, FinishChunks;
    match ev
    case ToolStart(i, id, name) => ToolStartCarried(m, d, id, name);
    case MessageDelta(reason, _) => FinishCarried(m, d, reason);
    case TextDelta(_, _) => DeltaCarried(m, d, ev);
    case ThinkingDelta(_, _) => DeltaCarried(m, d, ev);
    case JsonDelta(_, _) => DeltaCarried(m, d, ev);
    case _ => SilentCarried(m, d, ev);
  }

  /** For every grammatical Messages stream the Chat chunks carry its identifier, its text,
      its reasoning and its tool calls, and exactly one finish chunk once the stop reason is
      known. */
  lemma {:induction false} GrammaticalStreamsKeepContent(model: string, trace: seq<Event>)
    requires ReadTrace(trace).Some?
    ensures Carried(Translate(model, trace), ReadTrace(trace).value)
    decreases |trace|
  {
    if trace != [] {
      var n := |trace| - 1;
      GrammaticalStreamsKeepContent(model, trace[..n]);
      EventCarried(Translate(model, trace[..n]), ReadTrace(trace[..n]).value, trace[n]);
    }
  }

  // ----- Streams that need not be grammatical -----

  function TranslateAll(model: string, payloads: seq<Payload>): Writer
    decreases |payloads|
  {
    if payloads == [] then NewWriter(model)
    else FeedPayload(TranslateAll(model, payloads[..|payloads| - 1]), payloads[|payloads| - 1])
  }

  /** The payload ends the message, with a reason, without one, or by stopping it. */
  predicate Ends(p: Payload) { p.Decoded? && (p.body.Stopping? || p.body.Stop?) }

  /** The payload speaks of a tool call. */
  predicate TellsOfTool(p: Payload) {
    p.Decoded?
    && ((p.body.BlockStart? && p.body.block.Some? && p.body.block.value.StartedTool?)
        || (p.body.BlockDelta? && p.body.delta.Some? && p.body.delta.value.JsonPart? && p.body.delta.value.text != ""))
  }

  predicate ToolsIn(payloads: seq<Payload>) { exists i :: 0 <= i < |payloads| && TellsOfTool(payloads[i]) }

  /** What an ending payload says about the finish reason. */
  function EndingReason(p: Payload): string
    requires Ends(p)
  {
    if p.body.Stopping? && p.body.reason.Some? then p.body.reason.value else "end_turn"
  }

  function TextOf(p: Payload): string {
    if p.Decoded? && p.body.BlockDelta? && p.body.delta.Some? && p.body.delta.value.TextPart?
    then p.body.delta.value.text else ""
  }

  function ReasoningOf(p: Payload): string {
    if p.Decoded? && p.body.BlockDelta? && p.body.delta.Some? && p.body.delta.value.ThinkingPart?
    then p.body.delta.value.text else ""
  }

  function ErrorOf(p: Payload): seq<string> {
    if !p.Decoded? || !p.body.Error? then []
    else if p.body.message == "" then ["upstream anthropic error"] else [p.body.message]
  }

  function TextIn(payloads: seq<Payload>): string
    decreases |payloads|
  {
    if payloads == [] then "" else TextIn(payloads[..|payloads| - 1]) + TextOf(payloads[|payloads| - 1])
  }

  function ReasoningIn(payloads: seq<Payload>): string
    decreases |payloads|
  {
    if payloads == [] then "" else ReasoningIn(payloads[..|payloads| - 1]) + ReasoningOf(payloads[|payloads| - 1])
  }

  function ErrorsIn(payloads: seq<Payload>): seq<string>
    decreases |payloads|
  {
    if payloads == [] then [] else ErrorsIn(payloads[..|payloads| - 1]) + ErrorOf(payloads[|payloads| - 1])
  }

  predicate SaysDone(p: Payload) { p.DoneMarker? || (p.Decoded? && p.body.Stop?) }

  function ErrorsOf(frames: seq<Frame>): seq<string>
    decreases |frames|
  {
    if frames == [] then []
    else
      var f := frames[|frames| - 1];
      ErrorsOf(frames[..|frames| - 1]) + (if f.ErrorObject? then [f.message] else [])
  }

  /** The chunks against the payloads: the finish is that of the first ending, with the tool
      calls told of before it. */
  ghost predicate Conveyed(m: Writer, payloads: seq<Payload>) {
    var v, k := ReadFrames(m.out), FirstAt(payloads, Ends);
    && v.text == TextIn(payloads) && v.reasoning == ReasoningIn(payloads) && ErrorsOf(m.out) == ErrorsIn(payloads)
    && m.sawToolUse == ToolsIn(payloads) && (m.toolIndex != map[] ==> m.sawToolUse) && m.finishSent == (k < |payloads|)
    && FinishChunks(m.out) == (if k < |payloads| then 1 else 0)
    && v.finish == (if k < |payloads| then FinishFor(EndingReason(payloads[k]), ToolsIn(payloads[..k])) else "")
    && (m.emitDone <==> exists i :: 0 <= i < |payloads| && SaysDone(payloads[i]))
  }

  lemma {:induction false} OneMorePayload(payloads: seq<Payload>, p: Payload)
    ensures var all := payloads + [p]; var k, k' := FirstAt(payloads, Ends), FirstAt(all, Ends);
            && k' == (if k < |payloads| then k else if Ends(p) then |payloads| else |payloads| + 1)
            && (k < |payloads| ==> all[k] == payloads[k] && all[..k] == payloads[..k])
            && all[..|payloads|] == payloads
            && (ToolsIn(all) <==> ToolsIn(payloads) || TellsOfTool(p))
            && ((exists i :: 0 <= i < |all| && SaysDone(all[i])) <==>
                  (exists i :: 0 <= i < |payloads| && SaysDone(payloads[i])) || SaysDone(p))
            && TextIn(all) == TextIn(payloads) + TextOf(p) && ReasoningIn(all) == ReasoningIn(payloads) + ReasoningOf(p)
            && ErrorsIn(all) == ErrorsIn(payloads) + ErrorOf(p)
  {
    hide Ends, TellsOfTool, SaysDone, TextOf, ReasoningOf, ErrorOf;
    var all := payloads + [p];
    var k, k' := FirstAt(payloads, Ends), FirstAt(all, Ends);
    assert forall i :: 0 <= i < |payloads| ==> all[i] == payloads[i];
    assert all[|payloads|] == p;
    assert k < |payloads| ==> Ends(all[k]) && all[..k] == payloads[..k];
    if ToolsIn(payloads) {
      var i :| 0 <= i < |payloads| && TellsOfTool(payloads[i]);
      assert TellsOfTool(all[i]);
    }
  }

  lemma {:induction false} ErrorsSent(out: seq<Frame>, f: Frame)
    ensures ErrorsOf(out + [f]) == ErrorsOf(out) + (if f.ErrorObject? then [f.message] else [])
  {
    assert (out + [f])[..|out|] == out;
  }

  /** The frame says what the payload says, and finishes with this reason. */
  ghost predicate Says(f: Frame, p: Payload, finish: string) {
    && (f.ErrorObject? ==> ErrorOf(p) == [f.message] && TextOf(p) == "" && ReasoningOf(p) == "" && finish == "")
    && (f.Chunk? ==>
          && ErrorOf(p) == [] && f.choices != []
          && f.choices[0].content == TextOf(p) && Thinking(f.choices[0]) == ReasoningOf(p)
          && f.choices[0].finish == finish)
    && (f.ErrorObject? || f.Chunk?)
  }

  ghost predicate Silent(p: Payload) { TextOf(p) == "" && ReasoningOf(p) == "" && ErrorOf(p) == [] }

  /** m' is m with at most one more frame, which says what the payload says. */
  ghost predicate Adds(m: Writer, m': Writer, p: Payload) {
    && m'.finishSent == m.finishSent && m'.sawToolUse == (m.sawToolUse || TellsOfTool(p))
    && m'.emitDone == (m.emitDone || SaysDone(p)) && (m'.toolIndex != map[] ==> m'.sawToolUse)
    && |m.out| <= |m'.out| <= |m.out| + 1
    && (if |m'.out| == |m.out| then m'.out == m.out && Silent(p)
        else m'.out == m.out + [m'.out[|m.out|]] && Says(m'.out[|m.out|], p, ""))
  }

  lemma {:induction false} DeltaAdds(m: Writer, info: Option<Info>, index: int, delta: Delta)
    requires m.toolIndex != map[] ==> m.sawToolUse
    ensures Adds(m, FeedPart(m, index, delta), Decoded(info, BlockDelta(index, Some(delta))))
  {
    assert index in m.toolIndex ==> m.toolIndex != map[];
  }

  lemma {:induction false} BodyAdds(m: Writer, info: Option<Info>, body: Body)
    requires !body.Stopping? && !body.Stop? && (m.toolIndex != map[] ==> m.sawToolUse)
    ensures Adds(m, FeedBody(m, body), Decoded(info, body))
  {
    if body.BlockDelta? && body.delta.Some? {
      hide FeedPart, Adds;
      DeltaAdds(m, info, body.index, body.delta.value);
    }
  }

  /** What a payload that does not end the message adds. */
  lemma {:induction false} PartAdds(m: Writer, p: Payload)
    requires !Ends(p) && (m.toolIndex != map[] ==> m.sawToolUse)
    ensures Adds(m, FeedPayload(m, p), p)
  {
    if p.Decoded? {
      hide FeedBody;
      BodyAdds(NoteInfo(m, p.info), p.info, p.body);
      hide TellsOfTool, SaysDone, Silent, Says, StripMsgPrefix;
    }
  }

  /** An ending payload adds the finish chunk, unless there was one. */
  lemma {:induction false} EndAdds(m: Writer, p: Payload)
    requires Ends(p)
    ensures var m' := FeedPayload(m, p);
            && m'.finishSent && m'.sawToolUse == m.sawToolUse && m'.toolIndex == m.toolIndex
            && !TellsOfTool(p) && Silent(p) && m'.emitDone == (m.emitDone || SaysDone(p))
            && (if m.finishSent then m'.out == m.out
                else |m'.out| == |m.out| + 1 && m'.out == m.out + [m'.out[|m.out|]]
                     && Says(m'.out[|m.out|], p, FinishFor(EndingReason(p), m.sawToolUse)))
  {
    hide StripMsgPrefix, TellsOfTool, Silent;
    EndIsSilent(p);
    var m1 := NoteInfo(m, p.info);
    FinishReasons(p, m.sawToolUse);
    var finish := FinishFor(EndingReason(p), m.sawToolUse);
    hide FinishChunkReason, FinishFor, EndingReason;
    assert FeedPayload(m, p).out == SendFinish(m1, finish).out;
  }

  lemma {:induction false} EndIsSilent(p: Payload)
    requires Ends(p)
    ensures !TellsOfTool(p) && Silent(p)
  {}

  lemma {:induction false} FinishReasons(p: Payload, sawTool: bool)
    requires Ends(p)
    ensures FinishFor(EndingReason(p), sawTool)
            == if !p.body.Stop? then FinishChunkReason(p.body.reason, sawTool)
               else if sawTool then "tool_calls" else "stop"
  {}

  lemma {:induction false} FrameSaid(out: seq<Frame>, f: Frame, p: Payload, finish: string)
    requires Says(f, p, finish)
    ensures var v, v' := ReadFrames(out), ReadFrames(out + [f]);
            && v'.text == v.text + TextOf(p) && v'.reasoning == v.reasoning + ReasoningOf(p)
            && v'.finish == (if finish != "" then finish else v.finish)
            && ErrorsOf(out + [f]) == ErrorsOf(out) + ErrorOf(p)
            && FinishChunks(out + [f]) == FinishChunks(out) + (if finish != "" then 1 else 0)
  {
    hide ReadFrames, FinishChunks, ErrorsOf, AddTools, TextOf, ReasoningOf, ErrorOf, Thinking;
    ReadSent(out, f);
    ErrorsSent(out, f);
    var v := ReadFrames(out);
    assert v.text + "" == v.text && v.reasoning + "" == v.reasoning && ErrorsOf(out) + [] == ErrorsOf(out);
  }

  lemma {:induction false} PayloadConveyed(m: Writer, payloads: seq<Payload>, p: Payload)
    requires Conveyed(m, payloads)
    ensures Conveyed(FeedPayload(m, p), payloads + [p])
  {
    hide ReadFrames, FinishChunks, ErrorsOf, Ends, TellsOfTool, SaysDone, ToolsIn, FeedPayload, Says, EndingReason,
         TextIn, ReasoningIn, ErrorsIn;
    OneMorePayload(payloads, p);
    var v, m' := ReadFrames(m.out), FeedPayload(m, p);
    if Ends(p) { EndAdds(m, p); } else { PartAdds(m, p); }
    var finish := if Ends(p) then FinishFor(EndingReason(p), m.sawToolUse) else "";
    if |m'.out| > |m.out| {
      FrameSaid(m.out, m'.out[|m.out|], p, finish);
    } else {
      assert v.text + "" == v.text && v.reasoning + "" == v.reasoning && ErrorsOf(m.out) + [] == ErrorsOf(m.out);
    }
  }

  lemma {:induction false} NothingConveyed(model: string)
    ensures Conveyed(NewWriter(model), [])
  {}

  /** Whatever payloads come, grammatical or not: the chunks carry all text, all reasoning and
      all errors in order, and one finish chunk if and only if some payload ends the message,
      with the reason of the first that does. */
  lemma {:induction false} EveryStreamIsConveyed(model: string, payloads: seq<Payload>)
    ensures Conveyed(TranslateAll(model, payloads), payloads)
    decreases |payloads|
  {
    hide Conveyed, FeedPayload;
    if payloads == [] {
      NothingConveyed(model);
    } else {
      var n := |payloads| - 1;
      EveryStreamIsConveyed(model, payloads[..n]);
      PayloadConveyed(TranslateAll(model, payloads[..n]), payloads[..n], payloads[n]);
      assert payloads[..n] + [payloads[n]] == payloads;
    }
  }

  /** The last message identifier that is not empty, and the last model. */
  function LatestInfo(model: string, payloads: seq<Payload>): Info
    decreases |payloads|
  {
    if payloads == [] then Info("", model)
    else
      var known, p := LatestInfo(model, payloads[..|payloads| - 1]), payloads[|payloads| - 1];
      if !p.Decoded? || p.info == None then known
      else Info(if p.info.value.id != "" then p.info.value.id else known.id,
                if p.info.value.model != "" then p.info.value.model else known.model)
  }

  /** m' is m with more frames, all of them with its identifier. */
  ghost predicate Names(m: Writer, m': Writer) {
    && m'.id == m.id && m'.model == m.model && |m.out| <= |m'.out| && m'.out[..|m.out|] == m.out
    && forall i :: |m.out| <= i < |m'.out| && m'.out[i].Chunk? ==> m'.out[i].id == m.id
  }

  lemma {:induction false} SendNames(m: Writer, m0: Writer, f: Frame)
    requires m0.id == m.id && m0.model == m.model && m0.out == m.out && (f.Chunk? ==> f.id == m.id)
    ensures Names(m, Send(m0, f))
  {}

  lemma {:induction false} PartNames(m: Writer, index: int, delta: Delta)
    ensures Names(m, FeedPart(m, index, delta))
  {
    hide Names;
    SameNames(m, m);
    match delta
    case ThinkingPart(t) => SendNames(m, m, ChunkOf(m.id, Nothing.(reasoningContent := t)));
    case TextPart(t) => SendNames(m, m, ChunkOf(m.id, Nothing.(content := t)));
    case JsonPart(t) =>
      var m0 := if index in m.toolIndex then m else NewTool(m, index);
      SendNames(m, m0, ToolChunk(m.id, ToolDelta(m0.toolIndex[index], "", "", t)));
    case OtherPart =>
  }

  lemma {:induction false} SameNames(m: Writer, m0: Writer)
    requires m0.id == m.id && m0.model == m.model && m0.out == m.out
    ensures Names(m, m0)
  {}

  lemma {:induction false} BodyNames(m: Writer, body: Body)
    ensures Names(m, FeedBody(m, body))
  {
    hide Names, FinishChunkReason, FeedPart;
    SameNames(m, m);
    match body
    case BlockStart(index, block) =>
      if block.Some? && block.value.StartedTool? {
        var delta := ToolDelta(m.nextTool, block.value.id, block.value.name, "");
        SendNames(m, NewTool(m, index), ToolChunk(m.id, delta));
      }
    case BlockDelta(index, delta) => if delta.Some? { PartNames(m, index, delta.value); }
    case Stopping(reason) => FinishNames(m, FinishChunkReason(reason, m.sawToolUse));
    case Stop => FinishNames(m, if m.sawToolUse then "tool_calls" else "stop");
    case Error(message) =>
      SendNames(m, m, ErrorObject(if message == "" then "upstream anthropic error" else message));
    case _ =>
  }

  lemma {:induction false} FinishNames(m: Writer, reason: string)
    ensures Names(m, SendFinish(m, reason)) && Names(m, SendFinish(m, reason).(emitDone := true))
  {}

  /** The writer has the latest identifier and model, and what it writes next carries that
      identifier. */
  lemma {:induction false} ChunksAreNamed(model: string, payloads: seq<Payload>)
    ensures var m, info := TranslateAll(model, payloads), LatestInfo(model, payloads);
            m.id == ChunkId(info.id) && m.model == info.model
    ensures payloads != [] ==>
              var before, m := TranslateAll(model, payloads[..|payloads| - 1]), TranslateAll(model, payloads);
              Names(before.(id := m.id, model := m.model), m)
    decreases |payloads|
  {
    hide FeedBody, StripMsgPrefix, ChunkId;
    if payloads == [] {
      ChunkIdIs("");
    } else {
      var m, p := TranslateAll(model, payloads[..|payloads| - 1]), payloads[|payloads| - 1];
      ChunksAreNamed(model, payloads[..|payloads| - 1]);
      if p.Decoded? {
        BodyNames(NoteInfo(m, p.info), p.body);
        assert NoteInfo(m, p.info) == m.(id := NoteInfo(m, p.info).id, model := NoteInfo(m, p.info).model);
        if p.info.Some? { ChunkIdIs(p.info.value.id); }
      }
    }
  }

  // ----- The round trip -----

  /** The canonical form of a Chat finish reason. */
  function Canonical(finish: string, usedTools: bool): string {
    if finish == "length" then "length"
    else if usedTools || finish == "tool_calls" || finish == "function_call" then "tool_calls"
    else "stop"
  }

  ghost predicate SameTools(u: Meaning, v: Meaning) {
    |u.tools| == |v.tools|
    && forall i :: 0 <= i < |u.tools| ==>
         v.tools[i] == Tool(i, "toolu_" + Bare(u.tools[i].id), u.tools[i].name, u.tools[i].args)
  }

  /** Chat to Messages and back: for every sequence of Chat frames, the same text, the
      same reasoning, the same tool calls renumbered by first appearance; one finish
      chunk with the canonical reason and the end marker if the stream was complete,
      neither if it was not. */
  lemma {:induction false} RoundTrip(model: string, usage: Usage, frames: seq<Frame>, latest: Usage, back: string)
    ensures var u := ReadFrames(frames);
            var m := Translate(back, Finish(FeedAll(New(model, usage), frames), latest).trace);
            var v := ReadFrames(m.out);
            && v.text == u.text && v.reasoning == u.reasoning && SameTools(u, v)
            && FinishChunks(m.out) == (if Complete(u) then 1 else 0)
            && m.emitDone == Complete(u)
            && v.finish == (if Complete(u) then Canonical(u.finish, u.tools != []) else "")
  {
    hide ReadTrace, ReadFrames, Finish, FeedAll, Translate, FinishChunks;
    TraceIsGrammatical(model, usage, frames, latest);
    var trace := Finish(FeedAll(New(model, usage), frames), latest).trace;
    GrammaticalStreamsKeepContent(back, trace);
  }
}
