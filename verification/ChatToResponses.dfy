/** Chat frames to Responses events: the translator as a function on its state and trace,
    and as an object. */
module ChatToResponses {
  import C = ChatStream
  import opened Options
  import opened Ordering
  import opened Strings
  import opened ToolNames

  datatype Usage = Usage(input: int, output: int, cached: int, cacheCreation: int)

  /** One data payload: the end marker, a payload whose content does not decode (its
      usage may), or a decoded chunk. */
  datatype Frame =
    | Done
    | Garbled(usage: Usage)
    | Chunk(id: string, model: string, usage: Usage, choices: seq<C.Choice>)

  /** An output item. A custom call carries the argument text its input is taken from. */
  datatype Item =
    | ReasoningItem(text: string)
    | MessageItem(text: string)
    | FunctionItem(callId: string, namespace: string, name: string, args: string)
    | CustomItem(callId: string, namespace: string, name: string, args: string)

  datatype Event =
    | Created(id: string, model: string)
    | InProgress(id: string, model: string)
    | ItemAdded(index: int, item: Item)
    | PartAdded(index: int)
    | TextDelta(index: int, text: string)
    | ReasoningDelta(index: int, text: string)
    | ArgsDelta(index: int, callId: string, text: string)
    | TextDone(index: int, text: string)
    | ReasoningDone(index: int, text: string)
    | PartDone(index: int, text: string)
    | ArgsDone(index: int, callId: string, text: string)
    | ItemDone(index: int, item: Item)
    | ResponseDone(output: seq<Item>, usage: Usage)
    | ResponseCompleted(output: seq<Item>, usage: Usage)

  datatype Call = Call(callId: string, namespace: string, name: string, args: string, index: int,
                       added: bool, custom: bool)

  /** The tool name mapper, if the request had one, and the tools registered as custom. */
  datatype Names = Names(mapper: Option<Mapper>, custom: set<string>)

  datatype Machine = Machine(names: Names, model: string, usage: Usage, started: bool, finished: bool,
                             lastId: string, lastModel: string, text: string, reasoning: string,
                             messageAdded: bool, textIndex: int, reasoningAdded: bool, reasoningIndex: int,
                             calls: map<int, Call>, next: nat, trace: seq<Event>)

  function New(names: Names, model: string, usage: Usage): Machine {
    Machine(names, model, usage, false, false, "", "", "", "", false, -1, false, -1, map[], 0, [])
  }

  function Emit(m: Machine, ev: Event): Machine { m.(trace := m.trace + [ev]) }

  // ----- Identifiers and names -----

  function ResponsesId(id: string, prefix: string): string {
    if HasPrefix(id, "chatcmpl-") then prefix + id[9..]
    else if id == "" then prefix + "mock"
    else if HasPrefix(id, prefix) then id else prefix + id
  }

  function IntDecimal(i: int): string { if i < 0 then "-" + Decimal(-i) else Decimal(i) }

  function CallId(m: Machine, d: C.ToolDelta): string {
    if d.id != "" then d.id else "call_" + ResponsesId(m.lastId, "msg_") + "_" + IntDecimal(d.index)
  }

  function RestoreName(names: Names, name: string): Pair {
    if names.mapper.Some? then Restored(names.mapper.value, name) else SplitName(name)
  }

  predicate IsCustom(names: Names, name: string) {
    name == "apply_patch" || (names.mapper.Some? && name in names.custom)
  }

  // ----- Frames -----

  function Latest(kept: int, seen: int): int { if seen > 0 then seen else kept }

  function ApplyUsage(m: Machine, u: Usage): Machine {
    m.(usage := Usage(Latest(m.usage.input, u.input), Latest(m.usage.output, u.output),
                      Latest(m.usage.cached, u.cached), Latest(m.usage.cacheCreation, u.cacheCreation)))
  }

  function ModelName(m: Machine): string { if m.lastModel == "" then m.model else m.lastModel }

  function Start(m: Machine): Machine {
    if m.started then m
    else
      var id := ResponsesId(m.lastId, "resp_");
      Emit(Emit(m.(started := true), Created(id, ModelName(m))), InProgress(id, ModelName(m)))
  }

  function OpenReasoning(m: Machine): Machine {
    if m.reasoningAdded then m
    else Emit(Emit(m.(reasoningAdded := true, reasoningIndex := m.next, next := m.next + 1),
                   ItemAdded(m.next, ReasoningItem(""))), PartAdded(m.next))
  }

  function FeedReasoning(m: Machine, text: string): Machine {
    if text == "" then m
    else
      var m := OpenReasoning(m);
      Emit(m.(reasoning := m.reasoning + text), ReasoningDelta(m.reasoningIndex, text))
  }

  function OpenText(m: Machine): Machine {
    if m.messageAdded then m
    else Emit(Emit(m.(messageAdded := true, textIndex := m.next, next := m.next + 1),
                   ItemAdded(m.next, MessageItem(""))), PartAdded(m.next))
  }

  function FeedText(m: Machine, text: string): Machine {
    if text == "" then m
    else
      var m := OpenText(m);
      Emit(m.(text := m.text + text), TextDelta(m.textIndex, text))
  }

  function OpenCall(m: Machine, d: C.ToolDelta): Machine {
    if d.index in m.calls then m
    else m.(calls := m.calls[d.index := Call(CallId(m, d), "", d.name, "", m.next, false, false)], next := m.next + 1)
  }

  /** What a fragment says about its call: identifiers and name are taken if still
      missing, the name is restored as long as it has no namespace. */
  function Identify(names: Names, c: Call, d: C.ToolDelta): Call {
    var c := if d.id != "" && c.callId == "" then c.(callId := d.id) else c;
    var c := if d.name != "" && c.name == "" then c.(name := d.name) else c;
    var p := if c.namespace == "" then RestoreName(names, c.name) else Pair(c.namespace, c.name);
    c.(namespace := p.namespace, name := p.name, custom := c.custom || IsCustom(names, p.name))
  }

  function CallItem(c: Call): Item {
    if c.custom then CustomItem(c.callId, c.namespace, c.name, c.args)
    else FunctionItem(c.callId, c.namespace, c.name, c.args)
  }

  /** A call is announced once it has a name. */
  function Announce(m: Machine, c: Call): Machine {
    if c.name != "" && !c.added then Emit(m, ItemAdded(c.index, CallItem(c.(args := "")))) else m
  }

  function Fragment(m: Machine, d: C.ToolDelta): Machine
    requires d.index in m.calls
  {
    var c := Identify(m.names, m.calls[d.index], d);
    var c' := c.(added := c.added || c.name != "", args := c.args + d.args);
    var m := Announce(m, c).(calls := m.calls[d.index := c']);
    if c'.custom then m else Emit(m, ArgsDelta(c'.index, c'.callId, d.args))
  }

  function FeedCall(m: Machine, d: C.ToolDelta): Machine { Fragment(OpenCall(m, d), d) }

  function FeedCalls(m: Machine, ds: seq<C.ToolDelta>): Machine
    decreases |ds|
  {
    if ds == [] then m else FeedCall(FeedCalls(m, ds[..|ds| - 1]), ds[|ds| - 1])
  }

  function Reasoning(c: C.Choice): string { if c.reasoningContent != "" then c.reasoningContent else c.reasoning }

  function FeedChoice(m: Machine, c: C.Choice): Machine {
    FeedCalls(FeedText(FeedReasoning(m, Reasoning(c)), c.content), c.tools)
  }

  function See(m: Machine, id: string, model: string): Machine {
    m.(lastId := if id != "" then id else m.lastId, lastModel := if model != "" then model else m.lastModel)
  }

  function Feed(m: Machine, f: Frame): Machine {
    if m.finished then m
    else
      match f
      case Done => m
      case Garbled(u) => ApplyUsage(m, u)
      case Chunk(id, model, u, choices) =>
        var m := Start(See(ApplyUsage(m, u), id, model));
        if choices == [] then m else FeedChoice(m, choices[0])
  }

  function FeedAll(m: Machine, frames: seq<Frame>): Machine
    decreases |frames|
  {
    if frames == [] then m else Feed(FeedAll(m, frames[..|frames| - 1]), frames[|frames| - 1])
  }

  // ----- Finish -----

  function CloseReasoning(m: Machine): Machine {
    if !m.reasoningAdded then m
    else
      var i, t := m.reasoningIndex, m.reasoning;
      Emit(Emit(Emit(m, ReasoningDone(i, t)), PartDone(i, t)), ItemDone(i, ReasoningItem(t)))
  }

  function CloseText(m: Machine): Machine {
    if !m.messageAdded then m
    else
      var i, t := m.textIndex, m.text;
      Emit(Emit(Emit(m, TextDone(i, t)), PartDone(i, t)), ItemDone(i, MessageItem(t)))
  }

  function CloseCall(m: Machine, c: Call): Machine {
    if c.custom then Emit(m, ItemDone(c.index, CallItem(c)))
    else Emit(Emit(m, ArgsDone(c.index, c.callId, c.args)), ItemDone(c.index, CallItem(c)))
  }

  function CloseCalls(m: Machine, cs: seq<Call>): Machine
    decreases |cs|
  {
    if cs == [] then m else CloseCall(CloseCalls(m, cs[..|cs| - 1]), cs[|cs| - 1])
  }

  /** The calls by ascending upstream index. */
  ghost function CallsInOrder(calls: map<int, Call>): seq<Call> {
    var r := Sorted(calls.Keys);
    seq(|r|, i requires 0 <= i < |r| => assert r[i] in r; calls[r[i]])
  }

  function Items(cs: seq<Call>): seq<Item> {
    seq(|cs|, i requires 0 <= i < |cs| => CallItem(cs[i]))
  }

  ghost function Outputs(m: Machine): seq<Item> {
    (if m.reasoningAdded then [ReasoningItem(m.reasoning)] else [])
    + (if m.messageAdded then [MessageItem(m.text)] else [])
    + Items(CallsInOrder(m.calls))
  }

  ghost function Finish(m: Machine, latest: Usage): Machine {
    if m.finished then m
    else
      var m := ApplyUsage(m.(finished := true), latest);
      if !m.started then m
      else
        var closed := CloseCalls(CloseText(CloseReasoning(m)), CallsInOrder(m.calls));
        Emit(Emit(closed, ResponseDone(Outputs(m), m.usage)), ResponseCompleted(Outputs(m), m.usage))
  }

  // ----- The translator as an object -----

  class ResponsesStream {
    const names: Names
    const model: string
    var usage: Usage
    var started: bool
    var finished: bool
    var lastResponseID: string
    var lastModelName: string
    var fullText: string
    var fullReasoning: string
    var messageAdded: bool
    var textOutputIndex: int
    var currentOutputIndex: nat
    var reasoningAdded: bool
    var reasoningOutputIndex: int
    var localToolCalls: map<int, Call>
    ghost var trace: seq<Event>

    constructor (model: string, names: Names, initialUsage: Usage)
      ensures Value() == New(names, model, initialUsage)
    {
      this.model, this.names, usage := model, names, initialUsage;
      started, finished, lastResponseID, lastModelName := false, false, "", "";
      fullText, fullReasoning, messageAdded, reasoningAdded := "", "", false, false;
      textOutputIndex, reasoningOutputIndex, currentOutputIndex := -1, -1, 0;
      localToolCalls, trace := map[], [];
    }

    ghost function Value(): Machine
      reads this
    {
      Machine(names, model, usage, started, finished, lastResponseID, lastModelName, fullText, fullReasoning,
              messageAdded, textOutputIndex, reasoningAdded, reasoningOutputIndex, localToolCalls,
              currentOutputIndex, trace)
    }

    method Append(events: seq<Event>, ev: Event) returns (more: seq<Event>)
      modifies `trace
      ensures Value() == Emit(old(Value()), ev) && more == events + [ev]
    {
      trace := trace + [ev];
      more := events + [ev];
    }

    method NoteUsage(u: Usage)
      modifies this
      ensures Value() == ApplyUsage(old(Value()), u)
    {
      if u.input > 0 {
        usage := usage.(input := u.input);
      }
      if u.output > 0 {
        usage := usage.(output := u.output);
      }
      if u.cached > 0 {
        usage := usage.(cached := u.cached);
      }
      if u.cacheCreation > 0 {
        usage := usage.(cacheCreation := u.cacheCreation);
      }
    }

    method EnsureStarted() returns (events: seq<Event>)
      modifies this
      ensures Value() == Start(old(Value()))
      ensures trace == old(trace) + events
    {
      events := [];
      if !started {
        started := true;
        var id := ResponsesId(lastResponseID, "resp_");
        var modelName := if lastModelName == "" then model else lastModelName;
        events := Append(events, Created(id, modelName));
        events := Append(events, InProgress(id, modelName));
      }
    }

    method SendReasoningDelta(events: seq<Event>, delta: string, ghost base: seq<Event>) returns (more: seq<Event>)
      requires trace == base + events && delta != ""
      modifies this
      ensures Value() == FeedReasoning(old(Value()), delta)
      ensures trace == base + more
    {
      more := events;
      if !reasoningAdded {
        reasoningAdded := true;
        reasoningOutputIndex := currentOutputIndex;
        currentOutputIndex := currentOutputIndex + 1;
        more := Append(more, ItemAdded(reasoningOutputIndex, ReasoningItem("")));
        more := Append(more, PartAdded(reasoningOutputIndex));
      }
      more := Append(more, ReasoningDelta(reasoningOutputIndex, delta));
      fullReasoning := fullReasoning + delta;
    }

    method SendPlainText(events: seq<Event>, text: string, ghost base: seq<Event>) returns (more: seq<Event>)
      requires trace == base + events && text != ""
      modifies this
      ensures Value() == FeedText(old(Value()), text)
      ensures trace == base + more
    {
      more := events;
      if !messageAdded {
        messageAdded := true;
        textOutputIndex := currentOutputIndex;
        more := Append(more, ItemAdded(textOutputIndex, MessageItem("")));
        more := Append(more, PartAdded(textOutputIndex));
        currentOutputIndex := currentOutputIndex + 1;
      }
      more := Append(more, TextDelta(textOutputIndex, text));
      fullText := fullText + text;
    }

    method EnsureCall(tc: C.ToolDelta)
      modifies this
      ensures Value() == OpenCall(old(Value()), tc)
    {
      if tc.index !in localToolCalls {
        var callID := tc.id;
        if callID == "" {
          callID := "call_" + ResponsesId(lastResponseID, "msg_") + "_" + IntDecimal(tc.index);
        }
        localToolCalls := localToolCalls[tc.index := Call(callID, "", tc.name, "", currentOutputIndex, false, false)];
        currentOutputIndex := currentOutputIndex + 1;
      }
    }

    method FeedToolCall(events: seq<Event>, tc: C.ToolDelta, ghost base: seq<Event>) returns (more: seq<Event>)
      requires trace == base + events
      modifies this
      ensures Value() == FeedCall(old(Value()), tc)
      ensures trace == base + more
    {
      more := events;
      EnsureCall(tc);
      var c := Identify(names, localToolCalls[tc.index], tc);
      if c.name != "" && !c.added {
        c := c.(added := true);
        more := Append(more, ItemAdded(c.index, CallItem(c.(args := ""))));
      }
      c := c.(args := c.args + tc.args);
      localToolCalls := localToolCalls[tc.index := c];
      if !c.custom {
        more := Append(more, ArgsDelta(c.index, c.callId, tc.args));
      }
    }

    method FeedDelta(events: seq<Event>, choice: C.Choice, ghost base: seq<Event>) returns (more: seq<Event>)
      requires trace == base + events
      modifies this
      ensures Value() == FeedChoice(old(Value()), choice)
      ensures trace == base + more
    {
      hide FeedCalls, OpenReasoning, OpenText;
      more := events;
      var reasoning := if choice.reasoningContent != "" then choice.reasoningContent else choice.reasoning;
      if reasoning != "" {
        more := SendReasoningDelta(more, reasoning, base);
      }
      if choice.content != "" {
        more := SendPlainText(more, choice.content, base);
      }
      more := FeedToolCalls(more, choice.tools, base);
    }

    method FeedToolCalls(events: seq<Event>, calls: seq<C.ToolDelta>, ghost base: seq<Event>) returns (more: seq<Event>)
      requires trace == base + events
      modifies this
      ensures Value() == FeedCalls(old(Value()), calls)
      ensures trace == base + more
    {
      hide FeedCall;
      more := events;
      ghost var m := Value();
      for i := 0 to |calls|
        invariant Value() == FeedCalls(m, calls[..i])
        invariant trace == base + more
      {
        assert calls[..i + 1][..i] == calls[..i];
        more := FeedToolCall(more, calls[i], base);
      }
      assert calls[..|calls|] == calls;
    }

    method FeedJSON(frame: Frame) returns (events: seq<Event>)
      modifies this
      ensures Value() == Feed(old(Value()), frame)
      ensures trace == old(trace) + events
    {
      events := [];
      if finished {
        return;
      }
      match frame
      case Done =>
      case Garbled(u) => NoteUsage(u);
      case Chunk(id, chunkModel, u, choices) =>
        ghost var base := trace;
        NoteUsage(u);
        if id != "" {
          lastResponseID := id;
        }
        if chunkModel != "" {
          lastModelName := chunkModel;
        }
        events := EnsureStarted();
        if |choices| > 0 {
          events := FeedDelta(events, choices[0], base);
        }
    }

    method FinishReasoning(events: seq<Event>, ghost base: seq<Event>) returns (more: seq<Event>)
      requires trace == base + events
      modifies `trace
      ensures Value() == CloseReasoning(old(Value()))
      ensures trace == base + more
    {
      more := events;
      if reasoningAdded {
        more := Append(more, ReasoningDone(reasoningOutputIndex, fullReasoning));
        more := Append(more, PartDone(reasoningOutputIndex, fullReasoning));
        more := Append(more, ItemDone(reasoningOutputIndex, ReasoningItem(fullReasoning)));
      }
    }

    method FinishText(events: seq<Event>, ghost base: seq<Event>) returns (more: seq<Event>)
      requires trace == base + events
      modifies `trace
      ensures Value() == CloseText(old(Value()))
      ensures trace == base + more
    {
      more := events;
      if messageAdded {
        more := Append(more, TextDone(textOutputIndex, fullText));
        more := Append(more, PartDone(textOutputIndex, fullText));
        more := Append(more, ItemDone(textOutputIndex, MessageItem(fullText)));
      }
    }

    method FinishCall(events: seq<Event>, tc: Call, ghost base: seq<Event>) returns (more: seq<Event>)
      requires trace == base + events
      modifies `trace
      ensures Value() == CloseCall(old(Value()), tc)
      ensures trace == base + more
    {
      more := events;
      if !tc.custom {
        more := Append(more, ArgsDone(tc.index, tc.callId, tc.args));
      }
      more := Append(more, ItemDone(tc.index, CallItem(tc)));
    }

    method FinishCalls(events: seq<Event>, ghost base: seq<Event>) returns (more: seq<Event>, items: seq<Item>)
      requires trace == base + events
      modifies `trace
      ensures Value() == CloseCalls(old(Value()), CallsInOrder(localToolCalls))
      ensures trace == base + more && items == Items(CallsInOrder(localToolCalls))
    {
      hide CallItem, CloseCall, Sorted;
      more, items := events, [];
      var indices := SortSet(localToolCalls.Keys);
      ghost var cs := CallsInOrder(localToolCalls);
      ghost var m := Value();
      for i := 0 to |indices|
        invariant Value() == CloseCalls(m, cs[..i])
        invariant trace == base + more && items == Items(cs)[..i]
      {
        assert indices[i] in indices;
        var tc := localToolCalls[indices[i]];
        assert cs[..i + 1][..i] == cs[..i] && cs[..i + 1][i] == cs[i] == tc;
        more := FinishCall(more, tc, base);
        items := items + [CallItem(tc)];
      }
      assert cs[..|cs|] == cs;
    }

    method FinishStream(latestUsage: Usage) returns (events: seq<Event>)
      modifies this
      ensures Value() == Finish(old(Value()), latestUsage)
      ensures trace == old(trace) + events
    {
      hide CloseReasoning, CloseText, CloseCalls, CallsInOrder, Items;
      events := [];
      if finished {
        return;
      }
      finished := true;
      NoteUsage(latestUsage);
      if !started {
        return;
      }
      ghost var base := trace;
      ghost var m := Value();
      events := FinishReasoning(events, base);
      events := FinishText(events, base);
      var outputs := [];
      if reasoningAdded {
        outputs := outputs + [ReasoningItem(fullReasoning)];
      }
      if messageAdded {
        outputs := outputs + [MessageItem(fullText)];
      }
      var items;
      events, items := FinishCalls(events, base);
      outputs := outputs + items;
      assert outputs == Outputs(m);
      events := Append(events, ResponseDone(outputs, usage));
      events := Append(events, ResponseCompleted(outputs, usage));
    }
  }
}
