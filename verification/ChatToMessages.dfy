/** Chat frames to Messages events: the translator as a function on its state and trace,
    and as an object. */
module ChatToMessages {
  import opened ChatStream
  import opened Ordering
  import opened Strings

  datatype Event =
    | MessageStart(id: string, model: string, input: int, output: int)
    | TextStart(index: nat)
    | ThinkingStart(index: nat)
    | ToolStart(index: nat, id: string, name: string)
    | TextDelta(index: nat, text: string)
    | ThinkingDelta(index: nat, text: string)
    | JsonDelta(index: nat, text: string)
    | BlockStop(index: nat)
    | MessageDelta(stopReason: string, output: int)
    | MessageStop

  // ----- Identifiers and reasons -----

  function Alphanumeric(s: string): string {
    if s == "" then ""
    else (if 'a' <= s[0] <= 'z' || 'A' <= s[0] <= 'Z' || '0' <= s[0] <= '9' then [s[0]] else "") + Alphanumeric(s[1..])
  }

  function MessageId(id: string): string {
    var orig := if HasPrefix(id, "chatcmpl-") then id[9..] else if HasPrefix(id, "msg_") then id[4..] else id;
    if Alphanumeric(orig) == "" then "msg_mockprobe1234567890" else "msg_" + Alphanumeric(orig)
  }

  function ToolUseId(id: string): string {
    if id == "" then "toolu_mock"
    else if HasPrefix(id, "toolu_") then id
    else "toolu_" + TrimPrefix(TrimPrefix(id, "call_"), "toolu-")
  }

  function StopReason(finish: string): string {
    if finish == "length" then "max_tokens"
    else if finish == "tool_calls" || finish == "function_call" then "tool_use"
    else "end_turn"
  }

  // ----- The translator as a function on its state and trace -----

  datatype Machine = Machine(model: string, usage: Usage, started: bool, finished: bool, lastId: string,
                             sawDone: bool, finishReason: string, active: set<nat>, toolBlock: map<int, nat>,
                             next: nat, thinkingBlock: int, textBlock: int, trace: seq<Event>)

  function New(model: string, usage: Usage): Machine {
    Machine(model, usage, false, false, "", false, "", {}, map[], 0, -1, -1, [])
  }

  function Emit(m: Machine, ev: Event): Machine {
    m.(trace := m.trace + [ev])
  }

  function StartMessage(m: Machine): Machine {
    if m.started then m
    else Emit(m.(started := true), MessageStart(MessageId(m.lastId), m.model, m.usage.input, m.usage.output))
  }

  function EnsureThinking(m: Machine): Machine {
    if m.thinkingBlock >= 0 then m
    else Emit(m.(next := m.next + 1, active := m.active + {m.next}, thinkingBlock := m.next), ThinkingStart(m.next))
  }

  function EnsureText(m: Machine): Machine {
    if m.textBlock >= 0 then m
    else Emit(m.(next := m.next + 1, active := m.active + {m.next}, textBlock := m.next), TextStart(m.next))
  }

  function FeedThinking(m: Machine, text: string): Machine {
    if text == "" then m
    else var m := EnsureThinking(StartMessage(m)); Emit(m, ThinkingDelta(m.thinkingBlock, text))
  }

  function FeedText(m: Machine, text: string): Machine {
    if text == "" then m
    else var m := EnsureText(StartMessage(m)); Emit(m, TextDelta(m.textBlock, text))
  }

  /** The block of a tool call, opened at its first fragment. */
  function EnsureTool(m: Machine, d: ToolDelta): Machine {
    var m := if d.index in m.toolBlock then m else m.(toolBlock := m.toolBlock[d.index := m.next], next := m.next + 1);
    var b := m.toolBlock[d.index];
    if b in m.active then m
    else Emit(m.(active := m.active + {b}), ToolStart(b, ToolUseId(d.id), d.name))
  }

  function FeedTool(m: Machine, d: ToolDelta): Machine {
    var m := EnsureTool(m, d);
    if d.args == "" then m else Emit(m, JsonDelta(m.toolBlock[d.index], d.args))
  }

  function FeedTools(m: Machine, ds: seq<ToolDelta>): Machine
    decreases |ds|
  {
    if ds == [] then m else FeedTool(FeedTools(m, ds[..|ds| - 1]), ds[|ds| - 1])
  }

  function FeedChoice(m: Machine, c: Choice): Machine {
    var m := FeedText(FeedThinking(m, Thinking(c)), c.content);
    var m := if c.tools == [] then m else FeedTools(StartMessage(m), c.tools);
    if c.finish == "" then m else m.(finishReason := c.finish)
  }

  function SeeUsage(m: Machine, u: Usage): Machine {
    m.(usage := Usage(if u.input > 0 then u.input else m.usage.input,
                      if u.output > 0 then u.output else m.usage.output))
  }

  function Feed(m: Machine, f: Frame): Machine {
    if m.finished then m
    else
      match f
      case Done => m.(sawDone := true)
      case Garbled(u) => SeeUsage(m, u)
      case ErrorObject(_) => m
      case Chunk(id, u, choices) =>
        var m := SeeUsage(m, u);
        var m := if id == "" then m else m.(lastId := id);
        if choices == [] then m else FeedChoice(m, choices[0])
  }

  /** The active blocks in ascending order. */
  ghost function InOrder(active: set<nat>): (r: seq<nat>)
    ensures r == Sorted(active)
  {
    var r := Sorted(active);
    assert forall i :: 0 <= i < |r| ==> r[i] in r;
    assert forall x: int :: x in active ==> x >= 0;
    r
  }

  ghost function CloseBlocks(m: Machine): Machine {
    var r := InOrder(m.active);
    m.(active := {}, trace := m.trace + seq(|r|, i requires 0 <= i < |r| => BlockStop(r[i])))
  }

  ghost function Finalize(m: Machine, stopReason: string): Machine {
    var m := StartMessage(m);
    var m := if m.active == {} then EnsureText(m) else m;
    Emit(Emit(CloseBlocks(m), MessageDelta(stopReason, m.usage.output)), MessageStop)
  }

  ghost function Finish(m: Machine, latest: Usage): Machine {
    if m.finished then m
    else
      var m := m.(finished := true, usage := latest);
      if m.finishReason != "" || m.sawDone then Finalize(m, StopReason(m.finishReason))
      else if m.started then CloseBlocks(m)
      else m
  }

  function FeedAll(m: Machine, frames: seq<Frame>): Machine
    decreases |frames|
  {
    if frames == [] then m else Feed(FeedAll(m, frames[..|frames| - 1]), frames[|frames| - 1])
  }

  // ----- The translator as an object -----

  class Stream {
    var model: string
    var usage: Usage
    var started: bool
    var finished: bool
    var lastMessageID: string
    var sawDone: bool
    var finishReason: string
    var activeBlocks: set<nat>
    var oaiToAnthropicIndex: map<int, nat>
    var nextBlockIndex: nat
    var thinkingBlockIndex: int
    var textBlockIndex: int
    ghost var trace: seq<Event>

    constructor (model: string, initialUsage: Usage)
      ensures Value() == New(model, initialUsage)
    {
      this.model, usage := model, initialUsage;
      started, finished, sawDone, lastMessageID, finishReason := false, false, false, "", "";
      activeBlocks, oaiToAnthropicIndex, nextBlockIndex := {}, map[], 0;
      thinkingBlockIndex, textBlockIndex := -1, -1;
      trace := [];
    }

    ghost function Value(): Machine
      reads this
    {
      Machine(model, usage, started, finished, lastMessageID, sawDone, finishReason, activeBlocks,
              oaiToAnthropicIndex, nextBlockIndex, thinkingBlockIndex, textBlockIndex, trace)
    }

    method Append(events: seq<Event>, ev: Event) returns (more: seq<Event>)
      modifies this
      ensures Value() == Emit(old(Value()), ev) && more == events + [ev]
    {
      trace := trace + [ev];
      more := events + [ev];
    }

    method EnsureStarted(events: seq<Event>, ghost base: seq<Event>) returns (more: seq<Event>)
      requires trace == base + events
      modifies this
      ensures Value() == StartMessage(old(Value()))
      ensures trace == base + more
    {
      more := events;
      if started {
        return;
      }
      started := true;
      more := Append(events, MessageStart(MessageId(lastMessageID), model, usage.input, usage.output));
    }

    method EnsureTextBlock(events: seq<Event>, ghost base: seq<Event>) returns (more: seq<Event>)
      requires trace == base + events
      modifies this
      ensures Value() == EnsureText(old(Value()))
      ensures trace == base + more
    {
      more := events;
      if textBlockIndex >= 0 {
        return;
      }
      var idx := nextBlockIndex;
      nextBlockIndex := nextBlockIndex + 1;
      activeBlocks := activeBlocks + {idx};
      textBlockIndex := idx;
      more := Append(events, TextStart(idx));
    }

    method EnsureThinkingBlock(events: seq<Event>, ghost base: seq<Event>) returns (more: seq<Event>)
      requires trace == base + events
      modifies this
      ensures Value() == EnsureThinking(old(Value()))
      ensures trace == base + more
    {
      more := events;
      if thinkingBlockIndex >= 0 {
        return;
      }
      var idx := nextBlockIndex;
      nextBlockIndex := nextBlockIndex + 1;
      activeBlocks := activeBlocks + {idx};
      thinkingBlockIndex := idx;
      more := Append(events, ThinkingStart(idx));
    }

    method FeedToolCall(events: seq<Event>, tc: ToolDelta, ghost base: seq<Event>) returns (more: seq<Event>)
      requires trace == base + events
      modifies this
      ensures Value() == FeedTool(old(Value()), tc)
      ensures trace == base + more
    {
      hide ToolUseId;
      more := events;
      if tc.index !in oaiToAnthropicIndex {
        oaiToAnthropicIndex := oaiToAnthropicIndex[tc.index := nextBlockIndex];
        nextBlockIndex := nextBlockIndex + 1;
      }
      var idx := oaiToAnthropicIndex[tc.index];
      if idx !in activeBlocks {
        activeBlocks := activeBlocks + {idx};
        more := Append(more, ToolStart(idx, ToolUseId(tc.id), tc.name));
      }
      if tc.args != "" {
        more := Append(more, JsonDelta(idx, tc.args));
      }
    }

    method FeedThinkingText(events: seq<Event>, text: string, ghost base: seq<Event>) returns (more: seq<Event>)
      requires trace == base + events
      modifies this
      ensures Value() == FeedThinking(old(Value()), text)
      ensures trace == base + more
    {
      more := events;
      if text != "" {
        more := EnsureStarted(more, base);
        more := EnsureThinkingBlock(more, base);
        more := Append(more, ThinkingDelta(thinkingBlockIndex, text));
      }
    }

    method FeedContent(events: seq<Event>, text: string, ghost base: seq<Event>) returns (more: seq<Event>)
      requires trace == base + events
      modifies this
      ensures Value() == FeedText(old(Value()), text)
      ensures trace == base + more
    {
      more := events;
      if text != "" {
        more := EnsureStarted(more, base);
        more := EnsureTextBlock(more, base);
        more := Append(more, TextDelta(textBlockIndex, text));
      }
    }

    method FeedDelta(choice: Choice) returns (events: seq<Event>)
      modifies this
      ensures Value() == FeedChoice(old(Value()), choice)
      ensures trace == old(trace) + events
    {
      ghost var base, m := trace, Value();
      assert trace == base + [];
      events := FeedThinkingText([], Thinking(choice), base);
      ghost var m1 := Value();
      events := FeedContent(events, choice.content, base);
      ghost var m2 := Value();
      assert m2 == FeedText(FeedThinking(m, Thinking(choice)), choice.content);
      if |choice.tools| > 0 {
        events := FeedToolCalls(events, choice.tools, base);
      }
      if choice.finish != "" {
        finishReason := choice.finish;
      }
    }

    method FeedToolCalls(events: seq<Event>, calls: seq<ToolDelta>, ghost base: seq<Event>) returns (more: seq<Event>)
      requires trace == base + events
      modifies this
      ensures Value() == FeedTools(StartMessage(old(Value())), calls)
      ensures trace == base + more
    {
      more := EnsureStarted(events, base);
      ghost var m := Value();
      for i := 0 to |calls|
        invariant Value() == FeedTools(m, calls[..i])
        invariant trace == base + more
      {
        assert calls[..i + 1][..i] == calls[..i];
        more := FeedToolCall(more, calls[i], base);
      }
      assert calls[..|calls|] == calls;
    }

    method FeedJSON(frame: Frame) returns (events: seq<Event>)
      modifies this
      ensures Value() == Feed(old(Value()), frame)
      ensures trace == old(trace) + events
    {
      events := [];
      if finished {
        return;
      }
      match frame
      case Done => sawDone := true;
      case Garbled(u) => NoteUsage(u);
      case ErrorObject(_) =>
      case Chunk(id, u, choices) =>
        NoteUsage(u);
        if id != "" {
          lastMessageID := id;
        }
        if |choices| > 0 {
          events := FeedDelta(choices[0]);
        }
    }

    method NoteUsage(u: Usage)
      modifies this
      ensures Value() == SeeUsage(old(Value()), u)
    {
      if u.input > 0 {
        usage := usage.(input := u.input);
      }
      if u.output > 0 {
        usage := usage.(output := u.output);
      }
    }

    method CloseOpenBlocks(events: seq<Event>, ghost base: seq<Event>) returns (more: seq<Event>)
      requires trace == base + events
      modifies this
      ensures Value() == CloseBlocks(old(Value()))
      ensures trace == base + more
    {
      hide Sorted;
      ghost var order := InOrder(activeBlocks);
      var indices: seq<nat> := SortSet(activeBlocks);
      more := events;
      ghost var stops := seq(|indices|, i requires 0 <= i < |indices| => BlockStop(indices[i]));
      for i := 0 to |indices|
        invariant Value() == old(Value()).(trace := old(trace) + stops[..i])
        invariant more == events + stops[..i]
      {
        more := Append(more, BlockStop(indices[i]));
        assert stops[..i + 1] == stops[..i] + [BlockStop(indices[i])];
      }
      assert stops[..|indices|] == stops;
      activeBlocks := {};
    }

    method FinalizeSuccess(stopReason: string) returns (events: seq<Event>)
      modifies this
      ensures Value() == Finalize(old(Value()), stopReason)
      ensures trace == old(trace) + events
    {
      hide Sorted, StartMessage, EnsureText;
      ghost var base := trace;
      assert trace == base + [];
      events := EnsureStarted([], base);
      if |activeBlocks| == 0 {
        events := EnsureTextBlock(events, base);
      }
      events := CloseOpenBlocks(events, base);
      events := Append(events, MessageDelta(stopReason, usage.output));
      events := Append(events, MessageStop);
    }

    method FinishStream(latestUsage: Usage) returns (events: seq<Event>, completed: bool)
      modifies this
      ensures Value() == Finish(old(Value()), latestUsage)
      ensures trace == old(trace) + events
      ensures completed == (!old(finished) && (old(finishReason) != "" || old(sawDone)))
    {
      events, completed := [], false;
      ghost var base := trace;
      if finished {
        return;
      }
      finished := true;
      usage := latestUsage;
      if finishReason != "" || sawDone {
        completed := true;
        events := FinalizeSuccess(StopReason(finishReason));
      } else if started {
        events := CloseOpenBlocks(events, base);
      }
    }
  }
}
