/** A reader for Messages event streams that accepts exactly the grammatical ones and
    collects their content, and the proof that it accepts every trace of the Chat
    translator with the content of the Chat frames. */
module MessagesGrammar {
  import opened Options
  import opened ChatStream
  import opened ChatToMessages
  import opened Ordering
  import opened Search
  import opened Strings

  datatype Kind = Text | Reasoning | ToolUse

  datatype Block = Block(kind: Kind, open: bool)

  datatype DocTool = DocTool(block: nat, id: string, name: string, args: string)

  /** What has been read: the message identifier, the blocks by index, the text and reasoning
      deltas joined in order, the tool calls in order of their start events, the stop reason. */
  datatype Doc = Doc(started: bool, id: string, blocks: seq<Block>, text: string, reasoning: string,
                     tools: seq<DocTool>, stop: Option<string>, ended: bool)

  const Blank := Doc(false, "", [], "", "", [], None, false)

  predicate Ready(d: Doc) { d.started && d.stop == None }

  predicate InBlock(d: Doc, i: nat, kind: Kind) {
    Ready(d) && i < |d.blocks| && d.blocks[i] == Block(kind, true)
  }

  predicate MayStart(d: Doc, i: nat) { Ready(d) && i == |d.blocks| }

  function DocToolPosition(tools: seq<DocTool>, block: nat): (i: nat)
    ensures i <= |tools| && (i < |tools| ==> tools[i].block == block)
    ensures forall j :: 0 <= j < i ==> tools[j].block != block
  {
    FirstAt(tools, (t: DocTool) => t.block == block)
  }

  /** message_start once and first; block indices fresh and contiguous; deltas only in
      their own open block; each block stopped once; message_delta after all blocks are
      stopped and at least one was started; message_stop last. None is a violation. */
  function Accept(d: Doc, ev: Event): Option<Doc> {
    match ev
    case MessageStart(id, _, _, _) => if d.started then None else Some(d.(started := true, id := id))
    case TextStart(i) => if MayStart(d, i) then Some(d.(blocks := d.blocks + [Block(Text, true)])) else None
    case ThinkingStart(i) => if MayStart(d, i) then Some(d.(blocks := d.blocks + [Block(Reasoning, true)])) else None
    case ToolStart(i, id, name) =>
      if MayStart(d, i)
      then Some(d.(blocks := d.blocks + [Block(ToolUse, true)], tools := d.tools + [DocTool(i, id, name, "")]))
      else None
    case TextDelta(i, t) => if InBlock(d, i, Text) then Some(d.(text := d.text + t)) else None
    case ThinkingDelta(i, t) => if InBlock(d, i, Reasoning) then Some(d.(reasoning := d.reasoning + t)) else None
    case JsonDelta(i, t) =>
      var p := DocToolPosition(d.tools, i);
      if InBlock(d, i, ToolUse) && p < |d.tools|
      then Some(d.(tools := d.tools[p := d.tools[p].(args := d.tools[p].args + t)])) else None
    case BlockStop(i) =>
      if Ready(d) && i < |d.blocks| && d.blocks[i].open
      then Some(d.(blocks := d.blocks[i := d.blocks[i].(open := false)])) else None
    case MessageDelta(reason, _) =>
      if Ready(d) && d.blocks != [] && (forall i :: 0 <= i < |d.blocks| ==> !d.blocks[i].open)
      then Some(d.(stop := Some(reason))) else None
    case MessageStop => if d.stop.Some? && !d.ended then Some(d.(ended := true)) else None
  }

  function ReadTrace(trace: seq<Event>): Option<Doc>
    decreases |trace|
  {
    if trace == [] then Some(Blank)
    else
      var d := ReadTrace(trace[..|trace| - 1]);
      if d == None then None else Accept(d.value, trace[|trace| - 1])
  }

  lemma {:induction false} ReadOneMore(trace: seq<Event>, ev: Event)
    requires ReadTrace(trace).Some?
    ensures ReadTrace(trace + [ev]) == Accept(ReadTrace(trace).value, ev)
  {
    assert (trace + [ev])[..|trace|] == trace;
  }

  // ----- The translator's state against what was read -----

  /** Block b is the only block of its kind, or there is none and b is -1. */
  ghost predicate SoleBlock(d: Doc, kind: Kind, b: int) {
    && -1 <= b < |d.blocks|
    && forall i :: 0 <= i < |d.blocks| ==> (d.blocks[i].kind == kind <==> i == b)
  }

  ghost predicate BlocksLinked(m: Machine, d: Doc) {
    && d.started == m.started && d.stop == None && !d.ended && !m.finished
    && |d.blocks| == m.next && (m.next > 0 ==> m.started)
    && (forall i :: 0 <= i < |d.blocks| ==> d.blocks[i].open)
    && (forall i: nat :: i in m.active <==> i < m.next)
    && SoleBlock(d, Text, m.textBlock) && SoleBlock(d, Reasoning, m.thinkingBlock)
  }

  ghost predicate ToolsLinked(m: Machine, d: Doc, tools: seq<Tool>) {
    && |d.tools| == |tools|
    && (forall i :: 0 <= i < |tools| ==> ToolLinked(m, d, tools[i], d.tools[i]))
    && (forall i, j :: 0 <= i < j < |tools| ==>
       tools[i].index != tools[j].index && d.tools[i].block != d.tools[j].block)
    && (forall k :: k in m.toolBlock ==> ToolPosition(tools, k) < |tools|)
  }

  /** The identifier of a call without the prefix of its protocol. */
  function Bare(id: string): string {
    if HasPrefix(id, "toolu_") then id[6..]
    else if HasPrefix(id, "call_toolu-") then id[11..]
    else if HasPrefix(id, "call_") then id[5..]
    else if HasPrefix(id, "toolu-") then id[6..]
    else if id != "" then id else "mock"
  }

  lemma {:induction false} ToolUseIdIsBare(id: string)
    ensures ToolUseId(id) == "toolu_" + Bare(id)
  {
    assert HasPrefix(id, "call_toolu-") ==> id[..5] == id[..11][..5];
    if HasPrefix(id, "toolu_") {
      assert id == id[..6] + id[6..];
    } else if HasPrefix(id, "call_") {
      assert HasPrefix(id[5..], "toolu-") <==> HasPrefix(id, "call_toolu-") by {
        assert "call_toolu-" == "call_" + "toolu-";
        if HasPrefix(id, "call_toolu-") { assert id[5..][..6] == id[..11][5..]; }
        if HasPrefix(id[5..], "toolu-") { assert id[..11] == id[..5] + id[5..][..6]; }
      }
    }
  }

  /** Two calls are announced with the same identifier if and only if their identifiers are
      the same without prefix; so two different "call_" identifiers stay different. */
  lemma {:induction false} ToolIdsCollideIff(a: string, b: string)
    ensures ToolUseId(a) == ToolUseId(b) <==> Bare(a) == Bare(b)
    ensures HasPrefix(a, "call_") && HasPrefix(b, "call_") && a != b ==>
              ToolUseId(a) != ToolUseId(b) || HasPrefix(a[5..], "toolu-") || HasPrefix(b[5..], "toolu-")
  {
    hide ToolUseId;
    ToolUseIdIsBare(a);
    ToolUseIdIsBare(b);
    assert ToolUseId(a)[6..] == Bare(a) && ToolUseId(b)[6..] == Bare(b);
    if HasPrefix(a, "call_") && HasPrefix(b, "call_") {
      assert a == a[..5] + a[5..] && b == b[..5] + b[5..];
      assert HasPrefix(a, "call_toolu-") ==> a[5..][..6] == a[..11][5..];
      assert HasPrefix(b, "call_toolu-") ==> b[5..][..6] == b[..11][5..];
      assert !HasPrefix(a, "toolu_") by { assert a[0] == 'c'; }
      assert !HasPrefix(b, "toolu_") by { assert b[0] == 'c'; }
    }
  }

  ghost predicate ToolLinked(m: Machine, d: Doc, t: Tool, dt: DocTool) {
    && dt.id == "toolu_" + Bare(t.id) && t.name == dt.name && t.args == dt.args
    && t.index in m.toolBlock && m.toolBlock[t.index] == dt.block
    && dt.block < |d.blocks| && d.blocks[dt.block].kind == ToolUse
  }

  /** The translator's state against a document read and the meaning of the frames. */
  ghost predicate LinkedTo(m: Machine, d: Doc, u: Meaning) {
    && BlocksLinked(m, d) && ToolsLinked(m, d, u.tools)
    && d.text == u.text && d.reasoning == u.reasoning
    && m.finishReason == u.finish && m.sawDone == u.done
  }

  ghost predicate Linked(m: Machine, u: Meaning) {
    ReadTrace(m.trace).Some? && LinkedTo(m, ReadTrace(m.trace).value, u)
  }

  /** One more event the reader accepts. */
  lemma {:induction false} EventKeepsLink(m: Machine, u: Meaning, ev: Event, m': Machine, d': Doc, u': Meaning)
    requires Linked(m, u) && m'.trace == m.trace + [ev]
    requires Accept(ReadTrace(m.trace).value, ev) == Some(d') && LinkedTo(m', d', u')
    ensures Linked(m', u')
  {
    hide Accept, LinkedTo;
    ReadOneMore(m.trace, ev);
  }

  /** The tool link depends only on the call blocks and the tools read. */
  lemma {:induction false} SameToolsLinked(m: Machine, d: Doc, tools: seq<Tool>, m': Machine, d': Doc)
    requires ToolsLinked(m, d, tools) && m'.toolBlock == m.toolBlock && d'.tools == d.tools && d'.blocks == d.blocks
    ensures ToolsLinked(m', d', tools)
  {
    assert forall i :: 0 <= i < |tools| ==>
           ToolLinked(m, d, tools[i], d.tools[i]) && ToolLinked(m', d', tools[i], d'.tools[i]);
  }

  /** Another block leaves the tool calls linked. */
  lemma {:induction false} BlockKeepsTools(m: Machine, d: Doc, tools: seq<Tool>, m': Machine, b: Block)
    requires ToolsLinked(m, d, tools) && m'.toolBlock == m.toolBlock
    ensures ToolsLinked(m', d.(blocks := d.blocks + [b]), tools)
  {
    var d' := d.(blocks := d.blocks + [b]);
    forall i | 0 <= i < |tools|
      ensures ToolLinked(m', d', tools[i], d'.tools[i])
    {
      assert ToolLinked(m, d, tools[i], d.tools[i]);
    }
  }

  lemma {:induction false} StartKeepsLink(m: Machine, u: Meaning)
    requires Linked(m, u)
    ensures Linked(StartMessage(m), u) && StartMessage(m).started
  {
    hide ToolsLinked, MessageId, ReadTrace;
    if !m.started {
      var d := ReadTrace(m.trace).value;
      var ev := MessageStart(MessageId(m.lastId), m.model, m.usage.input, m.usage.output);
      var d' := d.(started := true, id := MessageId(m.lastId));
      SameToolsLinked(m, d, u.tools, StartMessage(m), d');
      EventKeepsLink(m, u, ev, StartMessage(m), d', u);
    }
  }

  lemma {:induction false} OpenTextKeepsLink(m: Machine, u: Meaning)
    requires Linked(m, u) && m.started
    ensures Linked(EnsureText(m), u) && EnsureText(m).started && EnsureText(m).textBlock >= 0
  {
    hide ToolsLinked, ReadTrace;
    if m.textBlock < 0 {
      var d := ReadTrace(m.trace).value;
      var d' := d.(blocks := d.blocks + [Block(Text, true)]);
      BlockKeepsTools(m, d, u.tools, EnsureText(m), Block(Text, true));
      assert BlocksLinked(EnsureText(m), d');
      EventKeepsLink(m, u, TextStart(m.next), EnsureText(m), d', u);
    }
  }

  lemma {:induction false} TextDeltaLinked(m: Machine, d: Doc, u: Meaning, text: string)
    requires LinkedTo(m, d, u) && m.started && m.textBlock >= 0
    ensures var ev, d' := TextDelta(m.textBlock, text), d.(text := d.text + text);
            Accept(d, ev) == Some(d') && LinkedTo(Emit(m, ev), d', u.(text := u.text + text))
  {
    hide ToolsLinked;
    SameToolsLinked(m, d, u.tools, Emit(m, TextDelta(m.textBlock, text)), d.(text := d.text + text));
  }

  lemma {:induction false} TextKeepsLink(m: Machine, u: Meaning, text: string)
    requires Linked(m, u)
    ensures Linked(FeedText(m, text), u.(text := u.text + text))
  {
    if text == "" {
      assert u.text + text == u.text;
    } else {
      hide StartMessage, EnsureText, LinkedTo, ReadTrace, Accept;
      StartKeepsLink(m, u);
      OpenTextKeepsLink(StartMessage(m), u);
      var m' := EnsureText(StartMessage(m));
      var d := ReadTrace(m'.trace).value;
      TextDeltaLinked(m', d, u, text);
      EventKeepsLink(m', u, TextDelta(m'.textBlock, text), FeedText(m, text), d.(text := d.text + text),
                     u.(text := u.text + text));
    }
  }

  lemma {:induction false} OpenThinkingKeepsLink(m: Machine, u: Meaning)
    requires Linked(m, u) && m.started
    ensures Linked(EnsureThinking(m), u) && EnsureThinking(m).started && EnsureThinking(m).thinkingBlock >= 0
  {
    hide ToolsLinked, ReadTrace;
    if m.thinkingBlock < 0 {
      var d := ReadTrace(m.trace).value;
      var d' := d.(blocks := d.blocks + [Block(Reasoning, true)]);
      BlockKeepsTools(m, d, u.tools, EnsureThinking(m), Block(Reasoning, true));
      assert BlocksLinked(EnsureThinking(m), d');
      EventKeepsLink(m, u, ThinkingStart(m.next), EnsureThinking(m), d', u);
    }
  }

  lemma {:induction false} ThinkingDeltaLinked(m: Machine, d: Doc, u: Meaning, text: string)
    requires LinkedTo(m, d, u) && m.started && m.thinkingBlock >= 0
    ensures var ev, d' := ThinkingDelta(m.thinkingBlock, text), d.(reasoning := d.reasoning + text);
            Accept(d, ev) == Some(d') && LinkedTo(Emit(m, ev), d', u.(reasoning := u.reasoning + text))
  {
    hide ToolsLinked;
    SameToolsLinked(m, d, u.tools, Emit(m, ThinkingDelta(m.thinkingBlock, text)), d.(reasoning := d.reasoning + text));
  }

  lemma {:induction false} ThinkingKeepsLink(m: Machine, u: Meaning, text: string)
    requires Linked(m, u)
    ensures Linked(FeedThinking(m, text), u.(reasoning := u.reasoning + text))
  {
    if text == "" {
      assert u.reasoning + text == u.reasoning;
    } else {
      hide StartMessage, EnsureThinking, LinkedTo, ReadTrace, Accept;
      StartKeepsLink(m, u);
      OpenThinkingKeepsLink(StartMessage(m), u);
      var m' := EnsureThinking(StartMessage(m));
      var d := ReadTrace(m'.trace).value;
      ThinkingDeltaLinked(m', d, u, text);
      EventKeepsLink(m', u, ThinkingDelta(m'.thinkingBlock, text), FeedThinking(m, text),
                     d.(reasoning := d.reasoning + text), u.(reasoning := u.reasoning + text));
    }
  }

  lemma {:induction false} ToolPositionNew(tools: seq<Tool>, t: Tool, k: int)
    ensures ToolPosition(tools + [t], k)
            == if ToolPosition(tools, k) < |tools| then ToolPosition(tools, k)
               else if t.index == k then |tools| else |tools| + 1
  {
    var i, i' := ToolPosition(tools, k), ToolPosition(tools + [t], k);
    assert (tools + [t])[|tools|] == t;
    if i < |tools| {
      assert (tools + [t])[i].index == k;
    }
    if i' < |tools| {
      assert tools[i'].index == k;
    }
  }

  /** A call without a block has not been seen. */
  lemma {:induction false} UnseenTool(m: Machine, d: Doc, tools: seq<Tool>, index: int)
    requires ToolsLinked(m, d, tools) && index !in m.toolBlock
    ensures ToolPosition(tools, index) == |tools|
  {
    assert forall j :: 0 <= j < |tools| ==> ToolLinked(m, d, tools[j], d.tools[j]) && tools[j].index != index;
  }

  /** The first fragment of a tool call opens a block for it. */
  lemma {:induction false} NewToolKeepsLink(m: Machine, u: Meaning, delta: ToolDelta)
    requires Linked(m, u) && m.started && delta.index !in m.toolBlock
    ensures ToolPosition(u.tools, delta.index) == |u.tools|
    ensures Linked(EnsureTool(m, delta), u.(tools := u.tools + [Tool(delta.index, delta.id, delta.name, "")]))
  {
    hide ToolsLinked, ToolUseId, ToolPosition, ReadTrace;
    var d := ReadTrace(m.trace).value;
    var ev := ToolStart(m.next, ToolUseId(delta.id), delta.name);
    UnseenTool(m, d, u.tools, delta.index);
    NewToolLinked(m, d, u.tools, delta);
    var tool := Tool(delta.index, delta.id, delta.name, "");
    var m1, m' := m.(toolBlock := m.toolBlock[delta.index := m.next]), EnsureTool(m, delta);
    var call := DocTool(m.next, ToolUseId(delta.id), delta.name, "");
    var d' := d.(blocks := d.blocks + [Block(ToolUse, true)], tools := d.tools + [call]);
    SameToolsLinked(m1, d', u.tools + [tool], m', d');
    assert m.next !in m.active;
    assert BlocksLinked(m', d');
    EventKeepsLink(m, u, ev, m', d', u.(tools := u.tools + [tool]));
  }

  lemma {:induction false} NewToolLinked(m: Machine, d: Doc, tools: seq<Tool>, delta: ToolDelta)
    requires ToolsLinked(m, d, tools) && BlocksLinked(m, d) && delta.index !in m.toolBlock
    requires ToolPosition(tools, delta.index) == |tools|
    ensures ToolsLinked(m.(toolBlock := m.toolBlock[delta.index := m.next]),
                        d.(blocks := d.blocks + [Block(ToolUse, true)],
                           tools := d.tools + [DocTool(m.next, ToolUseId(delta.id), delta.name, "")]),
                        tools + [Tool(delta.index, delta.id, delta.name, "")])
  {
    hide ToolPosition, ToolLinked;
    var m' := m.(toolBlock := m.toolBlock[delta.index := m.next]);
    var call := DocTool(m.next, ToolUseId(delta.id), delta.name, "");
    var d' := d.(blocks := d.blocks + [Block(ToolUse, true)], tools := d.tools + [call]);
    var tools' := tools + [Tool(delta.index, delta.id, delta.name, "")];
    forall i | 0 <= i < |tools'|
      ensures ToolLinked(m', d', tools'[i], d'.tools[i])
    {
      if i < |tools| {
        OldToolLinked(m, d, tools[i], d.tools[i], delta);
      } else {
        LatestToolLinked(m, d, delta);
      }
    }
    forall i, j | 0 <= i < j < |tools'|
      ensures tools'[i].index != tools'[j].index && d'.tools[i].block != d'.tools[j].block
    {
      OldToolLinked(m, d, tools[i], d.tools[i], delta);
    }
    forall k | k in m'.toolBlock
      ensures ToolPosition(tools', k) < |tools'|
    {
      ToolPositionNew(tools, Tool(delta.index, delta.id, delta.name, ""), k);
    }
  }

  lemma {:induction false} OldToolLinked(m: Machine, d: Doc, t: Tool, dt: DocTool, delta: ToolDelta)
    requires ToolLinked(m, d, t, dt) && BlocksLinked(m, d) && delta.index !in m.toolBlock
    ensures ToolLinked(m.(toolBlock := m.toolBlock[delta.index := m.next]),
                       d.(blocks := d.blocks + [Block(ToolUse, true)],
                          tools := d.tools + [DocTool(m.next, ToolUseId(delta.id), delta.name, "")]),
                       t, dt)
    ensures t.index != delta.index && dt.block < m.next
  {}

  lemma {:induction false} LatestToolLinked(m: Machine, d: Doc, delta: ToolDelta)
    requires BlocksLinked(m, d)
    ensures ToolLinked(m.(toolBlock := m.toolBlock[delta.index := m.next]),
                       d.(blocks := d.blocks + [Block(ToolUse, true)],
                          tools := d.tools + [DocTool(m.next, ToolUseId(delta.id), delta.name, "")]),
                       Tool(delta.index, delta.id, delta.name, ""),
                       DocTool(m.next, ToolUseId(delta.id), delta.name, ""))
  {
    hide ToolUseId;
    ToolUseIdIsBare(delta.id);
  }

  /** Further fragments go to the block of the call they belong to. */
  lemma {:induction false} ArgsKeepLink(m: Machine, u: Meaning, index: int, args: string)
    requires Linked(m, u) && index in m.toolBlock && m.started
    ensures var p := ToolPosition(u.tools, index);
            p < |u.tools|
            && Linked(Emit(m, JsonDelta(m.toolBlock[index], args)),
                      u.(tools := u.tools[p := u.tools[p].(args := u.tools[p].args + args)]))
  {
    hide ToolsLinked, ReadTrace, ToolPosition, DocToolPosition;
    var d := ReadTrace(m.trace).value;
    var p, b := ToolPosition(u.tools, index), m.toolBlock[index];
    CallsBlock(m, d, u.tools, index);
    ArgsLinked(m, d, u.tools, p, args);
    var ev := JsonDelta(b, args);
    var tools' := u.tools[p := u.tools[p].(args := u.tools[p].args + args)];
    var d' := d.(tools := d.tools[p := d.tools[p].(args := d.tools[p].args + args)]);
    SameToolsLinked(m, d', tools', Emit(m, ev), d');
    EventKeepsLink(m, u, ev, Emit(m, ev), d', u.(tools := tools'));
  }

  /** The reader finds a known call at the translator's position for it. */
  lemma {:induction false} CallsBlock(m: Machine, d: Doc, tools: seq<Tool>, index: int)
    requires ToolsLinked(m, d, tools) && index in m.toolBlock
    ensures var p, b := ToolPosition(tools, index), m.toolBlock[index];
            p < |tools| == |d.tools| && DocToolPosition(d.tools, b) == p
            && b < |d.blocks| && d.blocks[b].kind == ToolUse
  {
    hide DocToolPosition, ToolPosition;
    var p := ToolPosition(tools, index);
    assert ToolLinked(m, d, tools[p], d.tools[p]);
  }

  lemma {:induction false} ArgsLinked(m: Machine, d: Doc, tools: seq<Tool>, p: nat, args: string)
    requires ToolsLinked(m, d, tools) && p < |tools|
    ensures ToolsLinked(m, d.(tools := d.tools[p := d.tools[p].(args := d.tools[p].args + args)]),
                        tools[p := tools[p].(args := tools[p].args + args)])
  {
    hide ToolPosition, ToolLinked;
    var d' := d.(tools := d.tools[p := d.tools[p].(args := d.tools[p].args + args)]);
    var tools' := tools[p := tools[p].(args := tools[p].args + args)];
    forall i | 0 <= i < |tools'|
      ensures ToolLinked(m, d', tools'[i], d'.tools[i])
    {
      MoreArgsLinked(m, d, d', tools[i], d.tools[i], args);
    }
    forall k | k in m.toolBlock
      ensures ToolPosition(tools', k) < |tools'|
    {
      assert tools'[ToolPosition(tools, k)].index == k;
    }
  }

  lemma {:induction false} MoreArgsLinked(m: Machine, d: Doc, d': Doc, t: Tool, dt: DocTool, args: string)
    requires ToolLinked(m, d, t, dt) && d'.blocks == d.blocks
    ensures ToolLinked(m, d', t, dt) && ToolLinked(m, d', t.(args := t.args + args), dt.(args := dt.args + args))
  {}

  lemma {:induction false} KnownToolKeepsLink(m: Machine, u: Meaning, delta: ToolDelta)
    requires Linked(m, u) && m.started && delta.index in m.toolBlock
    ensures Linked(FeedTool(m, delta), u.(tools := AddTool(u.tools, delta))) && FeedTool(m, delta).started
  {
    hide ReadTrace, ToolsLinked, ToolPosition;
    var p := ToolPosition(u.tools, delta.index);
    CallsBlock(m, ReadTrace(m.trace).value, u.tools, delta.index);
    CallIsOpen(m, u, delta.index);
    hide Linked;
    assert EnsureTool(m, delta) == m;
    if delta.args == "" {
      assert u.tools[p].args + "" == u.tools[p].args;
      assert AddTool(u.tools, delta) == u.tools;
    } else {
      ArgsKeepLink(m, u, delta.index, delta.args);
    }
  }

  /** The block of a known call is still open. */
  lemma {:induction false} CallIsOpen(m: Machine, u: Meaning, index: int)
    requires Linked(m, u) && index in m.toolBlock
    ensures m.toolBlock[index] in m.active
  {
    hide ToolsLinked, ReadTrace;
    CallsBlock(m, ReadTrace(m.trace).value, u.tools, index);
  }

  lemma {:induction false} FirstFragmentKeepsLink(m: Machine, u: Meaning, delta: ToolDelta)
    requires Linked(m, u) && m.started && delta.index !in m.toolBlock
    ensures Linked(FeedTool(m, delta), u.(tools := AddTool(u.tools, delta))) && FeedTool(m, delta).started
  {
    hide Linked, ToolPosition, ToolUseId;
    NewToolKeepsLink(m, u, delta);
    var t := Tool(delta.index, delta.id, delta.name, "");
    var m1, u1 := EnsureTool(m, delta), u.(tools := u.tools + [t]);
    assert m1.started && delta.index in m1.toolBlock;
    hide EnsureTool;
    assert "" + delta.args == delta.args;
    if delta.args != "" {
      ArgsKeepLink(m1, u1, delta.index, delta.args);
      ToolPositionNew(u.tools, t, delta.index);
      assert u1.tools[|u.tools| := t.(args := delta.args)] == u.tools + [t.(args := delta.args)];
    }
  }

  lemma {:induction false} ToolKeepsLink(m: Machine, u: Meaning, delta: ToolDelta)
    requires Linked(m, u) && m.started
    ensures Linked(FeedTool(m, delta), u.(tools := AddTool(u.tools, delta))) && FeedTool(m, delta).started
  {
    if delta.index in m.toolBlock {
      KnownToolKeepsLink(m, u, delta);
    } else {
      FirstFragmentKeepsLink(m, u, delta);
    }
  }

  lemma {:induction false} ToolsKeepLink(m: Machine, u: Meaning, ds: seq<ToolDelta>)
    requires Linked(m, u) && m.started
    ensures Linked(FeedTools(m, ds), u.(tools := AddTools(u.tools, ds))) && FeedTools(m, ds).started
    decreases |ds|
  {
    if ds != [] {
      var n := |ds| - 1;
      ToolsKeepLink(m, u, ds[..n]);
      ToolKeepsLink(FeedTools(m, ds[..n]), u.(tools := AddTools(u.tools, ds[..n])), ds[n]);
    }
  }

  lemma {:induction false} ChoiceKeepsLink(m: Machine, u: Meaning, c: Choice)
    requires Linked(m, u)
    ensures Linked(FeedChoice(m, c), AddChoice(u, c))
  {
    hide Linked, FeedThinking, FeedText, FeedTools, StartMessage, Thinking;
    ThinkingKeepsLink(m, u, Thinking(c));
    var m1, u1 := FeedThinking(m, Thinking(c)), u.(reasoning := u.reasoning + Thinking(c));
    TextKeepsLink(m1, u1, c.content);
    var m2, u2 := FeedText(m1, c.content), u1.(text := u1.text + c.content);
    var m3 := if c.tools == [] then m2 else FeedTools(StartMessage(m2), c.tools);
    var u3 := u2.(tools := AddTools(u2.tools, c.tools));
    if c.tools != [] {
      StartKeepsLink(m2, u2);
      ToolsKeepLink(StartMessage(m2), u2, c.tools);
    }
    assert Linked(m3, u3);
    if c.finish != "" { ReasonKeepsLink(m3, u3, c.finish); }
  }

  lemma {:induction false} ReasonKeepsLink(m: Machine, u: Meaning, reason: string)
    requires Linked(m, u)
    ensures Linked(m.(finishReason := reason), u.(finish := reason))
  {
    hide ToolsLinked;
    var d := ReadTrace(m.trace).value;
    SameToolsLinked(m, d, u.tools, m.(finishReason := reason), d);
  }

  lemma {:induction false} FrameKeepsLink(m: Machine, u: Meaning, f: Frame)
    requires Linked(m, u)
    ensures Linked(Feed(m, f), AddFrame(u, f))
  {
    match f
    case Chunk(id, us, choices) =>
      var m1 := SeeUsage(m, us);
      var m2 := if id == "" then m1 else m1.(lastId := id);
      assert Linked(m2, u);
      if choices != [] { ChoiceKeepsLink(m2, u, choices[0]); }
    case _ =>
  }

  /** Before Finish, every trace is a grammatical beginning and carries exactly the
      content fed so far. */
  lemma {:induction false} FeedsAreLinked(model: string, usage: Usage, frames: seq<Frame>)
    ensures Linked(FeedAll(New(model, usage), frames), ReadFrames(frames))
    decreases |frames|
  {
    if frames != [] {
      var n := |frames| - 1;
      FeedsAreLinked(model, usage, frames[..n]);
      FrameKeepsLink(FeedAll(New(model, usage), frames[..n]), ReadFrames(frames[..n]), frames[n]);
    }
  }

  // ----- Finish -----

  function Stops(n: nat): seq<Event> {
    seq(n, i requires 0 <= i < n => BlockStop(i))
  }

  lemma {:induction false} CloseStopsAll(m: Machine, n: nat)
    requires forall i: nat :: i in m.active <==> i < n
    ensures CloseBlocks(m).trace == m.trace + Stops(n)
  {
    var all: seq<nat> := seq(n, i requires 0 <= i < n => i);
    forall x: nat ensures x in all <==> x in m.active {
      assert x < n ==> all[x] == x;
    }
    SortedIsUnique(Sorted(m.active), all);
  }

  /** Reading the stop events closes the blocks one by one. */
  lemma {:induction false} ReadStops(trace: seq<Event>, k: nat)
    requires ReadTrace(trace).Some? && Ready(ReadTrace(trace).value)
    requires k <= |ReadTrace(trace).value.blocks|
    requires forall i :: 0 <= i < |ReadTrace(trace).value.blocks| ==> ReadTrace(trace).value.blocks[i].open
    ensures var d := ReadTrace(trace).value;
            ReadTrace(trace + Stops(k))
            == Some(d.(blocks := seq(|d.blocks|, i requires 0 <= i < |d.blocks| => Block(d.blocks[i].kind, i >= k))))
  {
    hide ReadTrace;
    var d := ReadTrace(trace).value;
    if k == 0 {
      assert trace + Stops(0) == trace;
      assert d.blocks == seq(|d.blocks|, i requires 0 <= i < |d.blocks| => Block(d.blocks[i].kind, i >= 0));
    } else {
      ReadStops(trace, k - 1);
      assert trace + Stops(k) == (trace + Stops(k - 1)) + [BlockStop(k - 1)];
      ReadOneMore(trace + Stops(k - 1), BlockStop(k - 1));
      var before := seq(|d.blocks|, i requires 0 <= i < |d.blocks| => Block(d.blocks[i].kind, i >= k - 1));
      assert before[k - 1 := before[k - 1].(open := false)]
             == seq(|d.blocks|, i requires 0 <= i < |d.blocks| => Block(d.blocks[i].kind, i >= k));
    }
  }

  ghost predicate SameCall(dt: DocTool, t: Tool) {
    dt.id == "toolu_" + Bare(t.id) && dt.name == t.name && dt.args == t.args
  }

  /** The content of a whole Messages stream, against the content of a Chat stream. */
  ghost predicate SameContent(d: Doc, u: Meaning) {
    && d.text == u.text && d.reasoning == u.reasoning && |d.tools| == |u.tools|
    && forall i :: 0 <= i < |d.tools| ==> SameCall(d.tools[i], u.tools[i])
  }

  ghost predicate AllClosed(d: Doc) {
    forall i :: 0 <= i < |d.blocks| ==> !d.blocks[i].open
  }

  ghost predicate OneBlockPerKind(d: Doc) {
    forall i, j :: 0 <= i < j < |d.blocks| && d.blocks[i].kind == d.blocks[j].kind ==> d.blocks[i].kind == ToolUse
  }

  lemma {:induction false} CloseReads(m: Machine, u: Meaning)
    requires Linked(m.(finished := false), u) && m.started
    ensures ReadTrace(CloseBlocks(m).trace).Some?
    ensures var d := ReadTrace(CloseBlocks(m).trace).value;
            && d.started && d.stop == None && !d.ended
            && |d.blocks| == m.next && AllClosed(d) && OneBlockPerKind(d) && SameContent(d, u)
  {
    hide ReadTrace, Sorted, CloseBlocks;
    var d := ReadTrace(m.trace).value;
    CloseStopsAll(m, m.next);
    ReadStops(m.trace, m.next);
    forall i | 0 <= i < |u.tools|
      ensures SameCall(d.tools[i], u.tools[i])
    {
      assert ToolLinked(m.(finished := false), d, u.tools[i], d.tools[i]);
    }
  }

  /** The stop reason a Chat finish reason stands for. */
  ghost predicate StopsFor(finish: string, reason: string) {
    && (finish == "length" ==> reason == "max_tokens")
    && (finish in {"tool_calls", "function_call"} ==> reason == "tool_use")
    && (finish !in {"length", "tool_calls", "function_call"} ==> reason == "end_turn")
  }

  /** Every trace of the translator is grammatical and carries exactly the content of the
      frames, each call with its identifier under the prefix of the protocol; it ends with
      message_delta and message_stop if and only if a completion signal was seen, and in any
      case every started block is stopped. */
  lemma {:induction false} TraceIsGrammatical(model: string, usage: Usage, frames: seq<Frame>, latest: Usage)
    ensures var u := ReadFrames(frames);
            var doc := ReadTrace(Finish(FeedAll(New(model, usage), frames), latest).trace);
            && doc.Some? && AllClosed(doc.value) && OneBlockPerKind(doc.value) && SameContent(doc.value, u)
            && (if !Complete(u) then !doc.value.ended && doc.value.stop == None
                else
                  && doc.value.ended && doc.value.blocks != []
                  && doc.value.stop.Some? && StopsFor(u.finish, doc.value.stop.value))
  {
    hide ReadTrace, Finalize, FeedAll, ReadFrames;
    var m0, u := FeedAll(New(model, usage), frames), ReadFrames(frames);
    FeedsAreLinked(model, usage, frames);
    var m := m0.(finished := true, usage := latest);
    if Complete(u) {
      FinalizeReads(m, u);
    } else if m.started {
      assert Linked(m.(finished := false), u);
      CloseReads(m, u);
    }
  }

  /** Before the blocks are closed there is at least one. */
  lemma {:induction false} ReadyToClose(m: Machine, u: Meaning)
    requires Linked(m.(finished := false), u)
    ensures var m1 := StartMessage(m);
            var m2 := if m1.active == {} then EnsureText(m1) else m1;
            Linked(m2.(finished := false), u) && m2.started && m2.next > 0 && m.finishReason == u.finish
  {
    hide ReadTrace, ToolsLinked;
    var live := m.(finished := false);
    StartKeepsLink(live, u);
    var m1 := StartMessage(live);
    assert StartMessage(m).(finished := false) == m1;
    if m1.active == {} {
      OpenTextKeepsLink(m1, u);
      assert EnsureText(StartMessage(m)).(finished := false) == EnsureText(m1);
      assert EnsureText(m1).next > 0;
    } else {
      var i: nat :| i in m1.active;
      assert i < m1.next;
    }
  }

  lemma {:induction false} TerminateReads(trace: seq<Event>, reason: string, output: int, u: Meaning)
    requires ReadTrace(trace).Some?
    requires var d := ReadTrace(trace).value; Ready(d) && !d.ended && d.blocks != [] && AllClosed(d)
    requires OneBlockPerKind(ReadTrace(trace).value) && SameContent(ReadTrace(trace).value, u)
    ensures var doc := ReadTrace(trace + [MessageDelta(reason, output)] + [MessageStop]);
            && doc.Some? && AllClosed(doc.value) && OneBlockPerKind(doc.value) && SameContent(doc.value, u)
            && doc.value.ended && doc.value.stop == Some(reason) && doc.value.blocks != []
  {
    hide ReadTrace;
    ReadOneMore(trace, MessageDelta(reason, output));
    ReadOneMore(trace + [MessageDelta(reason, output)], MessageStop);
  }

  lemma {:induction false} FinalizeReads(m: Machine, u: Meaning)
    requires Linked(m.(finished := false), u)
    ensures var doc := ReadTrace(Finalize(m, StopReason(m.finishReason)).trace);
            && doc.Some? && AllClosed(doc.value) && OneBlockPerKind(doc.value) && SameContent(doc.value, u)
            && doc.value.ended && doc.value.stop == Some(StopReason(u.finish)) && doc.value.blocks != []
  {
    hide ReadTrace, Linked, SameContent, OneBlockPerKind, AllClosed, StartMessage, EnsureText, CloseBlocks, StopReason;
    ReadyToClose(m, u);
    var m1 := StartMessage(m);
    var m2 := if m1.active == {} then EnsureText(m1) else m1;
    CloseReads(m2, u);
    TerminateReads(CloseBlocks(m2).trace, StopReason(m.finishReason), m2.usage.output, u);
  }

  /** Nothing is emitted after Finish, by frames or by finishing again. */
  lemma {:induction false} SilentAfterFinish(m: Machine, latest: Usage, frames: seq<Frame>, again: Usage)
    ensures FeedAll(Finish(m, latest), frames) == Finish(m, latest)
    ensures Finish(Finish(m, latest), again) == Finish(m, latest)
    decreases |frames|
  {
    assert Finish(m, latest).finished;
    if frames != [] { SilentAfterFinish(m, latest, frames[..|frames| - 1], again); }
  }
}
