/** Chat completion stream frames and what a sequence of them says. */
module ChatStream {
  import opened Search

  datatype Usage = Usage(input: int, output: int)

  datatype ToolDelta = ToolDelta(index: int, id: string, name: string, args: string)

  /** The first choice of a chunk. Absent strings are empty; finish is empty when the
      finish reason is missing or null. */
  datatype Choice = Choice(reasoningContent: string, thinking: string, reasoning: string, thought: string,
                           content: string, tools: seq<ToolDelta>, finish: string)

  /** One data payload: the end marker, a payload whose content does not decode (its
      usage may), an error object, or a decoded chunk. */
  datatype Frame =
    | Done
    | Garbled(usage: Usage)
    | ErrorObject(message: string)
    | Chunk(id: string, usage: Usage, choices: seq<Choice>)

  const NoUsage := Usage(0, 0)

  function FirstNonEmpty(a: string, b: string, c: string, d: string): string {
    if a != "" then a else if b != "" then b else if c != "" then c else d
  }

  function Thinking(c: Choice): string {
    FirstNonEmpty(c.reasoningContent, c.thinking, c.reasoning, c.thought)
  }

  /** Of the four names for reasoning the first that is used counts. */
  lemma {:induction false} ThinkingPrefers(c: Choice, k: nat)
    requires k < 4
    ensures var parts := [c.reasoningContent, c.thinking, c.reasoning, c.thought];
            && (parts[k] != "" && (forall j :: 0 <= j < k ==> parts[j] == "") ==> Thinking(c) == parts[k])
            && ((forall j :: 0 <= j < 4 ==> parts[j] == "") ==> Thinking(c) == "")
  {
    var parts := [c.reasoningContent, c.thinking, c.reasoning, c.thought];
    assert parts[0] == c.reasoningContent && parts[1] == c.thinking && parts[2] == c.reasoning && parts[3] == c.thought;
  }

  // ----- Meaning -----

  /** A tool call: the index upstream gave it, the identifier and the name it was first
      announced with, and all its argument fragments in order. */
  datatype Tool = Tool(index: int, id: string, name: string, args: string)

  datatype Meaning = Meaning(text: string, reasoning: string, tools: seq<Tool>, finish: string, done: bool)

  const Silence := Meaning("", "", [], "", false)

  /** Position of the tool call with this index, or |tools|. */
  function ToolPosition(tools: seq<Tool>, index: int): (i: nat)
    ensures i <= |tools| && (i < |tools| ==> tools[i].index == index)
    ensures forall j :: 0 <= j < i ==> tools[j].index != index
  {
    FirstAt(tools, (t: Tool) => t.index == index)
  }

  function AddTool(tools: seq<Tool>, d: ToolDelta): seq<Tool> {
    var i := ToolPosition(tools, d.index);
    if i < |tools| then tools[i := tools[i].(args := tools[i].args + d.args)]
    else tools + [Tool(d.index, d.id, d.name, d.args)]
  }

  function AddTools(tools: seq<Tool>, ds: seq<ToolDelta>): seq<Tool>
    decreases |ds|
  {
    if ds == [] then tools else AddTool(AddTools(tools, ds[..|ds| - 1]), ds[|ds| - 1])
  }

  function AddChoice(u: Meaning, c: Choice): Meaning {
    Meaning(u.text + c.content, u.reasoning + Thinking(c), AddTools(u.tools, c.tools),
            if c.finish != "" then c.finish else u.finish, u.done)
  }

  function AddFrame(u: Meaning, f: Frame): Meaning {
    match f
    case Done => u.(done := true)
    case Chunk(_, _, choices) => if choices == [] then u else AddChoice(u, choices[0])
    case _ => u
  }

  function ReadFrames(frames: seq<Frame>): Meaning
    decreases |frames|
  {
    if frames == [] then Silence else AddFrame(ReadFrames(frames[..|frames| - 1]), frames[|frames| - 1])
  }

  /** The stream carried a completion signal. */
  predicate Complete(u: Meaning) { u.finish != "" || u.done }
}
