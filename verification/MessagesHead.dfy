/** The first and the last events of a translated message: its identifier, model, usage and
    stop reason, told from the frames alone. */
module MessagesHead {
  import opened ChatStream
  import opened ChatToMessages
  import opened MessagesGrammar
  import opened Ordering
  import opened Search
  import opened Strings

  // ----- What the frames say -----

  /** The frame has something to translate. */
  predicate Speaks(f: Frame) {
    f.Chunk? && f.choices != []
    && (Thinking(f.choices[0]) != "" || f.choices[0].content != "" || f.choices[0].tools != [])
  }

  /** The frames up to and with the first that speaks, or all. */
  function Opening(frames: seq<Frame>): seq<Frame> {
    var k := FirstAt(frames, Speaks);
    if k < |frames| then frames[..k + 1] else frames
  }

  /** The last chunk identifier that is not empty. */
  function LatestId(frames: seq<Frame>): string
    decreases |frames|
  {
    if frames == [] then ""
    else
      var f := frames[|frames| - 1];
      if f.Chunk? && f.id != "" then f.id else LatestId(frames[..|frames| - 1])
  }

  function UsageIn(f: Frame): Usage { if f.Garbled? || f.Chunk? then f.usage else NoUsage }

  /** The last positive token counts, or the initial ones. */
  function LatestUsage(initial: Usage, frames: seq<Frame>): Usage
    decreases |frames|
  {
    if frames == [] then initial
    else
      var u, now := LatestUsage(initial, frames[..|frames| - 1]), UsageIn(frames[|frames| - 1]);
      Usage(if now.input > 0 then now.input else u.input, if now.output > 0 then now.output else u.output)
  }

  /** out is "msg_" and the letters and digits of the identifier without its prefix. */
  ghost predicate IsMessageId(id: string, out: string) {
    var own := if HasPrefix(id, "chatcmpl-") then id[9..] else if HasPrefix(id, "msg_") then id[4..] else id;
    out == "msg_" + (if LettersAndDigits(own) == "" then "mockprobe1234567890" else LettersAndDigits(own))
  }

  predicate LetterOrDigit(c: char) {
    var code := c as int;
    48 <= code <= 57 || 65 <= code <= 90 || 97 <= code <= 122
  }

  function LettersAndDigits(s: string): string
    decreases |s|
  {
    if s == "" then ""
    else LettersAndDigits(s[..|s| - 1]) + (if LetterOrDigit(s[|s| - 1]) then [s[|s| - 1]] else "")
  }

  // ----- The identifier -----

  lemma {:induction false} LettersAndDigitsFirst(s: string)
    requires s != ""
    ensures LettersAndDigits(s) == (if LetterOrDigit(s[0]) then [s[0]] else "") + LettersAndDigits(s[1..])
    decreases |s|
  {
    hide LetterOrDigit;
    var n := |s| - 1;
    if n > 0 {
      assert s[..n][1..] == s[1..][..n - 1];
      LettersAndDigitsFirst(s[..n]);
    }
  }

  lemma {:induction false} SameLetters(s: string)
    ensures Alphanumeric(s) == LettersAndDigits(s)
    decreases |s|
  {
    hide LettersAndDigits;
    if s == "" {
      assert LettersAndDigits("") == "" by { NoLetters(); }
    } else {
      SameLetters(s[1..]);
      LettersAndDigitsFirst(s);
    }
  }

  lemma {:induction false} NoLetters()
    ensures LettersAndDigits("") == ""
  {}

  lemma {:induction false} MessageIdIs(id: string)
    ensures IsMessageId(id, MessageId(id))
  {
    hide Alphanumeric, LettersAndDigits;
    var own := if HasPrefix(id, "chatcmpl-") then id[9..] else if HasPrefix(id, "msg_") then id[4..] else id;
    SameLetters(own);
  }

  // ----- Every run -----

  ghost predicate Headed(trace: seq<Event>, id: string, model: string, usage: Usage) {
    && trace != [] && trace[0].MessageStart? && IsMessageId(id, trace[0].id)
    && trace[0].model == model && trace[0].input == usage.input && trace[0].output == usage.output
  }

  /** The state of the translator against the frames fed so far. */
  ghost predicate Told(m: Machine, model: string, usage: Usage, frames: seq<Frame>) {
    && !m.finished && m.model == model && m.lastId == LatestId(frames) && m.usage == LatestUsage(usage, frames)
    && (m.started <==> exists i :: 0 <= i < |frames| && Speaks(frames[i]))
    && (if m.started then Headed(m.trace, LatestId(Opening(frames)), model, LatestUsage(usage, Opening(frames)))
        else m.trace == [])
  }

  /** m' comes from m by events of which the first, if m had none, is the header. */
  ghost predicate Begun(m: Machine, m': Machine) {
    && m'.finished == m.finished && m'.model == m.model && m'.lastId == m.lastId && m'.usage == m.usage
    && (m.started ==> m'.started && m.trace <= m'.trace)
    && (!m.started && m'.started ==>
          && m'.trace != []
          && m'.trace[0] == MessageStart(MessageId(m.lastId), m.model, m.usage.input, m.usage.output))
    && (!m'.started ==> m'.trace == m.trace)
  }

  ghost predicate Sound(m: Machine) { m.started <==> m.trace != [] }

  lemma {:induction false} ThinkingBegins(m: Machine, text: string)
    requires Sound(m)
    ensures var m' := FeedThinking(m, text); Begun(m, m') && Sound(m') && (m'.started <==> m.started || text != "")
  {
    hide MessageId;
  }

  lemma {:induction false} TextBegins(m: Machine, text: string)
    requires Sound(m)
    ensures var m' := FeedText(m, text); Begun(m, m') && Sound(m') && (m'.started <==> m.started || text != "")
  {
    hide MessageId;
  }

  lemma {:induction false} ToolBegins(m: Machine, d: ToolDelta)
    requires Sound(m) && m.started
    ensures var m' := FeedTool(m, d); Begun(m, m') && Sound(m')
  {
    hide ToolUseId;
  }

  lemma {:induction false} ToolsBegin(m: Machine, ds: seq<ToolDelta>)
    requires Sound(m) && m.started
    ensures var m' := FeedTools(m, ds); Begun(m, m') && Sound(m')
    decreases |ds|
  {
    hide FeedTool, MessageId;
    if ds != [] {
      ToolsBegin(m, ds[..|ds| - 1]);
      ToolBegins(FeedTools(m, ds[..|ds| - 1]), ds[|ds| - 1]);
    }
  }

  lemma {:induction false} Continues(m: Machine, m1: Machine, m2: Machine)
    requires Begun(m, m1) && Begun(m1, m2)
    ensures Begun(m, m2)
  {
    hide MessageId;
  }

  lemma {:induction false} StartBegins(m: Machine)
    requires Sound(m)
    ensures var m' := StartMessage(m); Begun(m, m') && Sound(m') && m'.started
  {
    hide MessageId;
  }

  lemma {:induction false} ChoiceBegins(m: Machine, c: Choice)
    requires Sound(m)
    ensures var m' := FeedChoice(m, c);
            && Begun(m, m') && Sound(m')
            && (m'.started <==> m.started || Thinking(c) != "" || c.content != "" || c.tools != [])
  {
    hide FeedThinking, FeedText, FeedTools, StartMessage, Thinking, MessageId;
    ThinkingBegins(m, Thinking(c));
    var m1 := FeedThinking(m, Thinking(c));
    TextBegins(m1, c.content);
    var m2 := FeedText(m1, c.content);
    Continues(m, m1, m2);
    if c.tools != [] {
      StartBegins(m2);
      ToolsBegin(StartMessage(m2), c.tools);
      Continues(m2, StartMessage(m2), FeedTools(StartMessage(m2), c.tools));
      Continues(m, m2, FeedTools(StartMessage(m2), c.tools));
    }
  }

  /** One more frame after those of the opening changes nothing in the opening. */
  lemma {:induction false} OpeningGrows(frames: seq<Frame>, f: Frame)
    ensures (exists i :: 0 <= i < |frames| && Speaks(frames[i])) ==> Opening(frames + [f]) == Opening(frames)
    ensures !(exists i :: 0 <= i < |frames| && Speaks(frames[i])) ==> Opening(frames + [f]) == frames + [f]
  {
    hide Speaks;
    var all := frames + [f];
    var k, k' := FirstAt(frames, Speaks), FirstAt(all, Speaks);
    assert forall i :: 0 <= i < |frames| ==> all[i] == frames[i];
    if k < |frames| {
      assert Speaks(all[k]);
      assert k' == k;
    }
  }

  lemma {:induction false} FrameTells(m: Machine, model: string, usage: Usage, frames: seq<Frame>, f: Frame)
    requires Told(m, model, usage, frames)
    ensures Told(Feed(m, f), model, usage, frames + [f])
  {
    hide FeedChoice, Opening, IsMessageId, MessageId;
    var all := frames + [f];
    assert all[..|frames|] == frames && forall i :: 0 <= i < |frames| ==> all[i] == frames[i];
    OpeningGrows(frames, f);
    var m1 := if f.Garbled? || f.Chunk? then SeeUsage(m, UsageIn(f)) else m;
    var m2 := if f.Chunk? && f.id != "" then m1.(lastId := f.id) else m1;
    assert m2.lastId == LatestId(all) && m2.usage == LatestUsage(usage, all);
    if f.Chunk? && f.choices != [] {
      ChoiceBegins(m2, f.choices[0]);
      MessageIdIs(m2.lastId);
    }
    assert Speaks(f) <==> Speaks(all[|frames|]);
  }

  lemma {:induction false} FeedsAreTold(model: string, usage: Usage, frames: seq<Frame>)
    ensures Told(FeedAll(New(model, usage), frames), model, usage, frames)
    decreases |frames|
  {
    hide Feed;
    if frames == [] {
      assert Told(New(model, usage), model, usage, []);
    } else {
      var n := |frames| - 1;
      FeedsAreTold(model, usage, frames[..n]);
      FrameTells(FeedAll(New(model, usage), frames[..n]), model, usage, frames[..n], frames[n]);
      assert frames[..n] + [frames[n]] == frames;
    }
  }

  lemma {:induction false} ClosingKeepsHead(m: Machine)
    requires m.trace != []
    ensures CloseBlocks(m).trace != [] && CloseBlocks(m).trace[0] == m.trace[0]
  {
    hide Sorted;
  }

  lemma {:induction false} FinalizeTells(m: Machine, reason: string)
    requires Sound(m)
    ensures var trace := Finalize(m, reason).trace; var n := |trace|;
            && n >= 3 && trace[n - 1] == MessageStop && trace[n - 2] == MessageDelta(reason, m.usage.output)
            && trace[0] == if m.started then m.trace[0]
                           else MessageStart(MessageId(m.lastId), m.model, m.usage.input, m.usage.output)
  {
    hide MessageId, CloseBlocks;
    StartBegins(m);
    var m1 := StartMessage(m);
    var m2 := if m1.active == {} then EnsureText(m1) else m1;
    ClosingKeepsHead(m2);
  }

  /** A translated message begins with its identifier, made from the latest chunk identifier
      when the first content came (or at the end, if none came), the model, and the usage
      known by then; and a complete one ends with the stop reason and the final usage. */
  lemma {:induction false} MessageIsHeaded(model: string, usage: Usage, frames: seq<Frame>, latest: Usage)
    ensures var u := ReadFrames(frames);
            var trace := Finish(FeedAll(New(model, usage), frames), latest).trace; var n := |trace|;
            var speaks := exists i :: 0 <= i < |frames| && Speaks(frames[i]);
            && (trace == [] <==> !speaks && !Complete(u))
            && (speaks ==> Headed(trace, LatestId(Opening(frames)), model, LatestUsage(usage, Opening(frames))))
            && (!speaks && Complete(u) ==> Headed(trace, LatestId(frames), model, latest))
            && (Complete(u) ==>
                  && n >= 3 && trace[n - 1] == MessageStop && trace[n - 2].MessageDelta?
                  && StopsFor(u.finish, trace[n - 2].stopReason) && trace[n - 2].output == latest.output)
  {
    hide FeedAll, Finalize, CloseBlocks, ReadFrames, IsMessageId, MessageId, Opening, Speaks;
    FeedsAreTold(model, usage, frames);
    FeedsAreLinked(model, usage, frames);
    var m0 := FeedAll(New(model, usage), frames);
    var m := m0.(finished := true, usage := latest);
    FinalizeTells(m, StopReason(m.finishReason));
    MessageIdIs(m.lastId);
    if m.started { ClosingKeepsHead(m); }
  }
}
