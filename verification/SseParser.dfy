/** Incremental parsing of server-sent events. Bytes are characters; an event keeps its
    data and whether it is the end-of-stream sentinel. */
module SseParser {
  import opened Strings

  const LF := '\n'
  const CR := '\r'

  datatype Event = Event(data: string, done: bool)

  // ----- Text helpers -----

  /** White space of Unicode. */
  predicate IsSpace(c: char) {
    var n := c as int;
    || 9 <= n <= 13 || n == 0x20 || n == 0x85 || n == 0xA0 || n == 0x1680 || 0x2000 <= n <= 0x200A
    || n == 0x2028 || n == 0x2029 || n == 0x202F || n == 0x205F || n == 0x3000
  }

  function TrimSpace(s: string): string {
    if s == "" then s
    else if IsSpace(s[0]) then TrimSpace(s[1..])
    else if IsSpace(s[|s| - 1]) then TrimSpace(s[..|s| - 1])
    else s
  }

  /** Position of the first '\n', or |s|. */
  function LineEnd(s: string): (n: nat)
    ensures n <= |s|
  {
    if s == "" then 0 else if s[0] == LF then 0 else 1 + LineEnd(s[1..])
  }

  lemma {:induction false} LineEndIsFirst(s: string)
    ensures LineEnd(s) < |s| ==> s[LineEnd(s)] == LF
    ensures LF !in s[..LineEnd(s)]
    decreases |s|
  {
    if s != "" && s[0] != LF {
      LineEndIsFirst(s[1..]);
      assert s[..LineEnd(s)] == [s[0]] + s[1..][..LineEnd(s[1..])];
    }
  }

  function SplitLines(s: string): (lines: seq<string>)
    ensures lines != []
    decreases |s|
  {
    var n := LineEnd(s);
    if n == |s| then [s] else [s[..n]] + SplitLines(s[n + 1..])
  }

  function Join(lines: seq<string>): string {
    if lines == [] then "" else if |lines| == 1 then lines[0] else lines[0] + [LF] + Join(lines[1..])
  }

  function ReplaceCrLf(s: string): string
    decreases |s|
  {
    if s == "" then ""
    else if |s| >= 2 && s[0] == CR && s[1] == LF then [LF] + ReplaceCrLf(s[2..])
    else [s[0]] + ReplaceCrLf(s[1..])
  }

  function ReplaceCr(s: string): string {
    if s == "" then "" else [if s[0] == CR then LF else s[0]] + ReplaceCr(s[1..])
  }

  /** Position of the first empty line, that is of "\n\n", or |s|. */
  function BlankLine(s: string): (n: nat)
    ensures n <= |s| && (n < |s| ==> n + 2 <= |s|)
  {
    if |s| < 2 then |s| else if s[0] == LF && s[1] == LF then 0 else 1 + BlankLine(s[1..])
  }

  lemma {:induction false} BlankLineIsFirst(s: string)
    ensures BlankLine(s) < |s| ==> s[BlankLine(s)] == LF && s[BlankLine(s) + 1] == LF
    ensures forall i :: 0 <= i < BlankLine(s) && i + 1 < |s| ==> !(s[i] == LF && s[i + 1] == LF)
    decreases |s|
  {
    if |s| >= 2 && !(s[0] == LF && s[1] == LF) {
      BlankLineIsFirst(s[1..]);
      assert forall i :: 0 <= i < |s| - 1 ==> s[1..][i] == s[i + 1];
    }
  }

  // ----- One block -----

  function FieldValue(line: string): string {
    TrimPrefix(TrimPrefix(line, "data:"), " ")
  }

  function DataLines(lines: seq<string>): seq<string> {
    if lines == [] then []
    else (if HasPrefix(lines[0], "data:") then [FieldValue(lines[0])] else []) + DataLines(lines[1..])
  }

  function Dispatch(data: seq<string>): seq<Event> {
    if data == [] then [] else [Event(Join(data), TrimSpace(Join(data)) == "[DONE]")]
  }

  function ParseBlock(block: string): seq<Event> {
    Dispatch(DataLines(SplitLines(block)))
  }

  // ----- The parser -----

  datatype State = State(buf: string, skipLeadingLF: bool)

  const NewState := State("", false)

  /** Events of the complete blocks of a text with '\n' line ends. */
  function BlockEvents(text: string): seq<Event>
    decreases |text|
  {
    var n := BlankLine(text);
    if n == |text| then [] else ParseBlock(text[..n]) + BlockEvents(text[n + 2..])
  }

  /** What is left after the last complete block. */
  function Rest(text: string): string
    decreases |text|
  {
    var n := BlankLine(text);
    if n == |text| then text else Rest(text[n + 2..])
  }

  lemma {:induction false} RestIsSuffix(text: string)
    ensures BlankLine(Rest(text)) == |Rest(text)|
    ensures |Rest(text)| <= |text| && Rest(text) == text[|text| - |Rest(text)|..]
    decreases |text|
  {
    var n := BlankLine(text);
    if n < |text| { RestIsSuffix(text[n + 2..]); }
  }

  /** Normalises every line end to LF, one character at a time; `afterCr` says that a
      leading LF belongs to a CR already seen. */
  function Norm(afterCr: bool, s: string): string
    decreases |s|
  {
    if s == "" then ""
    else if s[0] == LF && afterCr then Norm(false, s[1..])
    else if s[0] == CR then [LF] + Norm(true, s[1..])
    else [s[0]] + Norm(false, s[1..])
  }

  lemma {:induction false} ReplaceIsNorm(s: string)
    ensures ReplaceCr(ReplaceCrLf(s)) == Norm(false, s)
    decreases |s|
  {
    if s != "" {
      if |s| >= 2 && s[0] == CR && s[1] == LF {
        ReplaceIsNorm(s[2..]);
        assert s[1..][1..] == s[2..];
      } else {
        ReplaceIsNorm(s[1..]);
        assert ReplaceCrLf(s)[0] == s[0] && ReplaceCrLf(s)[1..] == ReplaceCrLf(s[1..]);
      }
    }
  }

  function SkipAfter(skip: bool, data: string): bool {
    if data == "" then skip else data[|data| - 1] == CR
  }

  function FullText(s: State, data: string): string {
    s.buf + Norm(s.skipLeadingLF, data)
  }

  function FeedState(s: State, data: string): State {
    State(Rest(FullText(s, data)), SkipAfter(s.skipLeadingLF, data))
  }

  function FeedEvents(s: State, data: string): seq<Event> {
    BlockEvents(FullText(s, data))
  }

  class Parser {
    var buf: string
    var skipLeadingLF: bool

    constructor ()
      ensures Value() == NewState
    {
      buf, skipLeadingLF := "", false;
    }

    ghost function Value(): State
      reads this
    {
      State(buf, skipLeadingLF)
    }

    method FeedBytes(input: string) returns (events: seq<Event>)
      modifies this
      ensures Value() == FeedState(old(Value()), input)
      ensures events == FeedEvents(old(Value()), input)
    {
      var data := input;
      if skipLeadingLF && |data| > 0 {
        if data[0] == LF {
          data := data[1..];
        }
        skipLeadingLF := false;
      }
      if |data| > 0 && data[|data| - 1] == CR {
        skipLeadingLF := true;
      }
      ReplaceIsNorm(data);
      assert Norm(false, data) == Norm(old(skipLeadingLF), input);
      var rest;
      events, rest := TakeBlocks(buf + ReplaceCr(ReplaceCrLf(data)));
      buf := rest;
    }

    method TakeBlocks(text: string) returns (events: seq<Event>, fullText: string)
      ensures events == BlockEvents(text) && fullText == Rest(text)
    {
      hide ParseBlock;
      fullText := text;
      events := [];
      while BlankLine(fullText) < |fullText|
        invariant BlockEvents(text) == events + BlockEvents(fullText)
        invariant Rest(text) == Rest(fullText)
        decreases |fullText|
      {
        var idx := BlankLine(fullText);
        var parsed := ParseOne(fullText[..idx]);
        assert BlockEvents(fullText) == parsed + BlockEvents(fullText[idx + 2..]);
        assert events + (parsed + BlockEvents(fullText[idx + 2..]))
               == events + parsed + BlockEvents(fullText[idx + 2..]);
        fullText := fullText[idx + 2..];
        events := events + parsed;
      }
    }

    /** At most one event per block. */
    method ParseOne(block: string) returns (parsed: seq<Event>)
      ensures parsed == ParseBlock(block)
    {
      var dataLines: seq<string> := [];
      var lines := SplitLines(block);
      for i := 0 to |lines|
        invariant DataLines(lines) == dataLines + DataLines(lines[i..])
      {
        var line := lines[i];
        assert lines[i..][1..] == lines[i + 1..];
        if HasPrefix(line, "data:") {
          dataLines := dataLines + [TrimPrefix(TrimPrefix(line, "data:"), " ")];
        }
      }
      assert dataLines + [] == dataLines;
      if |dataLines| == 0 {
        return [];
      }
      var data := Join(dataLines);
      return [Event(data, TrimSpace(data) == "[DONE]")];
    }
  }

  lemma {:induction false} NormConcat(afterCr: bool, a: string, b: string)
    ensures Norm(afterCr, a + b) == Norm(afterCr, a) + Norm(SkipAfter(afterCr, a), b)
    decreases |a|
  {
    if a == "" {
      assert a + b == b;
    } else {
      assert (a + b)[1..] == a[1..] + b;
      NormConcat(a[0] == CR, a[1..], b);
    }
  }

  // ----- Chunking -----

  lemma {:induction false} BlankLineOfPrefix(a: string, b: string)
    requires BlankLine(a) < |a|
    ensures BlankLine(a + b) == BlankLine(a)
    decreases |a|
  {
    if !(a[0] == LF && a[1] == LF) {
      BlankLineOfPrefix(a[1..], b);
      assert (a + b)[1..] == a[1..] + b;
    }
  }

  /** The blocks of a text do not depend on where it is cut. */
  lemma {:induction false} BlocksConcat(a: string, b: string)
    ensures BlockEvents(a + b) == BlockEvents(a) + BlockEvents(Rest(a) + b)
    ensures Rest(a + b) == Rest(Rest(a) + b)
    decreases |a|
  {
    var n := BlankLine(a);
    if n < |a| {
      BlankLineOfPrefix(a, b);
      assert (a + b)[..n] == a[..n];
      assert (a + b)[n + 2..] == a[n + 2..] + b;
      BlocksConcat(a[n + 2..], b);
    }
  }

  lemma {:induction false} FeedTwice(s: State, a: string, b: string)
    ensures FeedState(s, a + b) == FeedState(FeedState(s, a), b)
    ensures FeedEvents(s, a + b) == FeedEvents(s, a) + FeedEvents(FeedState(s, a), b)
  {
    NormConcat(s.skipLeadingLF, a, b);
    var more := Norm(SkipAfter(s.skipLeadingLF, a), b);
    assert FullText(s, a + b) == FullText(s, a) + more;
    BlocksConcat(FullText(s, a), more);
  }

  function FeedAllState(s: State, chunks: seq<string>): State
    decreases |chunks|
  {
    if chunks == [] then s else FeedState(FeedAllState(s, chunks[..|chunks| - 1]), chunks[|chunks| - 1])
  }

  function FeedAllEvents(s: State, chunks: seq<string>): seq<Event>
    decreases |chunks|
  {
    if chunks == [] then []
    else FeedAllEvents(s, chunks[..|chunks| - 1])
         + FeedEvents(FeedAllState(s, chunks[..|chunks| - 1]), chunks[|chunks| - 1])
  }

  function Concat(chunks: seq<string>): string
    decreases |chunks|
  {
    if chunks == [] then "" else Concat(chunks[..|chunks| - 1]) + chunks[|chunks| - 1]
  }

  /** Any way of cutting the stream into chunks, between CR and LF too, gives the same
      events and the same parser state as feeding it whole. */
  lemma {:induction false} ChunkingIsInvisible(s: State, chunks: seq<string>)
    requires BlankLine(s.buf) == |s.buf|
    ensures FeedAllState(s, chunks) == FeedState(s, Concat(chunks))
    ensures FeedAllEvents(s, chunks) == FeedEvents(s, Concat(chunks))
    decreases |chunks|
  {
    if chunks == [] {
      assert s.buf + "" == s.buf;
    } else {
      var n := |chunks| - 1;
      ChunkingIsInvisible(s, chunks[..n]);
      FeedTwice(s, Concat(chunks[..n]), chunks[n]);
    }
  }

  // ----- A line-by-line automaton -----

  /** The line read so far, the data lines of the event so far, and whether the last
      character was a CR whose LF may follow. */
  datatype Automaton = Automaton(line: string, data: seq<string>, afterCr: bool)

  const Clean := Automaton("", [], false)

  /** The events an empty line dispatches; other line ends dispatch nothing. */
  function LineEvents(a: Automaton): seq<Event> {
    if a.line == "" then Dispatch(a.data) else []
  }

  /** After a line end: an empty line clears the data, a data line is stored, any other
      line is ignored. */
  function EndLine(a: Automaton): Automaton {
    if a.line == "" then a.(data := [])
    else if HasPrefix(a.line, "data:") then a.(line := "", data := a.data + [FieldValue(a.line)])
    else a.(line := "")
  }

  predicate EndsLine(a: Automaton, c: char) { c == CR || (c == LF && !a.afterCr) }

  function Read(a: Automaton, c: char): Automaton {
    if EndsLine(a, c) then EndLine(a).(afterCr := c == CR)
    else if c == LF then a.(afterCr := false)
    else a.(line := a.line + [c], afterCr := false)
  }

  function Emitted(a: Automaton, c: char): seq<Event> {
    if EndsLine(a, c) then LineEvents(a) else []
  }

  function ReadAll(a: Automaton, s: string): Automaton
    decreases |s|
  {
    if s == "" then a else ReadAll(Read(a, s[0]), s[1..])
  }

  function EmittedAll(a: Automaton, s: string): seq<Event>
    decreases |s|
  {
    if s == "" then [] else Emitted(a, s[0]) + EmittedAll(Read(a, s[0]), s[1..])
  }

  lemma {:induction false} ReadAllConcat(a: Automaton, s: string, t: string)
    ensures ReadAll(a, s + t) == ReadAll(ReadAll(a, s), t)
    ensures EmittedAll(a, s + t) == EmittedAll(a, s) + EmittedAll(ReadAll(a, s), t)
    decreases |s|
  {
    if s == "" {
      assert s + t == t;
    } else {
      assert (s + t)[1..] == s[1..] + t;
      ReadAllConcat(Read(a, s[0]), s[1..], t);
    }
  }

  /** Line ends may be normalised before reading. */
  lemma {:induction false} ReadNormalized(a: Automaton, s: string)
    ensures EmittedAll(a, s) == EmittedAll(a.(afterCr := false), Norm(a.afterCr, s))
    decreases |s|
  {
    if s != "" {
      ReadNormalized(Read(a, s[0]), s[1..]);
      if s[0] == CR || !(s[0] == LF && a.afterCr) {
        var n := Norm(a.afterCr, s);
        assert n[1..] == Norm(s[0] == CR, s[1..]);
      }
    }
  }

  lemma {:induction false} ReadWithinLine(a: Automaton, s: string)
    requires !a.afterCr && LF !in s && CR !in s
    ensures ReadAll(a, s) == a.(line := a.line + s)
    ensures EmittedAll(a, s) == []
    decreases |s|
  {
    if s == "" {
      assert a.line + s == a.line;
    } else {
      ReadWithinLine(a.(line := a.line + [s[0]]), s[1..]);
      assert a.line + [s[0]] + s[1..] == a.line + s;
    }
  }

  lemma {:induction false} NormHasNoCr(afterCr: bool, s: string)
    ensures CR !in Norm(afterCr, s)
    decreases |s|
  {
    if s != "" { NormHasNoCr(s[0] == CR, s[1..]); NormHasNoCr(false, s[1..]); }
  }

  ghost predicate NoBlankLine(s: string) {
    CR !in s && forall i :: 0 <= i && i + 1 < |s| ==> !(s[i] == LF && s[i + 1] == LF)
  }

  /** Reading the first line of a text whose line ends at n. */
  lemma {:induction false} ReadFirstLine(data: seq<string>, text: string, n: nat)
    requires n == LineEnd(text) < |text| && CR !in text
    ensures var a := Automaton("", data, false);
            var next := EndLine(a.(line := text[..n]));
            ReadAll(a, text) == ReadAll(next, text[n + 1..])
            && EmittedAll(a, text) == LineEvents(a.(line := text[..n])) + EmittedAll(next, text[n + 1..])
            && next == Automaton("", if n == 0 then [] else data + DataLines([text[..n]]), false)
  {
    var a := Automaton("", data, false);
    var line := text[..n];
    LineEndIsFirst(text);
    assert text == line + text[n..];
    assert text[n..][1..] == text[n + 1..];
    ReadWithinLine(a, line);
    assert a.line + line == line;
    ReadAllConcat(a, line, text[n..]);
    NextLine(data, line);
  }

  lemma {:induction false} NextLine(data: seq<string>, line: string)
    requires LF !in line
    ensures EndLine(Automaton(line, data, false))
            == Automaton("", if line == "" then [] else data + DataLines([line]), false)
  {
    assert DataLines([line]) == (if HasPrefix(line, "data:") then [FieldValue(line)] else []) + DataLines([]);
    assert data + [] == data;
  }

  lemma {:induction false} RestOfLines(text: string, n: nat)
    requires n == LineEnd(text) < |text| && NoBlankLine(text)
    ensures NoBlankLine(text[n + 1..]) && (text[n + 1..] != "" ==> text[n + 1] != LF)
  {
    LineEndIsFirst(text);
    var rest := text[n + 1..];
    assert forall i :: 0 <= i < |rest| ==> rest[i] == text[n + 1 + i];
  }

  /** The last line of a block, then an empty line. */
  lemma {:induction false} ReadLastLine(data: seq<string>, line: string)
    requires CR !in line && LineEnd(line) == |line|
    requires data != [] ==> line != ""
    ensures ReadAll(Automaton("", data, false), line + [LF, LF]) == Clean
    ensures EmittedAll(Automaton("", data, false), line + [LF, LF]) == Dispatch(data + DataLines(SplitLines(line)))
  {
    hide ReadAll, EmittedAll;
    var n := |line|;
    LineEndOfPrefix(line, [LF, LF]);
    ReadFirstLine(data, line + [LF, LF], n);
    assert (line + [LF, LF])[..n] == line && (line + [LF, LF])[n + 1..] == [LF];
    var next := if n == 0 then [] else data + DataLines([line]);
    ReadEmptyLine(next);
    LastLineData(data, line);
  }

  /** A block followed by an empty line: the automaton dispatches the block's data. */
  lemma {:induction false} ReadBlock(data: seq<string>, block: string)
    requires NoBlankLine(block) && (block != "" ==> block[|block| - 1] != LF)
    requires data != [] ==> block != "" && block[0] != LF
    ensures ReadAll(Automaton("", data, false), block + [LF, LF]) == Clean
    ensures EmittedAll(Automaton("", data, false), block + [LF, LF]) == Dispatch(data + DataLines(SplitLines(block)))
    decreases |block|
  {
    hide ReadAll, EmittedAll, DataLines;
    var n := LineEnd(block);
    if n == |block| {
      ReadLastLine(data, block);
    } else {
      LineEndIsFirst(block);
      LineEndOfPrefix(block, [LF, LF]);
      ReadFirstLine(data, block + [LF, LF], n);
      assert (block + [LF, LF])[..n] == block[..n];
      var line, rest := block[..n], block[n + 1..];
      var next := if n == 0 then [] else data + DataLines([line]);
      assert (block + [LF, LF])[n + 1..] == rest + [LF, LF];
      RestOfLines(block, n);
      ReadBlock(next, rest);
      FirstLineData(data, line, SplitLines(rest));
    }
  }

  lemma {:induction false} LastLineData(data: seq<string>, line: string)
    requires LineEnd(line) == |line|
    ensures DataLines(SplitLines(line)) == DataLines([line])
    ensures line == "" ==> data + DataLines(SplitLines(line)) == data
  {
    assert DataLines([""]) == [];
  }

  lemma {:induction false} FirstLineData(data: seq<string>, line: string, lines: seq<string>)
    requires line == "" ==> data == []
    ensures data + DataLines([line] + lines) == (if line == "" then [] else data + DataLines([line])) + DataLines(lines)
  {
    DataLinesCons(line, lines);
    if line == "" {
      assert DataLines([""]) == [];
    } else {
      assert data + (DataLines([line]) + DataLines(lines)) == data + DataLines([line]) + DataLines(lines);
    }
  }

  lemma {:induction false} DataLinesCons(line: string, lines: seq<string>)
    ensures DataLines([line] + lines) == DataLines([line]) + DataLines(lines)
  {
    assert ([line] + lines)[1..] == lines;
    assert [line][1..] == [];
  }

  lemma {:induction false} ReadEmptyLine(data: seq<string>)
    ensures ReadAll(Automaton("", data, false), [LF]) == Clean
    ensures EmittedAll(Automaton("", data, false), [LF]) == Dispatch(data)
  {
    assert [LF][1..] == "";
  }

  lemma {:induction false} LineEndOfPrefix(a: string, b: string)
    requires b != "" && b[0] == LF
    ensures LineEnd(a + b) == LineEnd(a)
    decreases |a|
  {
    if a == "" {
      assert a + b == b;
    } else if a[0] != LF {
      LineEndOfPrefix(a[1..], b);
      assert (a + b)[1..] == a[1..] + b;
    }
  }

  /** Without an empty line nothing is dispatched. */
  lemma {:induction false} NoDispatchWithinBlock(data: seq<string>, text: string)
    requires NoBlankLine(text) && (data != [] && text != "" ==> text[0] != LF)
    ensures EmittedAll(Automaton("", data, false), text) == []
    decreases |text|
  {
    var n := LineEnd(text);
    LineEndIsFirst(text);
    if n == |text| {
      assert text[..n] == text;
      ReadWithinLine(Automaton("", data, false), text);
    } else {
      ReadFirstLine(data, text, n);
      RestOfLines(text, n);
      NoDispatchWithinBlock(if n == 0 then [] else data + DataLines([text[..n]]), text[n + 1..]);
    }
  }

  lemma {:induction false} BlocksAreDispatches(text: string)
    requires CR !in text
    ensures BlockEvents(text) == EmittedAll(Clean, text)
    decreases |text|
  {
    var n := BlankLine(text);
    BlankLineIsFirst(text);
    if n == |text| {
      NoDispatchWithinBlock([], text);
    } else {
      var block, rest := text[..n], text[n + 2..];
      assert text == (block + [LF, LF]) + rest;
      ReadAllConcat(Clean, block + [LF, LF], rest);
      ReadBlock([], block);
      assert [] + DataLines(SplitLines(block)) == DataLines(SplitLines(block));
      BlocksAreDispatches(rest);
    }
  }

  /** However the bytes are cut into feeds, the parser returns exactly the events the
      line-by-line automaton dispatches on the whole stream. */
  lemma {:induction false} ParserIsAutomaton(chunks: seq<string>)
    ensures FeedAllEvents(NewState, chunks) == EmittedAll(Clean, Concat(chunks))
  {
    var s := Concat(chunks);
    ChunkingIsInvisible(NewState, chunks);
    NormHasNoCr(false, s);
    assert FullText(NewState, s) == Norm(false, s);
    BlocksAreDispatches(Norm(false, s));
    ReadNormalized(Clean, s);
  }
}
