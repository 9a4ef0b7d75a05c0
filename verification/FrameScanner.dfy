/** The loop that forwards an upstream event stream: it writes only whole frames and
    keeps the rest pending, and it rescans only the tail of what is pending. */
module FrameScanner {
  import opened SseParser

  const MAX_FRAME := 0x10_0000

  /** End of the frame terminator (an empty line) that starts at i, or 0. */
  function EndAt(data: string, i: nat): (end: nat)
    ensures end == 0 || (i + 2 <= end <= |data| && end <= i + 4)
  {
    if i >= |data| then 0
    else if data[i] == LF then
      if i + 1 < |data| && data[i + 1] == LF then i + 2
      else if i + 2 < |data| && data[i + 1] == CR && data[i + 2] == LF then i + 3
      else 0
    else if data[i] == CR then
      if i + 1 < |data| && data[i + 1] == CR then i + 2
      else if i + 2 < |data| && data[i + 1] == LF && data[i + 2] == LF then i + 3
      else if i + 3 < |data| && data[i + 1] == LF && data[i + 2] == CR && data[i + 3] == LF then i + 4
      else 0
    else 0
  }

  /** Length of the longest prefix that ends with a terminator found from i on. */
  function ScanFrom(data: string, i: nat, best: nat): (n: nat)
    ensures best <= |data| ==> n <= |data|
    decreases |data| - i
  {
    if i >= |data| then best
    else if EndAt(data, i) > 0 then ScanFrom(data, EndAt(data, i), EndAt(data, i))
    else ScanFrom(data, i + 1, best)
  }

  method CompletePrefixLen(data: string, from: int) returns (completeLen: nat)
    ensures completeLen == ScanFrom(data, if from < 0 then 0 else from, 0)
  {
    var start := from;
    if start < 0 {
      start := 0;
    }
    completeLen := 0;
    var i := start;
    while i < |data|
      invariant 0 <= i
      invariant ScanFrom(data, i, completeLen) == ScanFrom(data, start, 0)
      decreases |data| - i
    {
      var end := 0;
      if data[i] == LF {
        if i + 1 < |data| && data[i + 1] == LF {
          end := i + 2;
        } else if i + 2 < |data| && data[i + 1] == CR && data[i + 2] == LF {
          end := i + 3;
        }
      } else if data[i] == CR {
        if i + 1 < |data| && data[i + 1] == CR {
          end := i + 2;
        } else if i + 2 < |data| && data[i + 1] == LF && data[i + 2] == LF {
          end := i + 3;
        } else if i + 3 < |data| && data[i + 1] == LF && data[i + 2] == CR && data[i + 3] == LF {
          end := i + 4;
        }
      }
      if end > 0 {
        completeLen := end;
        i := end - 1;
      }
      i := i + 1;
    }
  }

  // ----- Terminators -----

  /** The ways to write the end of a line followed by an empty line. */
  predicate IsTerminator(s: string) { s in {"\n\n", "\n\r\n", "\r\r", "\r\n\n", "\r\n\r\n"} }

  predicate Occurs(data: string, i: nat, end: nat) { i <= end <= |data| && IsTerminator(data[i..end]) }

  /** A position ends a terminator that starts at i if and only if the scan finds it there. */
  lemma {:induction false} EndAtIff(data: string, i: nat, end: nat)
    ensures Occurs(data, i, end) <==> end == EndAt(data, i) && end > 0
  {
    if i <= end <= |data| {
      var s := data[i..end];
      assert forall k :: 0 <= k < |s| ==> s[k] == data[i + k];
      TerminatorShapes(s);
      if end == EndAt(data, i) && end > 0 {
        if end == i + 2 {
          assert s == [data[i], data[i + 1]];
        } else if end == i + 3 {
          assert s == [data[i], data[i + 1], data[i + 2]];
        } else {
          assert s == [data[i], data[i + 1], data[i + 2], data[i + 3]];
        }
      }
    }
  }

  lemma {:induction false} TerminatorShapes(s: string)
    ensures IsTerminator(s) ==>
              || (|s| == 2 && s[0] == s[1] && (s[0] == LF || s[0] == CR))
              || (|s| == 3 && s[0] == LF && s[1] == CR && s[2] == LF)
              || (|s| == 3 && s[0] == CR && s[1] == LF && s[2] == LF)
              || (|s| == 4 && s[0] == CR && s[1] == LF && s[2] == CR && s[3] == LF)
  {}

  // ----- What a scan finds -----

  /** No terminator starts at or after i. */
  ghost predicate NoneFrom(data: string, i: nat) {
    forall j: nat :: i <= j < |data| ==> EndAt(data, j) == 0
  }

  lemma {:induction false} ScanFinds(data: string, i: nat, best: nat)
    requires i <= |data|
    ensures var r := ScanFrom(data, i, best);
            || (r == best && NoneFrom(data, i))
            || (i < r <= |data| && NoneFrom(data, r) && exists j: nat :: i <= j < r && EndAt(data, j) == r)
    decreases |data| - i
  {
    if i < |data| {
      var end := EndAt(data, i);
      if end > 0 { ScanFinds(data, end, end); } else { ScanFinds(data, i + 1, best); }
    }
  }

  lemma {:induction false} ScanSkips(data: string, i: nat, k: nat)
    requires i <= k <= |data| && forall j: nat :: i <= j < k ==> EndAt(data, j) == 0
    ensures ScanFrom(data, i, 0) == ScanFrom(data, k, 0)
    decreases k - i
  {
    if i < k { ScanSkips(data, i + 1, k); }
  }

  /** If nothing pending ends a frame, new bytes can only complete a terminator that
      starts within the last three pending bytes. */
  lemma {:induction false} TailScanSuffices(pending: string, chunk: string)
    requires NoneFrom(pending, 0)
    ensures ScanFrom(pending + chunk, if |pending| < 3 then 0 else |pending| - 3, 0) == ScanFrom(pending + chunk, 0, 0)
  {
    var data := pending + chunk;
    if |pending| >= 3 {
      forall j: nat | j < |pending| - 3
        ensures EndAt(data, j) == 0
      {
        assert EndAt(pending, j) == 0;
        assert data[j] == pending[j] && data[j + 1] == pending[j + 1]
               && data[j + 2] == pending[j + 2] && data[j + 3] == pending[j + 3];
      }
      ScanSkips(data, 0, |pending| - 3);
    }
  }

  lemma {:induction false} NoneAfterCut(data: string, n: nat)
    requires n <= |data| && NoneFrom(data, n)
    ensures NoneFrom(data[n..], 0)
  {
    var rest := data[n..];
    assert forall j :: 0 <= j < |rest| ==> rest[j] == data[n + j];
    forall j: nat | j < |rest|
      ensures EndAt(rest, j) == 0
    {
      assert EndAt(data, n + j) == 0;
    }
  }

  /** Whatever precedes it, text up to a terminator ends with an empty line once line
      ends are normalised. */
  lemma {:induction false} TerminatorEndsBlock(data: string, i: nat, end: nat)
    requires end == EndAt(data, i) && end > 0
    ensures var text := Norm(false, data[..end]);
            |text| >= 2 && text[|text| - 1] == LF && text[|text| - 2] == LF
  {
    var pre, pat := data[..i], data[i..end];
    assert data[..end] == pre + pat;
    NormConcat(false, pre, pat);
    var after := SkipAfter(false, pre);
    TerminatorNorm(after, data, i, end);
    if after { NormEndsAfterCr(pre); }
  }

  lemma {:induction false} TerminatorNorm(after: bool, data: string, i: nat, end: nat)
    requires end == EndAt(data, i) && end > 0
    ensures Norm(after, data[i..end]) == if after && data[i] == LF then [LF] else [LF, LF]
  {
    var pat := data[i..end];
    assert Norm(false, [LF]) == [LF] && Norm(true, [LF]) == "" by { assert [LF][1..] == ""; }
    assert Norm(true, [CR]) == [LF] by { assert [CR][1..] == ""; }
    NormCons(false, CR, [LF]);
    assert [CR] + [LF] == [CR, LF];
    if end == i + 2 {
      assert pat == [data[i]] + [data[i + 1]];
      NormCons(after, data[i], [data[i + 1]]);
    } else if end == i + 3 {
      assert pat == [data[i]] + [data[i + 1], data[i + 2]];
      NormCons(after, data[i], [data[i + 1], data[i + 2]]);
      assert [data[i + 1], data[i + 2]] == [data[i + 1]] + [data[i + 2]];
      NormCons(data[i] == CR, data[i + 1], [data[i + 2]]);
    } else {
      assert pat == [CR] + ([LF] + [CR, LF]);
      NormCons(after, CR, [LF] + [CR, LF]);
      NormCons(true, LF, [CR, LF]);
    }
  }

  lemma {:induction false} NormCons(after: bool, c: char, rest: string)
    ensures Norm(after, [c] + rest) == (if (after && c == LF) then "" else [if c == CR then LF else c])
            + Norm(c == CR, rest)
  {
    assert ([c] + rest)[1..] == rest;
  }

  lemma {:induction false} NormEndsAfterCr(s: string)
    requires s != "" && s[|s| - 1] == CR
    ensures Norm(false, s) != "" && Norm(false, s)[|Norm(false, s)| - 1] == LF
  {
    var n := |s| - 1;
    assert s == s[..n] + [CR];
    NormConcat(false, s[..n], [CR]);
    assert [CR][1..] == "";
  }

  // ----- The forwarding loop -----

  /** written: everything sent to the client; sniffer: the parser fed with each write;
      failed: the frame limit was exceeded. */
  datatype Pump = Pump(pending: string, written: string, sniffer: State, failed: bool)

  const Start := Pump("", "", NewState, false)

  function ReadChunk(p: Pump, chunk: string): Pump {
    if p.failed then p
    else
      var data := p.pending + chunk;
      var n := ScanFrom(data, if |p.pending| < 3 then 0 else |p.pending| - 3, 0);
      if n == 0 then Pump(data, p.written, p.sniffer, |data| > MAX_FRAME)
      else Pump(data[n..], p.written + data[..n], FeedState(p.sniffer, data[..n]), |data| - n > MAX_FRAME)
  }

  function Forward(chunks: seq<string>): Pump
    decreases |chunks|
  {
    if chunks == [] then Start else ReadChunk(Forward(chunks[..|chunks| - 1]), chunks[|chunks| - 1])
  }

  class StreamPump {
    var pending: string
    var failed: bool
    var sniffer: Parser
    ghost var written: string

    constructor ()
      ensures Value() == Start && fresh(sniffer)
    {
      pending, failed, written := "", false, "";
      sniffer := new Parser();
    }

    ghost function Value(): Pump
      reads this, sniffer
    {
      Pump(pending, written, sniffer.Value(), failed)
    }

    /** One pass of the read loop; returns the frames written and the events sniffed. */
    method OnRead(chunk: string) returns (frames: string, events: seq<Event>)
      requires !failed
      modifies this, sniffer
      ensures sniffer == old(sniffer)
      ensures Value() == ReadChunk(old(Value()), chunk)
      ensures written == old(written) + frames
      ensures events == if frames == "" then [] else FeedEvents(old(sniffer.Value()), frames)
    {
      var previousPendingLen := |pending|;
      pending := pending + chunk;
      var completeLen := CompletePrefixLen(pending, previousPendingLen - 3);
      ScanFinds(pending, if previousPendingLen < 3 then 0 else previousPendingLen - 3, 0);
      events := [];
      frames := pending[..completeLen];
      if completeLen == 0 && |pending| > MAX_FRAME {
        failed := true;
        return;
      }
      if |frames| > 0 {
        events := sniffer.FeedBytes(frames);
        written := written + frames;
        pending := pending[completeLen..];
        if |pending| > MAX_FRAME {
          failed := true;
        }
      }
    }
  }

  // ----- What holds in every run -----

  ghost predicate EndsWithEmptyLine(text: string) {
    |text| >= 2 && text[|text| - 1] == LF && text[|text| - 2] == LF
  }

  ghost predicate PumpOk(p: Pump) {
    && NoneFrom(p.pending, 0)
    && p.sniffer == FeedState(NewState, p.written)
    && (p.written != "" ==> EndsWithEmptyLine(Norm(false, p.written)))
  }

  /** A terminator found in pending bytes is a terminator of the whole stream. */
  lemma {:induction false} EndAtShifts(pre: string, data: string, i: nat)
    requires EndAt(data, i) > 0
    ensures EndAt(pre + data, |pre| + i) == |pre| + EndAt(data, i)
  {
    assert forall j :: 0 <= j < |data| ==> (pre + data)[|pre| + j] == data[j];
  }

  lemma {:induction false} WriteEndsBlock(written: string, data: string, n: nat)
    requires n == ScanFrom(data, 0, 0) > 0
    ensures EndsWithEmptyLine(Norm(false, written + data[..n]))
  {
    ScanFinds(data, 0, 0);
    var j: nat :| j < n && EndAt(data, j) == n;
    EndAtShifts(written, data, j);
    TerminatorEndsBlock(written + data, |written| + j, |written| + n);
    assert (written + data)[..|written| + n] == written + data[..n];
  }

  lemma {:induction false} ReadKeepsPumpOk(p: Pump, chunk: string)
    requires PumpOk(p)
    ensures PumpOk(ReadChunk(p, chunk))
  {
    var data := p.pending + chunk;
    TailScanSuffices(p.pending, chunk);
    var n := ScanFrom(data, 0, 0);
    ScanFinds(data, 0, 0);
    if !p.failed && n > 0 {
      NoneAfterCut(data, n);
      FeedTwice(NewState, p.written, data[..n]);
      WriteEndsBlock(p.written, data, n);
      var p' := ReadChunk(p, chunk);
      assert p'.pending == data[n..] && p'.written == p.written + data[..n];
      assert p'.sniffer == FeedState(FeedState(NewState, p.written), data[..n]);
    }
  }

  lemma {:induction false} ReadKeepsBytes(p: Pump, chunk: string)
    requires !p.failed
    ensures ReadChunk(p, chunk).written + ReadChunk(p, chunk).pending == p.written + p.pending + chunk
  {
    var data := p.pending + chunk;
    var p' := ReadChunk(p, chunk);
    var n := |data| - |p'.pending|;
    assert p'.written + p'.pending == p.written + data[..n] + data[n..];
  }

  /** How many chunks are read: all, or those up to the one that exceeds the limit. */
  function ReadCount(chunks: seq<string>): nat
    decreases |chunks|
  {
    if chunks == [] then 0
    else if Forward(chunks[..|chunks| - 1]).failed then ReadCount(chunks[..|chunks| - 1]) else |chunks|
  }

  lemma {:induction false} ForwardKeepsPumpOk(chunks: seq<string>)
    ensures PumpOk(Forward(chunks)) && ReadCount(chunks) <= |chunks|
    ensures Forward(chunks).written + Forward(chunks).pending == Concat(chunks[..ReadCount(chunks)])
    decreases |chunks|
  {
    if chunks == [] {
      assert Norm(false, "") == "";
    } else {
      var before := chunks[..|chunks| - 1];
      ForwardKeepsPumpOk(before);
      ReadKeepsPumpOk(Forward(before), chunks[|chunks| - 1]);
      if Forward(before).failed {
        assert before[..ReadCount(before)] == chunks[..ReadCount(chunks)];
      } else {
        assert before[..|before|] == before && chunks[..|chunks|] == chunks;
        ReadKeepsBytes(Forward(before), chunks[|chunks| - 1]);
      }
    }
  }

  /** At every read of every run the tail scan returns what a scan from 0 would. */
  lemma {:induction false} ScanNeverMissesAFrame(chunks: seq<string>, chunk: string)
    ensures var pending := Forward(chunks).pending;
            ScanFrom(pending + chunk, if |pending| < 3 then 0 else |pending| - 3, 0) == ScanFrom(pending + chunk, 0, 0)
  {
    ForwardKeepsPumpOk(chunks);
    TailScanSuffices(Forward(chunks).pending, chunk);
  }

  /** No byte is lost, duplicated or reordered: what was written followed by what is
      pending is what was read, up to and with the read that exceeds the frame limit. */
  lemma {:induction false} NoByteIsLost(chunks: seq<string>)
    ensures ReadCount(chunks) <= |chunks| && (!Forward(chunks).failed ==> ReadCount(chunks) == |chunks|)
    ensures Forward(chunks).written + Forward(chunks).pending == Concat(chunks[..ReadCount(chunks)])
  {
    ForwardKeepsPumpOk(chunks);
  }

  /** No event is torn: a parser fed exactly the written bytes holds nothing but at most
      one line end, and what the sniffer saw is the automaton's reading of them. */
  lemma {:induction false} FramesAreWhole(chunks: seq<string>)
    ensures var p := Forward(chunks);
            && p.sniffer == FeedState(NewState, p.written)
            && (p.sniffer.buf == "" || p.sniffer.buf == [LF])
            && FeedEvents(NewState, p.written) == EmittedAll(Clean, p.written)
  {
    ForwardKeepsPumpOk(chunks);
    var p := Forward(chunks);
    HoldsAtMostALineEnd(p.written);
    OneFeedIsAutomaton(p.written);
  }

  lemma {:induction false} RestOfEndedText(text: string)
    requires text == "" || EndsWithEmptyLine(text)
    ensures Rest(text) == "" || Rest(text) == [LF]
  {
    var rest := Rest(text);
    RestIsSuffix(text);
    assert |rest| >= 2 ==> rest[|rest| - 1] == LF && rest[|rest| - 2] == LF;
    BlankLineIsFirst(rest);
  }

  lemma {:induction false} HoldsAtMostALineEnd(written: string)
    requires written != "" ==> EndsWithEmptyLine(Norm(false, written))
    ensures FeedState(NewState, written).buf == "" || FeedState(NewState, written).buf == [LF]
  {
    assert FullText(NewState, written) == Norm(false, written);
    RestOfEndedText(Norm(false, written));
  }

  lemma {:induction false} OneFeedIsAutomaton(written: string)
    ensures FeedEvents(NewState, written) == EmittedAll(Clean, written)
  {
    assert [written][..0] == [];
    assert Concat([written]) == written;
    ParserIsAutomaton([written]);
    ChunkingIsInvisible(NewState, [written]);
  }

  // ----- What is kept back -----

  /** Reading stays at the start of a line after a CR. */
  predicate LineStart(a: Automaton) { a.afterCr ==> a.line == "" }

  lemma {:induction false} ReadStaysAtStart(a: Automaton, s: string)
    requires LineStart(a)
    ensures LineStart(ReadAll(a, s))
    decreases |s|
  {
    if s != "" { ReadStaysAtStart(Read(a, s[0]), s[1..]); }
  }

  lemma {:induction false} ReadTwo(a: Automaton, s: string)
    requires |s| == 2
    ensures ReadAll(a, s) == Read(Read(a, s[0]), s[1])
  {
    var b, t := Read(a, s[0]), s[1..];
    assert t[0] == s[1] && t[1..] == "";
    assert ReadAll(b, t) == ReadAll(Read(b, t[0]), t[1..]);
  }

  /** After a terminator no data is left over. */
  lemma {:induction false} TerminatorClears(a: Automaton, s: string)
    requires LineStart(a) && IsTerminator(s)
    ensures ReadAll(a, s).data == []
  {
    TerminatorShapes(s);
    var n := |s| - 2;
    assert s == s[..n] + s[n..];
    ReadAllConcat(a, s[..n], s[n..]);
    ReadTwo(ReadAll(a, s[..n]), s[n..]);
    if n == 1 {
      assert ReadAll(a, s[..1]) == Read(a, s[0]) by { assert s[..1][1..] == "" && s[..1][0] == s[0]; }
    } else if n == 2 {
      ReadTwo(a, s[..2]);
    }
  }

  lemma {:induction false} WrittenClears(written: string, data: string, n: nat)
    requires n == ScanFrom(data, 0, 0) > 0
    ensures n <= |data| && ReadAll(Clean, written + data[..n]).data == []
  {
    ScanFinds(data, 0, 0);
    var j: nat :| j < n && EndAt(data, j) == n;
    EndAtIff(data, j, n);
    assert written + data[..n] == (written + data[..j]) + data[j..n];
    ReadAllConcat(Clean, written + data[..j], data[j..n]);
    ReadStaysAtStart(Clean, written + data[..j]);
    TerminatorClears(ReadAll(Clean, written + data[..j]), data[j..n]);
  }

  lemma {:induction false} ForwardClears(chunks: seq<string>)
    ensures ReadAll(Clean, Forward(chunks).written).data == []
    decreases |chunks|
  {
    hide ReadAll, ScanFrom;
    if chunks == [] {
      assert ReadAll(Clean, "") == Clean by { ReadNothing(); }
    } else {
      var p, chunk := Forward(chunks[..|chunks| - 1]), chunks[|chunks| - 1];
      ForwardClears(chunks[..|chunks| - 1]);
      ScanNeverMissesAFrame(chunks[..|chunks| - 1], chunk);
      if !p.failed && ScanFrom(p.pending + chunk, 0, 0) > 0 {
        WrittenClears(p.written, p.pending + chunk, ScanFrom(p.pending + chunk, 0, 0));
      }
    }
  }

  lemma {:induction false} ReadNothing()
    ensures ReadAll(Clean, "") == Clean
  {}

  /** Position of the first event. */
  lemma {:induction false} FirstEmission(a: Automaton, s: string) returns (j: nat)
    requires EmittedAll(a, s) != []
    ensures j < |s| && Emitted(ReadAll(a, s[..j]), s[j]) != []
    decreases |s|
  {
    if Emitted(a, s[0]) != [] {
      j := 0;
    } else {
      j := FirstEmission(Read(a, s[0]), s[1..]);
      assert s[..j + 1][1..] == s[1..][..j] && s[..j + 1][0] == s[0];
      j := j + 1;
    }
  }

  lemma {:induction false} EmittedBy(a: Automaton, s: string, j: nat)
    requires j < |s| && Emitted(ReadAll(a, s[..j]), s[j]) != []
    ensures EmittedAll(a, s[..j + 1]) != []
  {
    assert s[..j + 1] == s[..j] + [s[j]];
    ReadAllConcat(a, s[..j], [s[j]]);
    assert [s[j]][1..] == "";
  }

  /** A CR that ends a line after an LF and is not (yet) followed by an LF: an empty line to
      the parser, not a terminator to the scan. */
  predicate LoneCr(pending: string, i: nat) {
    i + 1 < |pending| && pending[i] == LF && pending[i + 1] == CR && (i + 2 < |pending| ==> pending[i + 2] != LF)
  }

  /** An empty line among bytes without a terminator is ended by such a CR. */
  lemma {:induction false} EmptyLineNeedsLoneCr(a: Automaton, s: string, j: nat)
    requires NoneFrom(s, 0) && a.data == [] && j < |s| && Emitted(ReadAll(a, s[..j]), s[j]) != []
    ensures j > 0 && LoneCr(s, j - 1)
  {
    var b := ReadAll(a, s[..j]);
    assert b.line == "" && b.data != [] && EndsLine(b, s[j]);
    assert j > 0;
    var c := ReadAll(a, s[..j - 1]);
    assert s[..j] == s[..j - 1] + [s[j - 1]];
    ReadAllConcat(a, s[..j - 1], [s[j - 1]]);
    assert b == Read(c, s[j - 1]) by { assert [s[j - 1]][1..] == ""; }
    assert EndAt(s, j - 1) == 0;
    assert s[j - 1] == LF;
  }

  /** The parser that read the written bytes, on the pending ones. */
  lemma {:induction false} PendingEvents(p: Pump, s: string)
    requires p.sniffer == FeedState(NewState, p.written)
    ensures FeedEvents(p.sniffer, s) == EmittedAll(ReadAll(Clean, p.written), s)
  {
    hide EmittedAll, FeedEvents, FeedState;
    FeedTwice(NewState, p.written, s);
    OneFeedIsAutomaton(p.written);
    OneFeedIsAutomaton(p.written + s);
    ReadAllConcat(Clean, p.written, s);
    var x, y, z := FeedEvents(NewState, p.written), FeedEvents(p.sniffer, s), EmittedAll(ReadAll(Clean, p.written), s);
    assert x + y == x + z;
    assert (x + y)[|x|..] == y && (x + z)[|x|..] == z;
  }

  /** In every run, a finished event is kept back if and only if the pending bytes hold a lone
      CR after an LF that finishes one. */
  lemma {:induction false} KeptBackIff(chunks: seq<string>)
    ensures var p := Forward(chunks);
            FeedEvents(p.sniffer, p.pending) != [] <==>
              exists i: nat :: LoneCr(p.pending, i) && FeedEvents(p.sniffer, p.pending[..i + 2]) != []
  {
    hide FeedEvents, EmittedAll, ReadAll, FeedState, Forward;
    var p := Forward(chunks);
    ForwardKeepsPumpOk(chunks);
    ForwardClears(chunks);
    var a := ReadAll(Clean, p.written);
    PendingEvents(p, p.pending);
    if FeedEvents(p.sniffer, p.pending) != [] {
      var j := FirstEmission(a, p.pending);
      EmptyLineNeedsLoneCr(a, p.pending, j);
      EmittedBy(a, p.pending, j);
      PendingEvents(p, p.pending[..j + 1]);
      assert LoneCr(p.pending, j - 1) && p.pending[..j - 1 + 2] == p.pending[..j + 1];
    }
    if i: nat :| LoneCr(p.pending, i) && FeedEvents(p.sniffer, p.pending[..i + 2]) != [] {
      PendingEvents(p, p.pending[..i + 2]);
      assert p.pending == p.pending[..i + 2] + p.pending[i + 2..];
      ReadAllConcat(a, p.pending[..i + 2], p.pending[i + 2..]);
    }
  }

  predicate CrOnlyBeforeLf(s: string) { forall i :: 0 <= i < |s| && s[i] == CR ==> i + 1 < |s| && s[i + 1] == LF }

  /** So where every CR read is followed by its LF, or there is no CR at all, no finished
      event is kept back. */
  lemma {:induction false} NothingKeptBack(chunks: seq<string>)
    requires ReadCount(chunks) <= |chunks| && CrOnlyBeforeLf(Concat(chunks[..ReadCount(chunks)]))
    ensures FeedEvents(Forward(chunks).sniffer, Forward(chunks).pending) == []
  {
    hide FeedEvents, Forward;
    KeptBackIff(chunks);
    NoByteIsLost(chunks);
    var p := Forward(chunks);
    var read := p.written + p.pending;
    assert forall i :: 0 <= i < |p.pending| ==> p.pending[i] == read[|p.written| + i];
    forall i: nat ensures !LoneCr(p.pending, i) {
      if i + 1 < |p.pending| && p.pending[i + 1] == CR { assert read[|p.written| + i + 1] == CR; }
    }
  }

  const HELD := "data:\n\rx"

  lemma {:induction false} HeldIsNotScanned()
    ensures Forward([HELD]) == Pump(HELD, "", NewState, false)
  {
    assert [HELD][..0] == [] && "" + HELD == HELD;
    assert NoneFrom(HELD, 0);
    ScanFinds(HELD, 0, 0);
    hide ScanFrom;
  }

  lemma {:induction false} HeldIsParsed()
    ensures EmittedAll(Clean, HELD) != []
  {
    var t := "data:";
    assert HELD == t + "\n\r" + "x";
    ReadWithinLine(Clean, t);
    assert "" + t == t;
    EndingEmits();
    hide EmittedAll, ReadAll;
    ReadAllConcat(Clean, t, "\n\r");
    ReadAllConcat(Clean, t + "\n\r", "x");
  }

  lemma {:induction false} EndingEmits()
    ensures EmittedAll(Automaton("data:", [], false), "\n\r") != []
  {
    assert "\n\r"[1..] == "\r" && "data:"[..5] == "data:";
    hide TrimSpace, Join;
  }

  /** Otherwise one can be: a stream whose event is complete and stays pending. */
  lemma {:induction false} LoneCrKeepsBack()
    ensures var p := Forward([HELD]); p.written == "" && !p.failed && FeedEvents(p.sniffer, p.pending) != []
  {
    hide Forward, EmittedAll, FeedEvents;
    HeldIsNotScanned();
    HeldIsParsed();
    assert ReadAll(Clean, "") == Clean;
    assert FeedState(NewState, "") == NewState;
    PendingEvents(Forward([HELD]), HELD);
  }

  /** The loop gives up if and only if more than a mebibyte is pending. */
  lemma {:induction false} FailsIffTooLong(chunks: seq<string>)
    ensures Forward(chunks).failed <==> |Forward(chunks).pending| > 1_048_576
    decreases |chunks|
  {
    hide ScanFrom;
    if chunks != [] {
      FailsIffTooLong(chunks[..|chunks| - 1]);
      ScanBound(Forward(chunks[..|chunks| - 1]).pending, chunks[|chunks| - 1]);
    }
  }

  lemma {:induction false} ScanBound(pending: string, chunk: string)
    ensures ScanFrom(pending + chunk, if |pending| < 3 then 0 else |pending| - 3, 0) <= |pending + chunk|
  {}
}
