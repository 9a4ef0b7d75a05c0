/** The event stream interpretation of section 9.2.6 of the WHATWG HTML Standard, for the data
    field, after the byte order mark has been removed; and exactly when the parser agrees
    with it. The two differ on a line that is just "data", which the standard takes as an
    empty data line and the parser ignores. */
module SseStandard {
  import opened Search
  import opened SseParser
  import opened Strings

  // ----- The standard -----

  /** The line read so far, the data buffer, and whether the last character was a CR. */
  datatype Reading = Reading(line: string, buffer: string, afterCr: bool)

  const Fresh := Reading("", "", false)

  function Colon(line: string): (n: nat)
    ensures n <= |line|
  {
    FirstAt(line, (c: char) => c == ':')
  }

  function FieldName(line: string): string { line[..Colon(line)] }

  /** What follows the colon, without one leading space; empty if there is no colon. */
  function FieldText(line: string): string {
    var n := Colon(line);
    if n == |line| then ""
    else if n + 1 < |line| && line[n + 1] == ' ' then line[n + 2..]
    else line[n + 1..]
  }

  predicate IsLineEnd(r: Reading, c: char) { c == '\r' || (c == '\n' && !r.afterCr) }

  function StandardRead(r: Reading, c: char): Reading {
    if !IsLineEnd(r, c) then (if c == '\n' then r.(afterCr := false) else r.(line := r.line + [c], afterCr := false))
    else if r.line == "" then Reading("", "", c == '\r')
    else if FieldName(r.line) == "data" then Reading("", r.buffer + FieldText(r.line) + "\n", c == '\r')
    else Reading("", r.buffer, c == '\r')
  }

  /** An empty line dispatches the buffer, less its last line end, unless it is empty. */
  function StandardEmits(r: Reading, c: char): seq<string> {
    if IsLineEnd(r, c) && r.line == "" && r.buffer != "" then [r.buffer[..|r.buffer| - 1]] else []
  }

  /** The data of the events dispatched. */
  function StandardEvents(r: Reading, s: string): seq<string>
    decreases |s|
  {
    if s == "" then [] else StandardEmits(r, s[0]) + StandardEvents(StandardRead(r, s[0]), s[1..])
  }

  // ----- Lines that are just "data" -----

  /** How many there are in the block being read. */
  function Bare(a: Automaton, bare: nat, c: char): nat {
    if !EndsLine(a, c) then bare else if a.line == "" then 0 else if a.line == "data" then bare + 1 else bare
  }

  /** A block with such a line is ended by an empty line. */
  predicate BareDispatched(a: Automaton, bare: nat, s: string)
    decreases |s|
  {
    && s != ""
    && ((EndsLine(a, s[0]) && a.line == "" && bare > 0) || BareDispatched(Read(a, s[0]), Bare(a, bare, s[0]), s[1..]))
  }

  // ----- Comparing the two -----

  function Datas(events: seq<Event>): seq<string> {
    seq(|events|, i requires 0 <= i < |events| => events[i].data)
  }

  /** The data lines, each with its line end. */
  function Buffer(data: seq<string>): string
    decreases |data|
  {
    if data == [] then "" else Buffer(data[..|data| - 1]) + data[|data| - 1] + "\n"
  }

  lemma {:induction false} BufferFirst(data: seq<string>)
    requires data != []
    ensures Buffer(data) == data[0] + "\n" + Buffer(data[1..])
    decreases |data|
  {
    var n := |data| - 1;
    if n > 0 {
      assert data[..n][1..] == data[1..][..n - 1] && data[..n][0] == data[0];
      BufferFirst(data[..n]);
    }
  }

  lemma {:induction false} BufferIsJoin(data: seq<string>)
    requires data != []
    ensures Buffer(data) == Join(data) + "\n"
    decreases |data|
  {
    BufferFirst(data);
    if |data| > 1 {
      BufferIsJoin(data[1..]);
      assert data[0] + "\n" + (Join(data[1..]) + "\n") == data[0] + [LF] + Join(data[1..]) + "\n";
    } else {
      assert data[1..] == [];
      assert data[0] + "\n" + "" == data[0] + "\n";
    }
  }

  lemma {:induction false} FieldIsData(line: string)
    ensures FieldName(line) == "data" <==> HasPrefix(line, "data:") || line == "data"
    ensures HasPrefix(line, "data:") ==> FieldText(line) == FieldValue(line)
    ensures line == "data" ==> FieldText(line) == "" && !HasPrefix(line, "data:")
  {
    var n := Colon(line);
    assert |line| >= 5 ==> line[..5] == line[..4] + [line[4]];
    assert |line| == 4 ==> line[..4] == line;
    if HasPrefix(line, "data:") {
      assert forall i :: 0 <= i < 5 ==> line[i] == line[..5][i];
      assert line[4] == ':' && line[0] != ':' && line[1] != ':' && line[2] != ':' && line[3] != ':';
      assert n == 4;
      assert line[..4] == line[..5][..4];
      var rest := line[5..];
      assert |rest| > 0 ==> rest[..1] == [rest[0]];
    } else if FieldName(line) == "data" {
      assert n == 4;
    }
    if line == "data" { assert forall i :: 0 <= i < 4 ==> line[i] != ':'; }
  }

  function Weight(datas: seq<string>): nat {
    if datas == [] then 0 else |datas[0]| + 1 + Weight(datas[1..])
  }

  lemma {:induction false} WeightConcat(a: seq<string>, b: seq<string>)
    ensures Weight(a + b) == Weight(a) + Weight(b)
  {
    if a == [] {
      assert a + b == b;
    } else {
      assert (a + b)[1..] == a[1..] + b;
      WeightConcat(a[1..], b);
    }
  }

  /** The standard has read the same line, and one more empty data line for each bare one. */
  ghost predicate Ahead(a: Automaton, r: Reading, bare: nat) {
    && r.line == a.line && r.afterCr == a.afterCr
    && |r.buffer| == |Buffer(a.data)| + bare && (bare == 0 ==> r.buffer == Buffer(a.data))
  }

  lemma {:induction false} ReadStaysAhead(a: Automaton, r: Reading, bare: nat, c: char)
    requires Ahead(a, r, bare)
    ensures Ahead(Read(a, c), StandardRead(r, c), Bare(a, bare, c))
  {
    hide FieldValue, FieldText, FieldName, HasPrefix;
    FieldIsData(a.line);
    var more := a.data + [FieldValue(a.line)];
    assert more[..|more| - 1] == a.data;
  }

  /** The events are the same as long as no block with a bare line is dispatched; after
      that the standard's are longer. */
  lemma {:induction false} StandardIsAhead(a: Automaton, r: Reading, bare: nat, s: string)
    requires Ahead(a, r, bare)
    ensures if BareDispatched(a, bare, s) then Weight(StandardEvents(r, s)) > Weight(Datas(EmittedAll(a, s)))
            else StandardEvents(r, s) == Datas(EmittedAll(a, s))
    decreases |s|
  {
    if s != "" {
      hide Ahead, StandardEmits, StandardRead, Emitted, Read, Weight;
      var c := s[0];
      ReadStaysAhead(a, r, bare, c);
      StandardIsAhead(Read(a, c), StandardRead(r, c), Bare(a, bare, c), s[1..]);
      var first, rest := Emitted(a, c), EmittedAll(Read(a, c), s[1..]);
      assert Datas(first + rest) == Datas(first) + Datas(rest);
      WeightConcat(Datas(first), Datas(rest));
      WeightConcat(StandardEmits(r, c), StandardEvents(StandardRead(r, c), s[1..]));
      FirstIsAhead(a, r, bare, c);
    }
  }

  lemma {:induction false} FirstIsAhead(a: Automaton, r: Reading, bare: nat, c: char)
    requires Ahead(a, r, bare)
    ensures if EndsLine(a, c) && a.line == "" && bare > 0
            then Weight(StandardEmits(r, c)) > Weight(Datas(Emitted(a, c)))
            else StandardEmits(r, c) == Datas(Emitted(a, c))
    ensures Weight(StandardEmits(r, c)) >= Weight(Datas(Emitted(a, c)))
  {
    hide TrimSpace, Join, Buffer;
    assert Buffer([]) == "" by { NoBuffer(); }
    if a.data != [] { BufferIsJoin(a.data); }
    if EndsLine(a, c) && a.line == "" {
      OneWeight(r.buffer[..if r.buffer == "" then 0 else |r.buffer| - 1]);
      OneWeight(Join(a.data));
      var events := Dispatch(a.data);
      assert Datas(events) == if a.data == [] then [] else [Join(a.data)];
    }
  }

  lemma {:induction false} NoBuffer()
    ensures Buffer([]) == ""
  {}

  lemma {:induction false} OneWeight(s: string)
    ensures Weight([s]) == |s| + 1 && Weight([]) == 0
  {
    assert [s][1..] == [];
  }

  /** However the bytes are cut, the parser returns the events of the standard if and only if
      no block that has a line just "data" is ended by an empty line. */
  lemma {:induction false} ParserMeetsStandardIff(chunks: seq<string>)
    ensures Datas(FeedAllEvents(NewState, chunks)) == StandardEvents(Fresh, Concat(chunks))
            <==> !BareDispatched(Clean, 0, Concat(chunks))
  {
    ParserIsAutomaton(chunks);
    StandardIsAhead(Clean, Fresh, 0, Concat(chunks));
  }

  /** A block that is just such a line: the standard has an event with no data, the parser
      none. */
  lemma {:induction false} BareDataIsMissed()
    ensures BareDispatched(Clean, 0, "data\n\n")
    ensures Datas(FeedAllEvents(NewState, ["data\n\n"])) != StandardEvents(Fresh, "data\n\n")
  {
    hide FeedAllEvents, StandardEvents;
    var s := "data\n\n";
    var a4 := Automaton("data", [], false);
    assert s[1..][1..][1..] == "a\n\n" && s[1..][1..] == "ta\n\n" && "a\n\n"[1..] == "\n\n";
    assert BareDispatched(a4, 0, "\n\n") by { assert "\n\n"[1..] == "\n"; }
    assert BareDispatched(Automaton("dat", [], false), 0, "a\n\n");
    assert BareDispatched(Automaton("da", [], false), 0, "ta\n\n");
    assert BareDispatched(Automaton("d", [], false), 0, s[1..]);
    var chunks: seq<string> := [s];
    assert Concat(chunks) == s by { assert chunks[..0] == [] && "" + s == s; }
    ParserMeetsStandardIff(chunks);
  }

  // ----- The sentinel -----

  ghost predicate Blank(s: string) { forall i :: 0 <= i < |s| ==> IsSpace(s[i]) }

  /** "[DONE]" with nothing but white space around it. */
  ghost predicate IsSentinel(s: string) {
    exists i: nat :: i + 6 <= |s| && Blank(s[..i]) && s[i..i + 6] == "[DONE]" && Blank(s[i + 6..])
  }

  lemma {:induction false} TrimSpaceIs(s: string) returns (i: nat, j: nat)
    ensures i <= j <= |s| && TrimSpace(s) == s[i..j] && Blank(s[..i]) && Blank(s[j..])
    ensures i < j ==> !IsSpace(s[i]) && !IsSpace(s[j - 1])
    decreases |s|
  {
    hide IsSpace;
    if s == "" {
      i, j := 0, 0;
    } else if IsSpace(s[0]) {
      var i', j' := TrimSpaceIs(s[1..]);
      i, j := i' + 1, j' + 1;
      assert s[i..j] == s[1..][i'..j'] && s[j..] == s[1..][j'..] && s[..i] == [s[0]] + s[1..][..i'];
    } else if IsSpace(s[|s| - 1]) {
      i, j := TrimSpaceIs(s[..|s| - 1]);
      assert s[i..j] == s[..|s| - 1][i..j] && s[j..] == s[..|s| - 1][j..] + [s[|s| - 1]] && s[..i] == s[..|s| - 1][..i];
    } else {
      i, j := 0, |s|;
      assert s[0..|s|] == s;
    }
  }

  lemma {:induction false} SentinelIff(s: string)
    ensures TrimSpace(s) == "[DONE]" <==> IsSentinel(s)
  {
    var i, j := TrimSpaceIs(s);
    assert forall x :: 0 <= x < i ==> IsSpace(s[x]) && s[x] == s[..i][x];
    assert forall x :: j <= x < |s| ==> IsSpace(s[x]) && s[x] == s[j..][x - j];
    if TrimSpace(s) == "[DONE]" {
      assert j == i + 6;
    }
    if k: nat :| k + 6 <= |s| && Blank(s[..k]) && s[k..k + 6] == "[DONE]" && Blank(s[k + 6..]) {
      assert s[k] == s[k..k + 6][0] && s[k + 5] == s[k..k + 6][5];
      assert !IsSpace(s[k]) && !IsSpace(s[k + 5]);
      assert forall x :: 0 <= x < k ==> IsSpace(s[x]) && s[x] == s[..k][x];
      assert forall x :: k + 6 <= x < |s| ==> IsSpace(s[x]) && s[x] == s[k + 6..][x - (k + 6)];
      assert i == k && j == k + 6;
    }
  }

  ghost predicate Marked(events: seq<Event>) {
    forall i :: 0 <= i < |events| ==> (events[i].done <==> IsSentinel(events[i].data))
  }

  lemma {:induction false} EmittedAreMarked(a: Automaton, s: string)
    ensures Marked(EmittedAll(a, s))
    decreases |s|
  {
    if s != "" {
      EmittedAreMarked(Read(a, s[0]), s[1..]);
      if a.data != [] { SentinelIff(Join(a.data)); }
      hide TrimSpace, IsSentinel, Join;
      assert Marked(Emitted(a, s[0]));
    }
  }

  /** The events marked as the end of the stream are those whose data is the sentinel. */
  lemma {:induction false} DoneMarksSentinel(chunks: seq<string>)
    ensures Marked(FeedAllEvents(NewState, chunks))
  {
    ParserIsAutomaton(chunks);
    EmittedAreMarked(Clean, Concat(chunks));
  }
}
