/** Which call a Responses client sees: the identifiers and names that the Chat frames give
    to a tool call, and when the tool is the one the upstream named. */
module ResponsesCalls {
  import C = ChatStream
  import opened ChatToResponses
  import opened Options
  import opened ResponsesGrammar
  import opened Strings
  import opened ToolNames

  // ----- What the frames say about a call -----

  /** One fragment of a call, with the identifier the stream had when it came. */
  datatype Piece = Piece(id: string, name: string, args: string, stream: string)

  /** The last identifier that a chunk carried. */
  function StreamId(frames: seq<Frame>): string
    decreases |frames|
  {
    if frames == [] then ""
    else
      var f := frames[|frames| - 1];
      if f.Chunk? && f.id != "" then f.id else StreamId(frames[..|frames| - 1])
  }

  function PiecesIn(ds: seq<C.ToolDelta>, k: int, stream: string): seq<Piece>
    decreases |ds|
  {
    if ds == [] then []
    else
      var d := ds[|ds| - 1];
      PiecesIn(ds[..|ds| - 1], k, stream) + if d.index == k then [Piece(d.id, d.name, d.args, stream)] else []
  }

  function PiecesOf(f: Frame, k: int, stream: string): seq<Piece> {
    if f.Chunk? && f.choices != [] then PiecesIn(f.choices[0].tools, k, stream) else []
  }

  /** The fragments of one upstream call, in order. */
  function Pieces(frames: seq<Frame>, k: int): seq<Piece>
    decreases |frames|
  {
    if frames == [] then []
    else Pieces(frames[..|frames| - 1], k) + PiecesOf(frames[|frames| - 1], k, StreamId(frames))
  }

  /** The identifier of the first fragment, or one made from the stream's. */
  function IdFrom(ps: seq<Piece>, k: int): string
    requires ps != []
  {
    if ps[0].id != "" then ps[0].id else "call_" + ResponsesId(ps[0].stream, "msg_") + "_" + IntDecimal(k)
  }

  /** The name after each fragment: the first one that is not empty, restored again by every
      fragment as long as it has no namespace. */
  function NameFrom(names: Names, ps: seq<Piece>): Pair
    decreases |ps|
  {
    if ps == [] then Pair("", "")
    else
      var before := NameFrom(names, ps[..|ps| - 1]);
      var name := if before.name == "" then ps[|ps| - 1].name else before.name;
      if before.namespace == "" then RestoreName(names, name) else Pair(before.namespace, name)
  }

  /** A call is custom once its name was that of a custom tool. */
  predicate CustomFrom(names: Names, ps: seq<Piece>)
    decreases |ps|
  {
    if ps == [] then false
    else
      var name := NameFrom(names, ps).name;
      CustomFrom(names, ps[..|ps| - 1]) || name == "apply_patch" || (names.mapper.Some? && name in names.custom)
  }

  /** A call is announced with the first fragment after which it has a name. */
  predicate Named(names: Names, ps: seq<Piece>)
    decreases |ps|
  {
    ps != [] && (Named(names, ps[..|ps| - 1]) || NameFrom(names, ps).name != "")
  }

  function ArgsFrom(ps: seq<Piece>): string
    decreases |ps|
  {
    if ps == [] then "" else ArgsFrom(ps[..|ps| - 1]) + ps[|ps| - 1].args
  }

  function ItemFrom(names: Names, ps: seq<Piece>, k: int, args: string): Item
    requires ps != []
  {
    var id, p := IdFrom(ps, k), NameFrom(names, ps);
    if CustomFrom(names, ps) then CustomItem(id, p.namespace, p.name, args)
    else FunctionItem(id, p.namespace, p.name, args)
  }

  // ----- The translator's calls against the fragments -----

  predicate CallIs(names: Names, c: Call, k: int, ps: seq<Piece>) {
    && ps != [] && c.callId == IdFrom(ps, k) && Pair(c.namespace, c.name) == NameFrom(names, ps)
    && c.custom == CustomFrom(names, ps) && c.args == ArgsFrom(ps) && c.added == Named(names, ps)
  }

  ghost predicate CallFrom(names: Names, calls: map<int, Call>, k: int, ps: seq<Piece>) {
    if ps == [] then k !in calls else k in calls && CallIs(names, calls[k], k, ps)
  }

  /** The call that a fragment makes of a call. */
  function Advanced(names: Names, c: Call, d: C.ToolDelta): Call {
    var c := Identify(names, c, d); c.(added := c.added || c.name != "", args := c.args + d.args)
  }

  /** The call that a fragment finds, opened by it if it is the first. */
  function Found(m: Machine, d: C.ToolDelta): Call {
    if d.index in m.calls then m.calls[d.index]
    else Call(CallId(m, d), "", d.name, "", m.next, false, false)
  }

  /** The events of a fragment that makes c' of the call c. */
  function FragmentEvents(c: Call, c': Call, args: string): seq<Event> {
    (if c'.added && !c.added then [ItemAdded(c'.index, CallItem(c'.(args := "")))] else [])
    + (if c'.custom then [] else [ArgsDelta(c'.index, c'.callId, args)])
  }

  lemma {:induction false} FeedCallAdvances(m: Machine, d: C.ToolDelta)
    ensures var m', c := FeedCall(m, d), Advanced(m.names, Found(m, d), d);
            && m'.names == m.names && m'.lastId == m.lastId && m'.calls == m.calls[d.index := c]
            && m'.trace == m.trace + FragmentEvents(Found(m, d), c, d.args)
  {
    hide Fragment, Advanced, FragmentEvents, CallId;
    var m1 := OpenCall(m, d);
    FragmentAdvances(m1, d);
    assert m1.calls[d.index] == Found(m, d) && m1.calls[d.index := Advanced(m.names, Found(m, d), d)]
                                               == m.calls[d.index := Advanced(m.names, Found(m, d), d)];
  }

  lemma {:induction false} FragmentAdvances(m: Machine, d: C.ToolDelta)
    requires d.index in m.calls
    ensures var m', c := Fragment(m, d), Advanced(m.names, m.calls[d.index], d);
            && m'.names == m.names && m'.lastId == m.lastId && m'.calls == m.calls[d.index := c]
            && m'.trace == m.trace + FragmentEvents(m.calls[d.index], c, d.args)
  {
    IndexStays(m.names, m.calls[d.index], d);
    hide Identify;
  }

  lemma {:induction false} FirstPiece(names: Names, c: Call, d: C.ToolDelta, k: int, stream: string)
    requires c.callId == IdFrom([Piece(d.id, d.name, d.args, stream)], k)
    requires c.namespace == "" && c.name == d.name && c.args == "" && !c.custom && !c.added
    ensures CallIs(names, Advanced(names, c, d), k, [Piece(d.id, d.name, d.args, stream)])
  {
    hide RestoreName, IntDecimal, ResponsesId;
    var ps := [Piece(d.id, d.name, d.args, stream)];
    assert ps[..0] == [] && NameFrom(names, []) == Pair("", "") && !CustomFrom(names, []) && !Named(names, []);
    assert "" + d.args == d.args && ArgsFrom(ps) == ArgsFrom([]) + d.args;
    assert c.callId != "";
  }

  lemma {:induction false} NextPiece(names: Names, c: Call, d: C.ToolDelta, k: int, ps: seq<Piece>, stream: string)
    requires CallIs(names, c, k, ps)
    ensures CallIs(names, Advanced(names, c, d), k, ps + [Piece(d.id, d.name, d.args, stream)])
  {
    hide RestoreName, IntDecimal, ResponsesId;
    var ps' := ps + [Piece(d.id, d.name, d.args, stream)];
    assert ps'[..|ps|] == ps && ps'[0] == ps[0];
    assert c.callId != "";
  }

  lemma {:induction false} OneMorePiece(m: Machine, d: C.ToolDelta, k: int, ps: seq<Piece>)
    requires CallFrom(m.names, m.calls, k, ps)
    ensures var m' := FeedCall(m, d);
            && m'.names == m.names && m'.lastId == m.lastId
            && CallFrom(m.names, m'.calls, k,
                        ps + if d.index == k then [Piece(d.id, d.name, d.args, m.lastId)] else [])
  {
    hide CallIs, Advanced, FeedCall;
    FeedCallAdvances(m, d);
    var p := Piece(d.id, d.name, d.args, m.lastId);
    if d.index != k {
      assert ps + [] == ps;
    } else if ps == [] {
      assert ps + [p] == [p];
      FirstPiece(m.names, Found(m, d), d, k, m.lastId);
    } else {
      NextPiece(m.names, m.calls[k], d, k, ps, m.lastId);
    }
  }

  lemma {:induction false} MorePieces(m: Machine, ds: seq<C.ToolDelta>, k: int, ps: seq<Piece>)
    requires CallFrom(m.names, m.calls, k, ps)
    ensures var m' := FeedCalls(m, ds);
            && m'.names == m.names && m'.lastId == m.lastId
            && CallFrom(m.names, m'.calls, k, ps + PiecesIn(ds, k, m.lastId))
    decreases |ds|
  {
    hide CallFrom, FeedCall;
    if ds == [] {
      assert ps + [] == ps;
    } else {
      var n := |ds| - 1;
      MorePieces(m, ds[..n], k, ps);
      var before := PiecesIn(ds[..n], k, m.lastId);
      OneMorePiece(FeedCalls(m, ds[..n]), ds[n], k, ps + before);
      var d := ds[n];
      var last := if d.index == k then [Piece(d.id, d.name, d.args, m.lastId)] else [];
      assert ps + before + last == ps + (before + last);
    }
  }

  ghost predicate SameCalls(m: Machine, m': Machine) {
    m'.names == m.names && m'.calls == m.calls && m'.lastId == m.lastId
  }

  lemma {:induction false} ReasoningKeepsCalls(m: Machine, t: string)
    ensures SameCalls(m, FeedReasoning(m, t))
  {}

  lemma {:induction false} TextKeepsCalls(m: Machine, t: string)
    ensures SameCalls(m, FeedText(m, t))
  {}

  /** Every call of the translator is the one its fragments describe. */
  lemma {:induction false} CallsFollow(names: Names, model: string, usage: Usage, frames: seq<Frame>, k: int)
    ensures var m := FeedAll(New(names, model, usage), frames);
            && !m.finished && m.names == names && m.lastId == StreamId(frames)
            && CallFrom(names, m.calls, k, Pieces(frames, k))
    decreases |frames|
  {
    hide CallFrom, FeedCalls, FeedText, FeedReasoning, ResponsesId, ApplyUsage;
    if frames == [] {
      NoCalls(names, model, usage, k);
    } else {
      var n, f := |frames| - 1, frames[|frames| - 1];
      CallsFollow(names, model, usage, frames[..n], k);
      var m := FeedAll(New(names, model, usage), frames[..n]);
      ChunkStarts(names, model, usage, frames);
      var ps := Pieces(frames[..n], k);
      assert ps + [] == ps;
      if !f.Done? { UsageKeepsCalls(m, f.usage); }
      if f.Chunk? && f.choices != [] {
        var m1, c := Start(See(ApplyUsage(m, f.usage), f.id, f.model)), f.choices[0];
        ReasoningKeepsCalls(m1, Reasoning(c));
        TextKeepsCalls(FeedReasoning(m1, Reasoning(c)), c.content);
        MorePieces(FeedText(FeedReasoning(m1, Reasoning(c)), c.content), c.tools, k, ps);
      }
    }
  }

  lemma {:induction false} UsageKeepsCalls(m: Machine, u: Usage)
    ensures ApplyUsage(m, u) == m.(usage := ApplyUsage(m, u).usage)
  {}

  lemma {:induction false} NoCalls(names: Names, model: string, usage: Usage, k: int)
    ensures CallFrom(names, New(names, model, usage).calls, k, [])
  {}

  /** For every sequence of frames, the item finished at the output index of a call has the
      identifier, the name, the kind and the arguments that its fragments give it, and it was
      announced before exactly if they give it a name. */
  lemma {:induction false} CallsAreTold(names: Names, model: string, usage: Usage, frames: seq<Frame>, latest: Usage,
                                        k: int, i: int)
    requires Holds(HearAll(frames).owners, TheCall(k), i)
    ensures Pieces(frames, k) != []
    ensures var slot := ReadSlot(Finish(FeedAll(New(names, model, usage), frames), latest).trace, i);
            && slot.Some? && slot.value.call == IdFrom(Pieces(frames, k), k)
            && slot.value.added.Some? == Named(names, Pieces(frames, k))
            && slot.value.done == Some(ItemFrom(names, Pieces(frames, k), k, ArgsFrom(Pieces(frames, k))))
  {
    hide ReadSlot, FeedAll, HearAll, ApplyUsage, Finish, FinalTrace, Outputs;
    hide Pieces, IdFrom, NameFrom, CustomFrom, ArgsFrom, Named;
    var m0 := FeedAll(New(names, model, usage), frames);
    var m := AfterFinish(names, model, usage, frames, latest);
    UsageOnly(m0, latest);
    CallsFollow(names, model, usage, frames, k);
    assert m.started && SlotOk(ViewOf(m, TheCall(k)), true, ReadSlot(Finish(m0, latest).trace, i));
  }

  // ----- Announcements -----

  predicate CallAdded(ev: Event) { ev.ItemAdded? && IsCallItem(ev.item) }

  /** The item is the call as it was after n fragments, the first after which it had a name. */
  ghost predicate AnnouncedAt(names: Names, ps: seq<Piece>, k: int, item: Item, n: nat) {
    && 0 < n <= |ps| && Named(names, ps[..n]) && !Named(names, ps[..n - 1])
    && item == ItemFrom(names, ps[..n], k, "")
  }

  ghost predicate Announced(names: Names, ps: seq<Piece>, k: int, item: Item) {
    exists n: nat :: AnnouncedAt(names, ps, k, item, n)
  }

  /** The announced item belongs to the call with this output index. */
  ghost predicate Attributed(names: Names, calls: map<int, Call>, ev: Event, pieces: int -> seq<Piece>) {
    && CallAdded(ev)
    && exists k :: k in calls && calls[k].index == ev.index && Announced(names, pieces(k), k, ev.item)
  }

  ghost predicate AllAttributed(m: Machine, pieces: int -> seq<Piece>) {
    && (forall k :: CallFrom(m.names, m.calls, k, pieces(k)))
    && (forall t :: 0 <= t < |m.trace| && CallAdded(m.trace[t]) ==>
          Attributed(m.names, m.calls, m.trace[t], pieces))
  }

  /** More fragments and more calls do not change an announcement. */
  lemma {:induction false} StillAttributed(names: Names, calls: map<int, Call>, calls': map<int, Call>, ev: Event,
                                           pieces: int -> seq<Piece>, pieces': int -> seq<Piece>)
    requires Attributed(names, calls, ev, pieces) && forall k :: pieces(k) <= pieces'(k)
    requires forall k :: k in calls ==> k in calls' && calls'[k].index == calls[k].index
    ensures Attributed(names, calls', ev, pieces')
  {
    hide Named, ItemFrom;
    var k :| k in calls && calls[k].index == ev.index && Announced(names, pieces(k), k, ev.item);
    var n: nat :| AnnouncedAt(names, pieces(k), k, ev.item, n);
    assert pieces'(k)[..n] == pieces(k)[..n] && pieces'(k)[..n - 1] == pieces(k)[..n - 1];
    assert AnnouncedAt(names, pieces'(k), k, ev.item, n);
  }

  lemma {:induction false} FragmentAnnounces(m: Machine, d: C.ToolDelta, pieces: int -> seq<Piece>,
                                             pieces': int -> seq<Piece>)
    requires AllAttributed(m, pieces)
    requires forall k :: pieces'(k) == pieces(k)
                                       + if d.index == k then [Piece(d.id, d.name, d.args, m.lastId)] else []
    ensures AllAttributed(FeedCall(m, d), pieces')
  {
    var c := Advanced(m.names, Found(m, d), d);
    hide FeedCall, CallIs, Named, CustomFrom, NameFrom;
    FeedCallAdvances(m, d);
    var m', k, ps := FeedCall(m, d), d.index, pieces'(d.index);
    forall k ensures CallFrom(m'.names, m'.calls, k, pieces'(k)) { OneMorePiece(m, d, k, pieces(k)); }
    assert c.index == Found(m, d).index by { IndexStays(m.names, Found(m, d), d); }
    forall t | 0 <= t < |m.trace| && CallAdded(m.trace[t]) ensures Attributed(m.names, m'.calls, m.trace[t], pieces') {
      StillAttributed(m.names, m.calls, m'.calls, m.trace[t], pieces, pieces');
    }
    hide Advanced;
    if c.added && !Found(m, d).added {
      assert ps[..|ps|] == ps && ps[..|ps| - 1] == pieces(k);
      CallNow(m.names, c, k, ps);
      NotYet(m, d, pieces(k));
      assert AnnouncedAt(m.names, ps, k, CallItem(c.(args := "")), |ps|);
      assert Attributed(m.names, m'.calls, ItemAdded(c.index, CallItem(c.(args := ""))), pieces');
    }
  }

  lemma {:induction false} IndexStays(names: Names, c: Call, d: C.ToolDelta)
    ensures var c' := Identify(names, c, d); c'.index == c.index && c'.added == c.added && c'.args == c.args
  {
    hide RestoreName;
  }

  lemma {:induction false} CallNow(names: Names, c: Call, k: int, ps: seq<Piece>)
    requires CallIs(names, c, k, ps) && c.added
    ensures Named(names, ps) && CallItem(c.(args := "")) == ItemFrom(names, ps, k, "")
  {}

  lemma {:induction false} NotYet(m: Machine, d: C.ToolDelta, ps: seq<Piece>)
    requires CallFrom(m.names, m.calls, d.index, ps) && !Found(m, d).added
    ensures !Named(m.names, ps)
  {}

  lemma {:induction false} FragmentsAnnounce(m: Machine, ds: seq<C.ToolDelta>, pieces: int -> seq<Piece>,
                                             pieces': int -> seq<Piece>)
    requires AllAttributed(m, pieces) && forall k :: pieces'(k) == pieces(k) + PiecesIn(ds, k, m.lastId)
    ensures AllAttributed(FeedCalls(m, ds), pieces')
    ensures FeedCalls(m, ds).lastId == m.lastId
    decreases |ds|
  {
    hide AllAttributed, FeedCall;
    if ds == [] {
      SamePieces(m, pieces, pieces');
    } else {
      var n, d := |ds| - 1, ds[|ds| - 1];
      var before := k => pieces(k) + PiecesIn(ds[..n], k, m.lastId);
      FragmentsAnnounce(m, ds[..n], pieces, before);
      FeedCallAdvances(FeedCalls(m, ds[..n]), d);
      var last := k => if d.index == k then [Piece(d.id, d.name, d.args, m.lastId)] else [];
      forall k ensures pieces'(k) == before(k) + last(k) {
        assert pieces(k) + (PiecesIn(ds[..n], k, m.lastId) + last(k)) == before(k) + last(k);
      }
      FragmentAnnounces(FeedCalls(m, ds[..n]), d, before, pieces');
    }
  }

  lemma {:induction false} SamePieces(m: Machine, pieces: int -> seq<Piece>, pieces': int -> seq<Piece>)
    requires AllAttributed(m, pieces) && forall k :: pieces'(k) == pieces(k)
    ensures AllAttributed(m, pieces')
  {
    hide CallFrom, Announced;
  }

  /** m' is m with more events, none of which announces a call. */
  ghost predicate Quiet(m: Machine, m': Machine) {
    && SameCalls(m.(lastId := m'.lastId), m') && m.trace <= m'.trace
    && forall t :: |m.trace| <= t < |m'.trace| ==> !CallAdded(m'.trace[t])
  }

  lemma {:induction false} QuietKeeps(m: Machine, m': Machine, pieces: int -> seq<Piece>)
    requires AllAttributed(m, pieces) && Quiet(m, m')
    ensures AllAttributed(m', pieces)
  {
    hide CallFrom, Attributed;
  }

  lemma {:induction false} StartIsQuiet(m: Machine, f: Frame)
    requires f.Chunk?
    ensures Quiet(m, Start(See(ApplyUsage(m, f.usage), f.id, f.model)))
  {
    hide ResponsesId;
  }

  lemma {:induction false} ReasoningIsQuiet(m: Machine, t: string)
    ensures Quiet(m, FeedReasoning(m, t)) && FeedReasoning(m, t).lastId == m.lastId
  {}

  lemma {:induction false} TextIsQuiet(m: Machine, t: string)
    ensures Quiet(m, FeedText(m, t)) && FeedText(m, t).lastId == m.lastId
  {}

  lemma {:induction false} FrameAnnounces(m: Machine, f: Frame, pieces: int -> seq<Piece>,
                                          pieces': int -> seq<Piece>)
    requires AllAttributed(m, pieces) && !m.finished
    requires forall k :: pieces'(k) == pieces(k) + PiecesOf(f, k, Feed(m, f).lastId)
    ensures AllAttributed(Feed(m, f), pieces')
  {
    hide AllAttributed, FeedCalls, FeedText, FeedReasoning, Start, ApplyUsage;
    if f.Chunk? && f.choices != [] {
      var m1, c := Start(See(ApplyUsage(m, f.usage), f.id, f.model)), f.choices[0];
      var m2, m3 := FeedReasoning(m1, Reasoning(c)), FeedText(FeedReasoning(m1, Reasoning(c)), c.content);
      StartIsQuiet(m, f);
      QuietKeeps(m, m1, pieces);
      ReasoningIsQuiet(m1, Reasoning(c));
      QuietKeeps(m1, m2, pieces);
      TextIsQuiet(m2, c.content);
      QuietKeeps(m2, m3, pieces);
      FragmentsAnnounce(m3, c.tools, pieces, k => pieces(k) + PiecesIn(c.tools, k, m3.lastId));
      SamePieces(Feed(m, f), k => pieces(k) + PiecesIn(c.tools, k, m3.lastId), pieces');
    } else {
      if f.Chunk? { StartIsQuiet(m, f); } else if f.Garbled? { UsageKeepsCalls(m, f.usage); }
      QuietKeeps(m, Feed(m, f), pieces);
      SamePieces(Feed(m, f), pieces, pieces');
    }
  }

  lemma {:induction false} FeedsAnnounce(names: Names, model: string, usage: Usage, frames: seq<Frame>,
                                         pieces: int -> seq<Piece>)
    requires forall k :: pieces(k) == Pieces(frames, k)
    ensures AllAttributed(FeedAll(New(names, model, usage), frames), pieces)
    decreases |frames|
  {
    hide AllAttributed, Feed;
    if frames == [] {
      NothingAnnounced(names, model, usage, pieces);
    } else {
      var n, f := |frames| - 1, frames[|frames| - 1];
      var before := k => Pieces(frames[..n], k);
      FeedsAnnounce(names, model, usage, frames[..n], before);
      CallsFollow(names, model, usage, frames[..n], 0);
      CallsFollow(names, model, usage, frames, 0);
      FrameAnnounces(FeedAll(New(names, model, usage), frames[..n]), f, before, pieces);
    }
  }

  lemma {:induction false} NothingAnnounced(names: Names, model: string, usage: Usage, pieces: int -> seq<Piece>)
    requires forall k :: pieces(k) == []
    ensures AllAttributed(New(names, model, usage), pieces)
  {}

  lemma {:induction false} ClosingIsQuiet(m: Machine, cs: seq<Call>)
    ensures Quiet(m, CloseCalls(m, cs))
    decreases |cs|
  {
    if cs != [] { ClosingIsQuiet(m, cs[..|cs| - 1]); }
  }

  lemma {:induction false} FinishIsQuiet(m: Machine, done: Event, completed: Event, t: nat)
    requires !CallAdded(done) && !CallAdded(completed)
    requires t < |FinalTrace(m, done, completed)| && CallAdded(FinalTrace(m, done, completed)[t])
    ensures t < |m.trace| && FinalTrace(m, done, completed)[t] == m.trace[t]
  {
    hide CloseCalls, CallsInOrder;
    var m1, m2 := CloseReasoning(m), CloseText(CloseReasoning(m));
    assert Quiet(m, m1);
    assert Quiet(m1, m2);
    ClosingIsQuiet(m2, CallsInOrder(m.calls));
  }

  /** For every sequence of frames, every call is announced as it is after the first fragment
      that gives it a name, at the output index of that call, and no other call is. */
  lemma {:induction false} AnnouncementsAreTold(names: Names, model: string, usage: Usage, frames: seq<Frame>,
                                                latest: Usage, t: nat) returns (k: int)
    requires var trace := Finish(FeedAll(New(names, model, usage), frames), latest).trace;
             t < |trace| && CallAdded(trace[t])
    ensures var ev := Finish(FeedAll(New(names, model, usage), frames), latest).trace[t];
            Holds(HearAll(frames).owners, TheCall(k), ev.index) && Announced(names, Pieces(frames, k), k, ev.item)
  {
    hide ReadSlot, FeedAll, HearAll, ApplyUsage, FinalTrace, Outputs, AllFinished, SlotsOk, SameWords;
    hide Pieces, Announced, CallFrom;
    var m0 := FeedAll(New(names, model, usage), frames);
    var m := AfterFinish(names, model, usage, frames, latest);
    UsageOnly(m0, latest);
    CallsFollow(names, model, usage, frames, 0);
    var pieces := k => Pieces(frames, k);
    FeedsAnnounce(names, model, usage, frames, pieces);
    FinishIsQuiet(m, ResponseDone(Outputs(m), m.usage), ResponseCompleted(Outputs(m), m.usage), t);
    var ev := m.trace[t];
    k :| k in m.calls && m.calls[k].index == ev.index && Announced(names, pieces(k), k, ev.item);
  }

  // ----- Is it the tool the upstream named? -----

  /** The name under which the upstream knows the i-th registered tool. */
  ghost function SafeName(history: seq<Pair>, i: nat): string
    requires i < |history|
  {
    RestoreGivesFirst(history, i); After(history).forward[Key(history[i])]
  }

  lemma {:induction false} Unnamed(history: seq<Pair>, custom: set<string>, ps: seq<Piece>)
    requires forall l :: 0 <= l < |ps| ==> ps[l].name == ""
    ensures NameFrom(Names(Some(After(history)), custom), ps) == Pair("", "")
    decreases |ps|
  {
    if ps == [] {
    } else {
      Unnamed(history, custom, ps[..|ps| - 1]);
      RestoreDescends(history, "");
    }
  }

  /** What becomes of a tool's name with the fragments after the one that named it. */
  ghost predicate Fate(history: seq<Pair>, tool: Pair, more: nat, now: Pair) {
    if more == 0 || tool.namespace != "" || Restored(After(history), tool.name) == tool then now == tool
    else now.namespace != "" || (now.name != "" && Below(now.name, tool.name))
  }

  lemma {:induction false} NameFollows(history: seq<Pair>, custom: set<string>, i: nat, ps: seq<Piece>, j: nat)
    requires i < |history| && history[i].name != ""
    requires Restored(After(history), SafeName(history, i)) == history[i]
    requires j < |ps| && ps[j].name == SafeName(history, i) && forall l :: 0 <= l < j ==> ps[l].name == ""
    ensures Fate(history, history[i], |ps| - 1 - j, NameFrom(Names(Some(After(history)), custom), ps))
    decreases |ps|
  {
    hide After, Restored, SafeName, Safe;
    var n, m, tool := |ps| - 1, After(history), history[i];
    if n == j {
      Unnamed(history, custom, ps[..n]);
    } else {
      NameFollows(history, custom, i, ps[..n], j);
      RestoreDescends(history, NameFrom(Names(Some(m), custom), ps[..n]).name);
      RestoreDescends(history, tool.name);
    }
  }

  /** A client sees the registered tool whose name the upstream gave (where the mapper restores
      it at all, see RestoreUndoesIff), if and only if the tool has a namespace, or no fragment
      of the call follows the one with the name, or restoring the tool's own name leaves it
      as it is. */
  lemma {:induction false} ToolSurvivesIff(history: seq<Pair>, custom: set<string>, i: nat, ps: seq<Piece>, j: nat)
    requires i < |history| && history[i].name != ""
    requires Restored(After(history), SafeName(history, i)) == history[i]
    requires j < |ps| && ps[j].name == SafeName(history, i) && forall l :: 0 <= l < j ==> ps[l].name == ""
    ensures NameFrom(Names(Some(After(history)), custom), ps) == history[i]
            <==> history[i].namespace != "" || |ps| == j + 1 || Restored(After(history), history[i].name) == history[i]
  {
    NameFollows(history, custom, i, ps, j);
  }

  /** A tool whose name has a dot and no namespace loses it with its second fragment. */
  lemma {:induction false} DottedNameIsSplit()
    ensures var history := [Pair("", "web.search")];
            var named, more := Piece("", SafeName(history, 0), "", "x"), Piece("", "", "{}", "x");
            && NameFrom(Names(Some(After(history)), {}), [named]) == Pair("", "web.search")
            && NameFrom(Names(Some(After(history)), {}), [named, more]) == Pair("web", "search")
  {
    var history := [Pair("", "web.search")];
    var named, more := Piece("", SafeName(history, 0), "", "x"), Piece("", "", "{}", "x");
    DottedIsUnknown(history);
    RoundTrip(history, 0, 0);
    hide After, SafeName, Restored;
    NameFollows(history, {}, 0, [named], 0);
    assert [named, more][..1] == [named];
  }

  lemma {:induction false} DottedIsUnknown(history: seq<Pair>)
    ensures Restored(After(history), "web.search") == Pair("web", "search")
  {
    hide After, SplitName;
    AfterIsValid(history);
    assert "web.search"[3] == '.' && !Safe("web.search");
    SplitsAtLastDot("web.search", "web", "search");
  }

  /** Without a mapper the first name is split at its last dot, whatever follows. */
  lemma {:induction false} UnmappedNameIsSplit(custom: set<string>, ps: seq<Piece>, j: nat)
    requires j < |ps| && ps[j].name != "" && forall l :: 0 <= l < j ==> ps[l].name == ""
    ensures NameFrom(Names(None, custom), ps) == SplitName(ps[j].name) && SplitName(ps[j].name).name != ""
    decreases |ps|
  {
    var n := |ps| - 1;
    var name := ps[j].name;
    SplitsAtLastDot(name, SplitName(name).namespace, SplitName(name).name);
    if n == j {
      UnmappedUnnamed(custom, ps[..n]);
    } else {
      UnmappedNameIsSplit(custom, ps[..n], j);
    }
  }

  lemma {:induction false} UnmappedUnnamed(custom: set<string>, ps: seq<Piece>)
    requires forall l :: 0 <= l < |ps| ==> ps[l].name == ""
    ensures NameFrom(Names(None, custom), ps) == Pair("", "")
    decreases |ps|
  {
    if ps != [] { UnmappedUnnamed(custom, ps[..|ps| - 1]); }
  }

  // ----- The response itself -----

  /** An identifier is brought under a prefix: the Chat prefix is replaced, a missing one is
      made up, one that has the prefix is kept. */
  lemma {:induction false} IdIsPrefixed(rest: string, prefix: string)
    ensures ResponsesId("chatcmpl-" + rest, prefix) == prefix + rest
    ensures ResponsesId("", prefix) == prefix + "mock"
    ensures rest != "" && !HasPrefix(rest, "chatcmpl-") && !HasPrefix(rest, prefix) ==>
              ResponsesId(rest, prefix) == prefix + rest
    ensures prefix + rest != "" && !HasPrefix(prefix + rest, "chatcmpl-") ==>
              ResponsesId(prefix + rest, prefix) == prefix + rest
  {
    assert ("chatcmpl-" + rest)[..9] == "chatcmpl-" && ("chatcmpl-" + rest)[9..] == rest;
    assert (prefix + rest)[..|prefix|] == prefix;
  }

  lemma {:induction false} FeedGrows(m: Machine, f: Frame)
    ensures m.started ==> Feed(m, f).started && m.trace <= Feed(m, f).trace
  {
    hide FeedCalls, FeedText, FeedReasoning, ResponsesId;
    if m.started && !m.finished && f.Chunk? && f.choices != [] {
      var m1, c := Start(See(ApplyUsage(m, f.usage), f.id, f.model)), f.choices[0];
      PartsGrow(m1, Reasoning(c), c.content);
      CallsGrow(FeedText(FeedReasoning(m1, Reasoning(c)), c.content), c.tools);
      FeedIsLive(m, f);
    }
  }

  /** The response is created and in progress under the identifier and the model of the first
      chunk, or of the request if the chunk names no model. */
  lemma {:induction false} ResponseIsHeaded(names: Names, model: string, usage: Usage, frames: seq<Frame>,
                                            latest: Usage, i: nat)
    requires i < |frames| && frames[i].Chunk? && forall l :: 0 <= l < i ==> !frames[l].Chunk?
    ensures var trace := Finish(FeedAll(New(names, model, usage), frames), latest).trace;
            var id := ResponsesId(frames[i].id, "resp_");
            var named := if frames[i].model != "" then frames[i].model else model;
            |trace| >= 2 && trace[0] == Created(id, named) && trace[1] == InProgress(id, named)
  {
    var m0 := FeedAll(New(names, model, usage), frames);
    HeadOfFeeds(names, model, usage, frames, i);
    hide FeedAll, HearAll, ApplyUsage, Outputs, FinalTrace, ResponsesId;
    hide Linked, AllFinished;
    var m := AfterFinish(names, model, usage, frames, latest);
    UsageOnly(m0, latest);
    FeedsAreFramed(names, model, usage, frames);
    FinalFrame(m, ResponseDone(Outputs(m), m.usage), ResponseCompleted(Outputs(m), m.usage));
  }

  lemma {:induction false} HeadOfFeeds(names: Names, model: string, usage: Usage, frames: seq<Frame>, i: nat)
    requires i < |frames| && frames[i].Chunk? && forall l :: 0 <= l < i ==> !frames[l].Chunk?
    ensures var m := FeedAll(New(names, model, usage), frames);
            var id := ResponsesId(frames[i].id, "resp_");
            var named := if frames[i].model != "" then frames[i].model else model;
            && m.started && !m.finished && |m.trace| >= 2
            && m.trace[0] == Created(id, named) && m.trace[1] == InProgress(id, named)
    decreases |frames|
  {
    hide Feed, ResponsesId;
    var n := |frames| - 1;
    ChunkStarts(names, model, usage, frames);
    if i < n {
      HeadOfFeeds(names, model, usage, frames[..n], i);
      FeedGrows(FeedAll(New(names, model, usage), frames[..n]), frames[n]);
    } else {
      BeforeChunks(names, model, usage, frames[..n]);
      FirstChunk(FeedAll(New(names, model, usage), frames[..n]), frames[n]);
    }
  }

  lemma {:induction false} BeforeChunks(names: Names, model: string, usage: Usage, frames: seq<Frame>)
    requires forall l :: 0 <= l < |frames| ==> !frames[l].Chunk?
    ensures var m := FeedAll(New(names, model, usage), frames);
            && !m.started && !m.finished && m.trace == [] && m.lastId == "" && m.lastModel == "" && m.model == model
    decreases |frames|
  {
    if frames != [] { BeforeChunks(names, model, usage, frames[..|frames| - 1]); }
  }

  lemma {:induction false} FirstChunk(m: Machine, f: Frame)
    requires f.Chunk? && !m.started && !m.finished && m.trace == [] && m.lastId == "" && m.lastModel == ""
    ensures var m' := Feed(m, f);
            var id := ResponsesId(f.id, "resp_");
            var named := if f.model != "" then f.model else m.model;
            |m'.trace| >= 2 && m'.trace[0] == Created(id, named) && m'.trace[1] == InProgress(id, named)
  {
    hide FeedCalls, FeedText, FeedReasoning, ResponsesId;
    if f.choices != [] {
      var m1, c := Start(See(ApplyUsage(m, f.usage), f.id, f.model)), f.choices[0];
      PartsGrow(m1, Reasoning(c), c.content);
      CallsGrow(FeedText(FeedReasoning(m1, Reasoning(c)), c.content), c.tools);
    }
  }
}
