/** A reader for Responses event streams, output index by output index, and the proof that
    it accepts every trace of the Chat translator and finds in every output item exactly
    what the Chat frames said. */
module ResponsesGrammar {
  import C = ChatStream
  import opened ChatToResponses
  import opened Options
  import opened Ordering

  // ----- Reading one output index -----

  /** What was read at one output index: the item announced, whether its content part was,
      the call its events name ("" if none did), the deltas joined in order, how many closing
      events, the finished item. */
  datatype Slot = Slot(added: Option<Item>, part: bool, call: string, deltas: string, closing: nat,
                       done: Option<Item>)

  const Unused := Slot(None, false, "", "", 0, None)

  predicate IsCallItem(item: Item) { item.FunctionItem? || item.CustomItem? }

  /** An item is announced at most once, a text item before its part, its part before its
      deltas; closing events repeat the joined deltas; the finished item comes last and
      once and carries the joined deltas. All events of a call name the same call. Custom
      calls have no closing event. None is a violation. */
  function Accept(s: Slot, ev: Event): Option<Slot>
    requires Indexed(ev)
  {
    match ev
    case ItemAdded(_, item) =>
      if s.added == None && s.closing == 0 && s.done == None
         && (if IsCallItem(item) then Agrees(s, item.callId) else s == Unused)
      then Some(s.(added := Some(item), call := CallOf(item))) else None
    case PartAdded(_) =>
      if s.added.Some? && !IsCallItem(s.added.value) && !s.part && s.deltas == "" && s.closing == 0 && s.done == None
      then Some(s.(part := true)) else None
    case TextDelta(_, t) => Delta(s, true, t)
    case ReasoningDelta(_, t) => Delta(s, true, t)
    case ArgsDelta(_, id, t) => if Agrees(s, id) then Delta(s.(call := id), false, t) else None
    case TextDone(_, t) => Closing(s, true, 0, t)
    case ReasoningDone(_, t) => Closing(s, true, 0, t)
    case PartDone(_, t) => Closing(s, true, 1, t)
    case ArgsDone(_, id, t) => if Agrees(s, id) then Closing(s.(call := id), false, 0, t) else None
    case ItemDone(_, item) =>
      if s.done == None && MayFinish(s, item) then Some(s.(call := CallOf(item), done := Some(item))) else None
  }

  predicate Indexed(ev: Event) {
    !ev.Created? && !ev.InProgress? && !ev.ResponseDone? && !ev.ResponseCompleted?
  }

  function Delta(s: Slot, part: bool, t: string): Option<Slot> {
    if s.part == part && s.closing == 0 && s.done == None then Some(s.(deltas := s.deltas + t)) else None
  }

  function Closing(s: Slot, part: bool, n: nat, t: string): Option<Slot> {
    if s.part == part && s.closing == n && s.done == None && t == s.deltas then Some(s.(closing := n + 1)) else None
  }

  predicate MayFinish(s: Slot, item: Item) {
    match item
    case ReasoningItem(t) => s.added == Some(ReasoningItem("")) && s.part && s.closing == 2 && t == s.deltas
    case MessageItem(t) => s.added == Some(MessageItem("")) && s.part && s.closing == 2 && t == s.deltas
    case FunctionItem(id, _, _, args) => !s.part && s.closing == 1 && args == s.deltas && Agrees(s, id)
    case CustomItem(id, _, _, _) => !s.part && s.closing == 0 && Agrees(s, id)
  }

  predicate Agrees(s: Slot, id: string) { s.call == "" || s.call == id }

  function CallOf(item: Item): string { if IsCallItem(item) then item.callId else "" }

  function ReadSlot(trace: seq<Event>, i: int): Option<Slot>
    decreases |trace|
  {
    if trace == [] then Some(Unused)
    else
      var s, ev := ReadSlot(trace[..|trace| - 1], i), trace[|trace| - 1];
      if s == None || !Indexed(ev) || ev.index != i then s else Accept(s.value, ev)
  }

  lemma {:induction false} ReadOneMore(trace: seq<Event>, ev: Event, i: int)
    ensures ReadSlot(trace + [ev], i)
            == var s := ReadSlot(trace, i);
               if s == None || !Indexed(ev) || ev.index != i then s else Accept(s.value, ev)
  {
    assert (trace + [ev])[..|trace|] == trace;
  }

  // ----- What the frames say -----

  datatype Owner = TheReasoning | TheText | TheCall(index: int)

  /** The items in order of first appearance, and what was said about each. */
  datatype Said = Said(owners: seq<Owner>, text: string, reasoning: string, args: map<int, string>)

  const Nothing := Said([], "", "", map[])

  function Claim(owners: seq<Owner>, o: Owner): seq<Owner> { if o in owners then owners else owners + [o] }

  function HearReasoning(u: Said, t: string): Said {
    if t == "" then u else u.(owners := Claim(u.owners, TheReasoning), reasoning := u.reasoning + t)
  }

  function HearText(u: Said, t: string): Said {
    if t == "" then u else u.(owners := Claim(u.owners, TheText), text := u.text + t)
  }

  function ArgsAt(u: Said, k: int): string { if k in u.args then u.args[k] else "" }

  function HearCall(u: Said, d: C.ToolDelta): Said {
    u.(owners := Claim(u.owners, TheCall(d.index)), args := u.args[d.index := ArgsAt(u, d.index) + d.args])
  }

  function HearCalls(u: Said, ds: seq<C.ToolDelta>): Said
    decreases |ds|
  {
    if ds == [] then u else HearCall(HearCalls(u, ds[..|ds| - 1]), ds[|ds| - 1])
  }

  function Hear(u: Said, f: Frame): Said {
    if f.Chunk? && f.choices != [] then
      var c := f.choices[0];
      HearCalls(HearText(HearReasoning(u, Reasoning(c)), c.content), c.tools)
    else u
  }

  function HearAll(frames: seq<Frame>): Said
    decreases |frames|
  {
    if frames == [] then Nothing else Hear(HearAll(frames[..|frames| - 1]), frames[|frames| - 1])
  }

  // ----- The translator's state against the trace and the frames -----

  /** What the state holds for one item. */
  datatype View = TextView(text: string) | ReasoningView(text: string) | CallView(call: Call) | NoView

  function ViewOf(m: Machine, o: Owner): View {
    match o
    case TheText => TextView(m.text)
    case TheReasoning => ReasoningView(m.reasoning)
    case TheCall(k) => if k in m.calls then CallView(m.calls[k]) else NoView
  }

  /** The slot of an item that is still open, or closed. */
  predicate SlotOk(v: View, closed: bool, s: Option<Slot>) {
    && s.Some?
    && match v
       case TextView(t) => s.value == PartSlot(MessageItem(""), t, closed, MessageItem(t))
       case ReasoningView(t) => s.value == PartSlot(ReasoningItem(""), t, closed, ReasoningItem(t))
       case CallView(c) => CallSlotOk(c, closed, s.value)
       case NoView => false
  }

  function PartSlot(added: Item, t: string, closed: bool, item: Item): Slot {
    Slot(Some(added), true, "", t, if closed then 2 else 0, if closed then Some(item) else None)
  }

  predicate CallSlotOk(c: Call, closed: bool, s: Slot) {
    && c.callId != "" && !s.part
    && s.added.Some? == c.added && Agrees(s, c.callId) && (closed ==> s.call == c.callId)
    && s.closing == (if closed && !c.custom then 1 else 0)
    && s.done == (if closed then Some(CallItem(c)) else None)
    && (if c.custom then s.deltas <= c.args else s.deltas == c.args)
  }

  ghost predicate Distinct(owners: seq<Owner>) {
    forall i, j :: 0 <= i < j < |owners| ==> owners[i] != owners[j]
  }

  ghost predicate Holds(owners: seq<Owner>, o: Owner, i: int) { 0 <= i < |owners| && owners[i] == o }

  ghost predicate CallsPlaced(calls: map<int, Call>, owners: seq<Owner>) {
    && (forall k :: k in calls ==> Holds(owners, TheCall(k), calls[k].index))
    && (forall i :: 0 <= i < |owners| && owners[i].TheCall? ==> owners[i].index in calls)
  }

  /** The output indices are the positions in the order of first appearance. */
  ghost predicate Placed(m: Machine, owners: seq<Owner>) {
    && m.next == |owners| && Distinct(owners)
    && m.messageAdded == (TheText in owners) && (m.messageAdded ==> Holds(owners, TheText, m.textIndex))
    && m.reasoningAdded == (TheReasoning in owners)
       && (m.reasoningAdded ==> Holds(owners, TheReasoning, m.reasoningIndex))
    && CallsPlaced(m.calls, owners)
  }

  ghost predicate SameWords(m: Machine, u: Said) {
    && m.text == u.text && m.reasoning == u.reasoning
    && (!m.messageAdded ==> m.text == "") && (!m.reasoningAdded ==> m.reasoning == "")
    && (forall k :: k in m.calls <==> k in u.args)
    && (forall k :: k in m.calls ==> m.calls[k].args == u.args[k])
  }

  ghost predicate SlotsOk(m: Machine, owners: seq<Owner>, closed: set<Owner>) {
    && (forall i :: 0 <= i < |owners| ==> SlotOk(ViewOf(m, owners[i]), owners[i] in closed, ReadSlot(m.trace, i)))
    && (forall i :: !(0 <= i < |owners|) ==> ReadSlot(m.trace, i) == Some(Unused))
  }

  ghost predicate Linked(m: Machine, u: Said) {
    Placed(m, u.owners) && SameWords(m, u) && SlotsOk(m, u.owners, {})
  }

  /** Events at index j, of the item there, leave the other slots as they are. */
  lemma {:induction false} SlotsKept(m: Machine, owners: seq<Owner>, closed: set<Owner>,
                                     m': Machine, owners': seq<Owner>, closed': set<Owner>, j: int)
    requires SlotsOk(m, owners, closed) && owners <= owners' && |owners'| <= |owners| + 1 && Distinct(owners')
    requires 0 <= j < |owners'| && (|owners'| > |owners| ==> j == |owners|)
    requires forall o :: o in owners && o != owners'[j] ==>
             ViewOf(m', o) == ViewOf(m, o) && (o in closed <==> o in closed')
    requires forall i :: i != j ==> ReadSlot(m'.trace, i) == ReadSlot(m.trace, i)
    requires SlotOk(ViewOf(m', owners'[j]), owners'[j] in closed', ReadSlot(m'.trace, j))
    ensures SlotsOk(m', owners', closed')
  {
    hide SlotOk, ReadSlot, ViewOf;
    forall i | 0 <= i < |owners'|
      ensures SlotOk(ViewOf(m', owners'[i]), owners'[i] in closed', ReadSlot(m'.trace, i))
    {
      if i != j {
        assert owners[i] == owners'[i] && owners[i] in owners;
      }
    }
  }

  /** Events without an output index, or at another one, do not touch a slot. */
  lemma {:induction false} OtherSlots(trace: seq<Event>, ev: Event)
    ensures forall i :: !Indexed(ev) || i != ev.index ==> ReadSlot(trace + [ev], i) == ReadSlot(trace, i)
  {
    forall i | !Indexed(ev) || i != ev.index
      ensures ReadSlot(trace + [ev], i) == ReadSlot(trace, i)
    {
      ReadOneMore(trace, ev, i);
    }
  }

  lemma {:induction false} ClaimIsDistinct(owners: seq<Owner>, o: Owner)
    requires Distinct(owners)
    ensures Distinct(Claim(owners, o)) && o in Claim(owners, o) && owners <= Claim(owners, o)
    ensures o !in owners ==> Holds(Claim(owners, o), o, |owners|)
    ensures forall p, i :: Holds(owners, p, i) ==> Holds(Claim(owners, o), p, i)
    ensures forall p :: p in Claim(owners, o) <==> p == o || p in owners
  {
    assert o !in owners ==> (owners + [o])[|owners|] == o;
  }

  /** A text item starts empty. */
  lemma {:induction false} OpenSlot(trace: seq<Event>, j: int, item: Item)
    requires ReadSlot(trace, j) == Some(Unused) && !IsCallItem(item)
    ensures var trace' := trace + [ItemAdded(j, item)] + [PartAdded(j)];
            && ReadSlot(trace', j) == Some(Slot(Some(item), true, "", "", 0, None))
            && forall i :: i != j ==> ReadSlot(trace', i) == ReadSlot(trace, i)
  {
    hide ReadSlot;
    ReadOneMore(trace, ItemAdded(j, item), j);
    ReadOneMore(trace + [ItemAdded(j, item)], PartAdded(j), j);
    OtherSlots(trace, ItemAdded(j, item));
    OtherSlots(trace + [ItemAdded(j, item)], PartAdded(j));
  }

  lemma {:induction false} DeltaSlot(trace: seq<Event>, j: int, added: Item, t: string, more: string, ev: Event,
                                     item: Item)
    requires ReadSlot(trace, j) == Some(Slot(Some(added), true, "", t, 0, None))
    requires ev == TextDelta(j, more) || ev == ReasoningDelta(j, more)
    ensures ReadSlot(trace + [ev], j) == Some(PartSlot(added, t + more, false, item))
    ensures forall i :: i != j ==> ReadSlot(trace + [ev], i) == ReadSlot(trace, i)
  {
    hide ReadSlot;
    ReadOneMore(trace, ev, j);
    OtherSlots(trace, ev);
  }

  // ----- Reasoning and text -----

  lemma {:induction false} OpenReasoningLinks(m: Machine, u: Said)
    requires Linked(m, u)
    ensures Linked(OpenReasoning(m), u.(owners := Claim(u.owners, TheReasoning))) && OpenReasoning(m).reasoningAdded
  {
    hide ReadSlot, CallSlotOk;
    var owners' := Claim(u.owners, TheReasoning);
    if !m.reasoningAdded {
      var m' := OpenReasoning(m);
      ClaimIsDistinct(u.owners, TheReasoning);
      OpenSlot(m.trace, m.next, ReasoningItem(""));
      SlotsKept(m, u.owners, {}, m', owners', {}, m.next);
      ReasoningPlaced(m, u.owners);
    }
  }

  lemma {:induction false} ReasoningPlaced(m: Machine, owners: seq<Owner>)
    requires Placed(m, owners) && !m.reasoningAdded
    ensures Placed(OpenReasoning(m), Claim(owners, TheReasoning))
  {
    ClaimIsDistinct(owners, TheReasoning);
  }

  lemma {:induction false} ReasoningLinks(m: Machine, u: Said, t: string)
    requires Linked(m, u)
    ensures Linked(FeedReasoning(m, t), HearReasoning(u, t))
  {
    if t != "" {
      hide ReadSlot, CallSlotOk, OpenReasoning, Claim, Distinct, CallsPlaced, Accept;
      OpenReasoningLinks(m, u);
      var m1, owners := OpenReasoning(m), Claim(u.owners, TheReasoning);
      var j, m2 := m1.reasoningIndex, FeedReasoning(m, t);
      assert SlotOk(ViewOf(m1, owners[j]), false, ReadSlot(m1.trace, j));
      DeltaSlot(m1.trace, j, ReasoningItem(""), m1.reasoning, t, ReasoningDelta(j, t), ReasoningItem(m2.reasoning));
      SlotsKept(m1, owners, {}, m2, owners, {}, j);
    }
  }

  lemma {:induction false} OpenTextLinks(m: Machine, u: Said)
    requires Linked(m, u)
    ensures Linked(OpenText(m), u.(owners := Claim(u.owners, TheText))) && OpenText(m).messageAdded
  {
    hide ReadSlot, CallSlotOk;
    var owners' := Claim(u.owners, TheText);
    if !m.messageAdded {
      var m' := OpenText(m);
      ClaimIsDistinct(u.owners, TheText);
      OpenSlot(m.trace, m.next, MessageItem(""));
      SlotsKept(m, u.owners, {}, m', owners', {}, m.next);
      TextPlaced(m, u.owners);
    }
  }

  lemma {:induction false} TextPlaced(m: Machine, owners: seq<Owner>)
    requires Placed(m, owners) && !m.messageAdded
    ensures Placed(OpenText(m), Claim(owners, TheText))
  {
    ClaimIsDistinct(owners, TheText);
  }

  lemma {:induction false} TextLinks(m: Machine, u: Said, t: string)
    requires Linked(m, u)
    ensures Linked(FeedText(m, t), HearText(u, t))
  {
    if t != "" {
      hide ReadSlot, CallSlotOk, OpenText, Claim, Distinct, CallsPlaced, Accept;
      OpenTextLinks(m, u);
      var m1, owners := OpenText(m), Claim(u.owners, TheText);
      var j, m2 := m1.textIndex, FeedText(m, t);
      assert SlotOk(ViewOf(m1, owners[j]), false, ReadSlot(m1.trace, j));
      DeltaSlot(m1.trace, j, MessageItem(""), m1.text, t, TextDelta(j, t), MessageItem(m2.text));
      SlotsKept(m1, owners, {}, m2, owners, {}, j);
    }
  }

  // ----- Calls -----

  lemma {:induction false} CallPlaced(m: Machine, owners: seq<Owner>, d: C.ToolDelta)
    requires Placed(m, owners) && d.index !in m.calls
    ensures TheCall(d.index) !in owners && Placed(OpenCall(m, d), Claim(owners, TheCall(d.index)))
  {
    hide CallId;
    ClaimIsDistinct(owners, TheCall(d.index));
  }

  lemma {:induction false} OpenCallLinks(m: Machine, u: Said, d: C.ToolDelta)
    requires Linked(m, u)
    ensures var u' := u.(owners := Claim(u.owners, TheCall(d.index)), args := u.args[d.index := ArgsAt(u, d.index)]);
            Linked(OpenCall(m, d), u') && d.index in OpenCall(m, d).calls
  {
    hide ReadSlot;
    var k, m' := d.index, OpenCall(m, d);
    if k in m.calls {
      assert u.args[k := ArgsAt(u, k)] == u.args;
      assert Claim(u.owners, TheCall(k)) == u.owners;
    } else {
      CallPlaced(m, u.owners, d);
      ClaimIsDistinct(u.owners, TheCall(k));
      assert CallId(m, d) != "";
      assert SlotOk(ViewOf(m', TheCall(k)), false, ReadSlot(m.trace, m.next));
      SlotsKept(m, u.owners, {}, m', Claim(u.owners, TheCall(k)), {}, m.next);
    }
  }

  /** Identifying a call keeps what its slot depends on. */
  lemma {:induction false} IdentifyKeeps(names: Names, c: Call, d: C.ToolDelta, s: Slot)
    requires CallSlotOk(c, false, s)
    ensures var c' := Identify(names, c, d);
            && CallSlotOk(c', false, s)
            && c'.callId == c.callId && c'.index == c.index && c'.args == c.args && c'.added == c.added
  {
    hide RestoreName, IsCustom;
  }

  lemma {:induction false} AnnouncedSlot(m: Machine, c: Call)
    requires ReadSlot(m.trace, c.index).Some? && CallSlotOk(c, false, ReadSlot(m.trace, c.index).value)
    ensures var m', c' := Announce(m, c), c.(added := c.added || c.name != "");
            && m' == m.(trace := m'.trace)
            && ReadSlot(m'.trace, c.index).Some? && CallSlotOk(c', false, ReadSlot(m'.trace, c.index).value)
            && forall i :: i != c.index ==> ReadSlot(m'.trace, i) == ReadSlot(m.trace, i)
  {
    hide ReadSlot;
    var added := ItemAdded(c.index, CallItem(c.(args := "")));
    ReadOneMore(m.trace, added, c.index);
    OtherSlots(m.trace, added);
  }

  lemma {:induction false} ArgsSlot(trace: seq<Event>, c: Call, args: string)
    requires ReadSlot(trace, c.index).Some? && CallSlotOk(c, false, ReadSlot(trace, c.index).value)
    ensures var c' := c.(args := c.args + args);
            var trace' := if c.custom then trace else trace + [ArgsDelta(c.index, c.callId, args)];
            && ReadSlot(trace', c.index).Some? && CallSlotOk(c', false, ReadSlot(trace', c.index).value)
            && forall i :: i != c.index ==> ReadSlot(trace', i) == ReadSlot(trace, i)
  {
    hide ReadSlot;
    var delta := ArgsDelta(c.index, c.callId, args);
    ReadOneMore(trace, delta, c.index);
    OtherSlots(trace, delta);
  }

  /** The events of a fragment in the slot of its call. */
  lemma {:induction false} FragmentSlot(m: Machine, d: C.ToolDelta)
    requires d.index in m.calls
    requires var c := m.calls[d.index];
             ReadSlot(m.trace, c.index).Some? && CallSlotOk(c, false, ReadSlot(m.trace, c.index).value)
    ensures var m', c := Fragment(m, d), m.calls[d.index];
            && d.index in m'.calls
            && var c' := m'.calls[d.index];
               && m' == m.(calls := m.calls[d.index := c'], trace := m'.trace)
               && c'.index == c.index && c'.args == c.args + d.args
               && ReadSlot(m'.trace, c.index).Some? && CallSlotOk(c', false, ReadSlot(m'.trace, c.index).value)
               && forall i :: i != c.index ==> ReadSlot(m'.trace, i) == ReadSlot(m.trace, i)
  {
    hide ReadSlot, Identify, CallSlotOk, Announce;
    var c := m.calls[d.index];
    var c1 := Identify(m.names, c, d);
    var c2 := c1.(added := c1.added || c1.name != "");
    IdentifyKeeps(m.names, c, d, ReadSlot(m.trace, c.index).value);
    AnnouncedSlot(m, c1);
    ArgsSlot(Announce(m, c1).trace, c2, d.args);
  }

  lemma {:induction false} FragmentLinks(m: Machine, u: Said, d: C.ToolDelta)
    requires Linked(m, u) && d.index in m.calls
    ensures Linked(Fragment(m, d), HearCall(u, d))
  {
    hide ReadSlot, CallSlotOk, Fragment;
    var k, j, m' := d.index, m.calls[d.index].index, Fragment(m, d);
    assert Holds(u.owners, TheCall(k), j);
    assert SlotOk(ViewOf(m, u.owners[j]), false, ReadSlot(m.trace, j));
    FragmentSlot(m, d);
    SlotsKept(m, u.owners, {}, m', u.owners, {}, j);
    assert Claim(u.owners, TheCall(k)) == u.owners;
  }

  lemma {:induction false} CallLinks(m: Machine, u: Said, d: C.ToolDelta)
    requires Linked(m, u)
    ensures Linked(FeedCall(m, d), HearCall(u, d))
  {
    hide Linked, Fragment, OpenCall, Claim;
    OpenCallLinks(m, u, d);
    var u1 := u.(owners := Claim(u.owners, TheCall(d.index)), args := u.args[d.index := ArgsAt(u, d.index)]);
    FragmentLinks(OpenCall(m, d), u1, d);
    ClaimTwice(u.owners, TheCall(d.index));
    assert u1.args[d.index := ArgsAt(u1, d.index) + d.args] == HearCall(u, d).args;
  }

  lemma {:induction false} ClaimTwice(owners: seq<Owner>, o: Owner)
    ensures Claim(Claim(owners, o), o) == Claim(owners, o)
  {
    assert o !in owners ==> (owners + [o])[|owners|] == o;
  }

  lemma {:induction false} CallsLink(m: Machine, u: Said, ds: seq<C.ToolDelta>)
    requires Linked(m, u)
    ensures Linked(FeedCalls(m, ds), HearCalls(u, ds))
    decreases |ds|
  {
    hide Linked;
    if ds != [] {
      var n := |ds| - 1;
      CallsLink(m, u, ds[..n]);
      CallLinks(FeedCalls(m, ds[..n]), HearCalls(u, ds[..n]), ds[n]);
    }
  }

  // ----- Frames -----

  /** What the link depends on. */
  lemma {:induction false} SameLink(m: Machine, u: Said, m': Machine)
    requires Linked(m, u)
    requires m' == m.(usage := m'.usage, lastId := m'.lastId, lastModel := m'.lastModel, started := m'.started,
                      finished := m'.finished, trace := m'.trace)
    requires forall i :: ReadSlot(m'.trace, i) == ReadSlot(m.trace, i)
    ensures Linked(m', u)
  {
    hide ReadSlot, SlotOk;
    assert forall o :: ViewOf(m', o) == ViewOf(m, o);
  }

  lemma {:induction false} StartLinks(m: Machine, u: Said)
    requires Linked(m, u)
    ensures Linked(Start(m), u)
  {
    if !m.started {
      hide ReadSlot, Linked, ResponsesId;
      var id := ResponsesId(m.lastId, "resp_");
      OtherSlots(m.trace, Created(id, ModelName(m)));
      OtherSlots(m.trace + [Created(id, ModelName(m))], InProgress(id, ModelName(m)));
      SameLink(m, u, Start(m));
    }
  }

  lemma {:induction false} FrameLinks(m: Machine, u: Said, f: Frame)
    requires Linked(m, u) && !m.finished
    ensures Linked(Feed(m, f), Hear(u, f))
  {
    hide Linked, ReadSlot, Start, FeedReasoning, FeedText, FeedCalls, HearCalls, HearText, HearReasoning;
    match f {
      case Done =>
      case Garbled(us) => SameLink(m, u, ApplyUsage(m, us));
      case Chunk(id, model, us, choices) =>
        var m1 := See(ApplyUsage(m, us), id, model);
        SameLink(m, u, m1);
        StartLinks(m1, u);
        if choices != [] {
          var c, m2 := choices[0], Start(m1);
          ReasoningLinks(m2, u, Reasoning(c));
          var m3, u3 := FeedReasoning(m2, Reasoning(c)), HearReasoning(u, Reasoning(c));
          TextLinks(m3, u3, c.content);
          CallsLink(FeedText(m3, c.content), HearText(u3, c.content), c.tools);
        }
    }
  }

  lemma {:induction false} FeedsAreLinked(names: Names, model: string, usage: Usage, frames: seq<Frame>)
    ensures var m := FeedAll(New(names, model, usage), frames); Linked(m, HearAll(frames)) && !m.finished
    decreases |frames|
  {
    if frames != [] {
      var n := |frames| - 1;
      FeedsAreLinked(names, model, usage, frames[..n]);
      FrameLinks(FeedAll(New(names, model, usage), frames[..n]), HearAll(frames[..n]), frames[n]);
      FeedIsLive(FeedAll(New(names, model, usage), frames[..n]), frames[n]);
    }
  }

  lemma {:induction false} CallIsLive(m: Machine, d: C.ToolDelta)
    ensures var m' := FeedCall(m, d); m'.finished == m.finished && m'.started == m.started && m'.usage == m.usage
  {
    hide Identify, CallId;
  }

  lemma {:induction false} CallsAreLive(m: Machine, ds: seq<C.ToolDelta>)
    ensures FeedCalls(m, ds).finished == m.finished && FeedCalls(m, ds).started == m.started
    ensures FeedCalls(m, ds).usage == m.usage
    decreases |ds|
  {
    hide FeedCall;
    if ds != [] {
      CallsAreLive(m, ds[..|ds| - 1]);
      CallIsLive(FeedCalls(m, ds[..|ds| - 1]), ds[|ds| - 1]);
    }
  }

  lemma {:induction false} FeedIsLive(m: Machine, f: Frame)
    ensures Feed(m, f).finished == m.finished
    ensures Feed(m, f).started == (m.started || (!m.finished && f.Chunk?))
    ensures Feed(m, f).usage == if m.finished || f.Done? then m.usage else ApplyUsage(m, f.usage).usage
  {
    hide FeedCalls, ResponsesId;
    if !m.finished && f.Chunk? && f.choices != [] {
      var c, m1 := f.choices[0], Start(See(ApplyUsage(m, f.usage), f.id, f.model));
      CallsAreLive(FeedText(FeedReasoning(m1, Reasoning(c)), c.content), c.tools);
    }
  }

  // ----- Finish -----

  /** The three closing events of a text item. */
  lemma {:induction false} ClosePart(trace: seq<Event>, j: int, t: string, first: Event, added: Item, item: Item)
    requires ReadSlot(trace, j) == Some(PartSlot(added, t, false, item))
    requires (added == ReasoningItem("") && first == ReasoningDone(j, t) && item == ReasoningItem(t))
             || (added == MessageItem("") && first == TextDone(j, t) && item == MessageItem(t))
    ensures var trace' := trace + [first] + [PartDone(j, t)] + [ItemDone(j, item)];
            && ReadSlot(trace', j) == Some(PartSlot(added, t, true, item))
            && forall i :: i != j ==> ReadSlot(trace', i) == ReadSlot(trace, i)
  {
    hide ReadSlot;
    var trace1, trace2 := trace + [first], trace + [first] + [PartDone(j, t)];
    ReadOneMore(trace, first, j);
    ReadOneMore(trace1, PartDone(j, t), j);
    ReadOneMore(trace2, ItemDone(j, item), j);
    OtherSlots(trace, first);
    OtherSlots(trace1, PartDone(j, t));
    OtherSlots(trace2, ItemDone(j, item));
  }

  lemma {:induction false} ReasoningCloses(m: Machine, owners: seq<Owner>, closed: set<Owner>)
    requires Placed(m, owners) && SlotsOk(m, owners, closed) && TheReasoning !in closed
    ensures SlotsOk(CloseReasoning(m), owners, closed + {TheReasoning})
  {
    hide ReadSlot, CallSlotOk, CallsPlaced;
    if m.reasoningAdded {
      var j, t := m.reasoningIndex, m.reasoning;
      assert SlotOk(ViewOf(m, owners[j]), false, ReadSlot(m.trace, j));
      ClosePart(m.trace, j, t, ReasoningDone(j, t), ReasoningItem(""), ReasoningItem(t));
      SlotsKept(m, owners, closed, CloseReasoning(m), owners, closed + {TheReasoning}, j);
    }
  }

  lemma {:induction false} TextCloses(m: Machine, owners: seq<Owner>, closed: set<Owner>)
    requires Placed(m, owners) && SlotsOk(m, owners, closed) && TheText !in closed
    ensures SlotsOk(CloseText(m), owners, closed + {TheText})
  {
    hide ReadSlot, CallSlotOk, CallsPlaced;
    if m.messageAdded {
      var j, t := m.textIndex, m.text;
      assert SlotOk(ViewOf(m, owners[j]), false, ReadSlot(m.trace, j));
      ClosePart(m.trace, j, t, TextDone(j, t), MessageItem(""), MessageItem(t));
      SlotsKept(m, owners, closed, CloseText(m), owners, closed + {TheText}, j);
    }
  }

  lemma {:induction false} CallSlotCloses(m: Machine, c: Call)
    requires ReadSlot(m.trace, c.index).Some? && CallSlotOk(c, false, ReadSlot(m.trace, c.index).value)
    ensures var m' := CloseCall(m, c);
            && ReadSlot(m'.trace, c.index).Some? && CallSlotOk(c, true, ReadSlot(m'.trace, c.index).value)
            && forall i :: i != c.index ==> ReadSlot(m'.trace, i) == ReadSlot(m.trace, i)
  {
    hide ReadSlot;
    var first, last := ArgsDone(c.index, c.callId, c.args), ItemDone(c.index, CallItem(c));
    var trace := if c.custom then m.trace else m.trace + [first];
    if !c.custom {
      ReadOneMore(m.trace, first, c.index);
      OtherSlots(m.trace, first);
    }
    ReadOneMore(trace, last, c.index);
    OtherSlots(trace, last);
  }

  lemma {:induction false} CallCloses(m: Machine, owners: seq<Owner>, closed: set<Owner>, k: int)
    requires Placed(m, owners) && SlotsOk(m, owners, closed) && k in m.calls && TheCall(k) !in closed
    ensures SlotsOk(CloseCall(m, m.calls[k]), owners, closed + {TheCall(k)})
  {
    hide ReadSlot, CallSlotOk;
    var c, m' := m.calls[k], CloseCall(m, m.calls[k]);
    assert Holds(owners, TheCall(k), c.index);
    assert SlotOk(ViewOf(m, owners[c.index]), false, ReadSlot(m.trace, c.index));
    CallSlotCloses(m, c);
    SlotsKept(m, owners, closed, m', owners, closed + {TheCall(k)}, c.index);
  }

  ghost function CallOwners(ks: seq<int>): (r: set<Owner>)
    ensures forall k :: TheCall(k) in r <==> k in ks
    ensures TheText !in r && TheReasoning !in r
    decreases |ks|
  {
    if ks == [] then {}
    else
      assert ks == ks[..|ks| - 1] + [ks[|ks| - 1]];
      CallOwners(ks[..|ks| - 1]) + {TheCall(ks[|ks| - 1])}
  }

  lemma {:induction false} CallOwnersNext(ks: seq<int>)
    ensures CallOwners(ks) == if ks == [] then {} else CallOwners(ks[..|ks| - 1]) + {TheCall(ks[|ks| - 1])}
  {}

  lemma {:induction false} OnlyTheTrace(m: Machine, cs: seq<Call>)
    ensures CloseCalls(m, cs) == m.(trace := CloseCalls(m, cs).trace)
    decreases |cs|
  {
    if cs != [] { OnlyTheTrace(m, cs[..|cs| - 1]); }
  }

  lemma {:induction false} SamePlace(m: Machine, m': Machine, owners: seq<Owner>)
    requires Placed(m, owners) && m' == m.(trace := m'.trace)
    ensures Placed(m', owners)
  {}

  lemma {:induction false} CallsClose(m: Machine, owners: seq<Owner>, closed: set<Owner>, ks: seq<int>, cs: seq<Call>)
    requires Placed(m, owners) && SlotsOk(m, owners, closed) && (forall k :: TheCall(k) !in closed)
    requires StrictlyAscending(ks) && |cs| == |ks|
    requires forall i :: 0 <= i < |ks| ==> ks[i] in m.calls && cs[i] == m.calls[ks[i]]
    ensures SlotsOk(CloseCalls(m, cs), owners, closed + CallOwners(ks))
    decreases |ks|
  {
    hide SlotsOk, CloseCall, Placed, CallOwners;
    if ks == [] {
      CallOwnersNext(ks);
      assert closed + CallOwners(ks) == closed;
    } else {
      var n := |ks| - 1;
      CallsClose(m, owners, closed, ks[..n], cs[..n]);
      var m1, closed1 := CloseCalls(m, cs[..n]), closed + CallOwners(ks[..n]);
      OnlyTheTrace(m, cs[..n]);
      SamePlace(m, m1, owners);
      assert ks[n] !in ks[..n];
      CallOwnersNext(ks);
      CallCloses(m1, owners, closed1, ks[n]);
      assert closed1 + {TheCall(ks[n])} == closed + CallOwners(ks);
    }
  }

  lemma {:induction false} PartsClose(m: Machine, owners: seq<Owner>)
    requires Placed(m, owners) && SlotsOk(m, owners, {})
    ensures var m' := CloseText(CloseReasoning(m));
            m' == m.(trace := m'.trace) && Placed(m', owners) && SlotsOk(m', owners, {TheReasoning, TheText})
  {
    hide SlotsOk, Placed;
    var m1 := CloseReasoning(m);
    ReasoningCloses(m, owners, {});
    assert {} + {TheReasoning} == {TheReasoning};
    SamePlace(m, m1, owners);
    TextCloses(m1, owners, {TheReasoning});
    assert {TheReasoning} + {TheText} == {TheReasoning, TheText};
    SamePlace(m, CloseText(m1), owners);
  }

  /** All items are closed, each with what the state holds for it. */
  lemma {:induction false} FinishCloses(m: Machine, owners: seq<Owner>)
    requires Placed(m, owners) && SlotsOk(m, owners, {})
    ensures var m' := CloseCalls(CloseText(CloseReasoning(m)), CallsInOrder(m.calls));
            && m' == m.(trace := m'.trace)
            && (forall i :: 0 <= i < |owners| ==> SlotOk(ViewOf(m', owners[i]), true, ReadSlot(m'.trace, i)))
            && (forall i :: !(0 <= i < |owners|) ==> ReadSlot(m'.trace, i) == Some(Unused))
  {
    hide SlotsOk, Placed, CloseReasoning, CloseText, CloseCalls, Sorted, SlotOk, ReadSlot;
    var ks, cs := Sorted(m.calls.Keys), CallsInOrder(m.calls);
    assert forall i :: 0 <= i < |ks| ==> ks[i] in ks && cs[i] == m.calls[ks[i]];
    hide CallsInOrder;
    PartsClose(m, owners);
    var m2 := CloseText(CloseReasoning(m));
    CallsClose(m2, owners, {TheReasoning, TheText}, ks, cs);
    OnlyTheTrace(m2, cs);
    SamePlace(m2, CloseCalls(m2, cs), owners);
    AllClosed(CloseCalls(m2, cs), owners, {TheReasoning, TheText} + CallOwners(ks));
  }

  lemma {:induction false} AllClosed(m: Machine, owners: seq<Owner>, closed: set<Owner>)
    requires Placed(m, owners) && SlotsOk(m, owners, closed)
    requires TheReasoning in closed && TheText in closed && forall k :: k in m.calls ==> TheCall(k) in closed
    ensures forall i :: 0 <= i < |owners| ==> SlotOk(ViewOf(m, owners[i]), true, ReadSlot(m.trace, i))
    ensures forall i :: !(0 <= i < |owners|) ==> ReadSlot(m.trace, i) == Some(Unused)
  {
    hide ReadSlot, SlotOk;
    forall i | 0 <= i < |owners|
      ensures SlotOk(ViewOf(m, owners[i]), true, ReadSlot(m.trace, i))
    {
      assert owners[i] in closed;
    }
  }

  // ----- What the translator promises -----

  /** A finished slot tells all that was said about its item. */
  predicate Told(u: Said, o: Owner, s: Option<Slot>) {
    && s.Some? && s.value.done.Some?
    && match o
       case TheText => s.value.done.value == MessageItem(u.text) && s.value.deltas == u.text
       case TheReasoning => s.value.done.value == ReasoningItem(u.reasoning) && s.value.deltas == u.reasoning
       case TheCall(k) =>
         && IsCallItem(s.value.done.value) && s.value.done.value.args == ArgsAt(u, k)
         && (if s.value.done.value.FunctionItem? then s.value.deltas == ArgsAt(u, k)
            else s.value.deltas <= ArgsAt(u, k))
  }

  /** At every output index in use its item is told, and no other index is used. */
  ghost predicate TellsAll(u: Said, trace: seq<Event>) {
    && (forall i :: 0 <= i < |u.owners| ==> Told(u, u.owners[i], ReadSlot(trace, i)))
    && (forall i :: !(0 <= i < |u.owners|) ==> ReadSlot(trace, i) == Some(Unused))
  }

  lemma {:induction false} ClosedIsTold(m: Machine, u: Said, o: Owner, s: Option<Slot>)
    requires SameWords(m, u) && SlotOk(ViewOf(m, o), true, s)
    ensures Told(u, o, s)
  {}

  /** The trace of a started response, finished. */
  ghost function FinalTrace(m: Machine, done: Event, completed: Event): seq<Event> {
    CloseCalls(CloseText(CloseReasoning(m)), CallsInOrder(m.calls)).trace + [done] + [completed]
  }

  ghost predicate AllFinished(m: Machine, owners: seq<Owner>, trace: seq<Event>) {
    && (forall i :: 0 <= i < |owners| ==> SlotOk(ViewOf(m, owners[i]), true, ReadSlot(trace, i)))
    && (forall i :: !(0 <= i < |owners|) ==> ReadSlot(trace, i) == Some(Unused))
  }

  lemma {:induction false} FinishFinishes(m: Machine, owners: seq<Owner>, done: Event, completed: Event)
    requires Placed(m, owners) && SlotsOk(m, owners, {}) && !Indexed(done) && !Indexed(completed)
    ensures AllFinished(m, owners, FinalTrace(m, done, completed))
  {
    hide ReadSlot, SlotOk, CloseCalls, CloseText, CloseReasoning, CallsInOrder, Placed, SlotsOk;
    FinishCloses(m, owners);
    var m' := CloseCalls(CloseText(CloseReasoning(m)), CallsInOrder(m.calls));
    OtherSlots(m'.trace, done);
    OtherSlots(m'.trace + [done], completed);
    assert forall o :: ViewOf(m', o) == ViewOf(m, o);
  }

  lemma {:induction false} FinishedIsTold(m: Machine, u: Said, trace: seq<Event>)
    requires SameWords(m, u) && AllFinished(m, u.owners, trace)
    ensures TellsAll(u, trace)
  {
    hide ReadSlot, Told, SlotOk, SameWords;
    forall i | 0 <= i < |u.owners| ensures Told(u, u.owners[i], ReadSlot(trace, i)) {
      ClosedIsTold(m, u, u.owners[i], ReadSlot(trace, i));
    }
  }

  /** What Finish leaves, for a response that was started and for one that was not. */
  lemma {:induction false} AfterFinish(names: Names, model: string, usage: Usage, frames: seq<Frame>, latest: Usage)
    returns (m: Machine)
    ensures var m0 := FeedAll(New(names, model, usage), frames);
            m == ApplyUsage(m0.(finished := true), latest) && m.started == m0.started
    ensures Linked(m, HearAll(frames))
    ensures var trace := Finish(FeedAll(New(names, model, usage), frames), latest).trace;
            var done, completed := ResponseDone(Outputs(m), m.usage), ResponseCompleted(Outputs(m), m.usage);
            if m.started then trace == FinalTrace(m, done, completed) && AllFinished(m, HearAll(frames).owners, trace)
            else trace == [] && HearAll(frames).owners == []
  {
    hide ReadSlot, FeedAll, HearAll, AllFinished, ApplyUsage, Outputs, CloseCalls, CloseText, CloseReasoning,
        CallsInOrder;
    var m0, u := FeedAll(New(names, model, usage), frames), HearAll(frames);
    FeedsAreLinked(names, model, usage, frames);
    m := ApplyUsage(m0.(finished := true), latest);
    NothingBeforeStart(names, model, usage, frames);
    UsageOnly(m0, latest);
    SameLink(m0, u, m);
    if m.started {
      var done, completed := ResponseDone(Outputs(m), m.usage), ResponseCompleted(Outputs(m), m.usage);
      FinishFinishes(m, u.owners, done, completed);
    }
  }

  /** Every item is told, and nothing else. For every sequence of frames, the reader accepts
      the whole trace at every output index. The indices in use are exactly 0..n-1, one for
      each item in order of first appearance: reasoning, text, and each call of the upstream.
      Each is finished exactly once, with the concatenation of its fragments. */
  lemma {:induction false} EveryItemIsTold(names: Names, model: string, usage: Usage, frames: seq<Frame>, latest: Usage)
    ensures var u := HearAll(frames);
            var trace := Finish(FeedAll(New(names, model, usage), frames), latest).trace;
            Distinct(u.owners) && TellsAll(u, trace)
  {
    hide ReadSlot, FeedAll, HearAll, TellsAll, ApplyUsage, Finish, AllFinished, FinalTrace, Outputs;
    var m := AfterFinish(names, model, usage, frames, latest);
    if m.started {
      FinishedIsTold(m, HearAll(frames), Finish(FeedAll(New(names, model, usage), frames), latest).trace);
    } else {
      TellsNothing(HearAll(frames));
    }
  }

  lemma {:induction false} TellsNothing(u: Said)
    requires u.owners == []
    ensures TellsAll(u, [])
  {}

  lemma {:induction false} UsageOnly(m0: Machine, latest: Usage)
    ensures var m := ApplyUsage(m0.(finished := true), latest); m == m0.(finished := true, usage := m.usage)
  {}

  lemma {:induction false} HearOnlyChunks(u: Said, f: Frame)
    ensures !f.Chunk? ==> Hear(u, f) == u
  {}

  /** The first chunk starts the response. */
  lemma {:induction false} ChunkStarts(names: Names, model: string, usage: Usage, frames: seq<Frame>)
    ensures var m := FeedAll(New(names, model, usage), frames);
            !m.finished && (m.started <==> exists i :: 0 <= i < |frames| && frames[i].Chunk?)
    decreases |frames|
  {
    hide Feed;
    if frames != [] {
      var n := |frames| - 1;
      ChunkStarts(names, model, usage, frames[..n]);
      FeedIsLive(FeedAll(New(names, model, usage), frames[..n]), frames[n]);
      assert forall i :: 0 <= i < n ==> frames[i] == frames[..n][i];
    }
  }

  lemma {:induction false} NothingBeforeStart(names: Names, model: string, usage: Usage, frames: seq<Frame>)
    ensures var m := FeedAll(New(names, model, usage), frames);
            !m.finished && (!m.started ==> m.trace == [] && HearAll(frames).owners == [])
    decreases |frames|
  {
    hide Hear;
    if frames != [] {
      var n := |frames| - 1;
      NothingBeforeStart(names, model, usage, frames[..n]);
      FeedIsLive(FeedAll(New(names, model, usage), frames[..n]), frames[n]);
      HearOnlyChunks(HearAll(frames[..n]), frames[n]);
      if !frames[n].Chunk? {
        assert Feed(FeedAll(New(names, model, usage), frames[..n]), frames[n]).trace
               == FeedAll(New(names, model, usage), frames[..n]).trace;
      }
    }
  }

  // ----- The frame of the response, and its output list -----

  /** m' is m with more events, all of them with an output index. */
  ghost predicate Grows(m: Machine, m': Machine) {
    && m.trace <= m'.trace && (forall i :: |m.trace| <= i < |m'.trace| ==> Indexed(m'.trace[i]))
  }

  ghost predicate Framed(m: Machine) {
    if m.started then
      && |m.trace| >= 2 && m.trace[0].Created? && m.trace[1].InProgress?
      && (forall i :: 2 <= i < |m.trace| ==> Indexed(m.trace[i]))
    else m.trace == []
  }

  lemma {:induction false} CallsGrow(m: Machine, ds: seq<C.ToolDelta>)
    ensures Grows(m, FeedCalls(m, ds))
    decreases |ds|
  {
    hide Identify, CallId;
    if ds != [] { CallsGrow(m, ds[..|ds| - 1]); }
  }

  lemma {:induction false} PartsGrow(m: Machine, t: string, t': string)
    ensures Grows(m, FeedText(FeedReasoning(m, t), t'))
  {
    hide FeedReasoning, FeedText;
    ReasoningGrows(m, t);
    TextGrows(FeedReasoning(m, t), t');
  }

  lemma {:induction false} ReasoningGrows(m: Machine, t: string)
    ensures Grows(m, FeedReasoning(m, t))
  {}

  lemma {:induction false} TextGrows(m: Machine, t: string)
    ensures Grows(m, FeedText(m, t))
  {}

  lemma {:induction false} CloseCallsGrow(m: Machine, cs: seq<Call>)
    ensures Grows(m, CloseCalls(m, cs))
    decreases |cs|
  {
    if cs != [] { CloseCallsGrow(m, cs[..|cs| - 1]); }
  }

  lemma {:induction false} FeedKeepsFrame(m: Machine, f: Frame)
    requires Framed(m) && !m.finished
    ensures Framed(Feed(m, f))
  {
    hide FeedCalls, FeedText, FeedReasoning, ResponsesId;
    FeedIsLive(m, f);
    if f.Chunk? {
      var m1 := Start(See(ApplyUsage(m, f.usage), f.id, f.model));
      assert Framed(m1);
      if f.choices != [] {
        var c := f.choices[0];
        PartsGrow(m1, Reasoning(c), c.content);
        CallsGrow(FeedText(FeedReasoning(m1, Reasoning(c)), c.content), c.tools);
      }
    }
  }

  lemma {:induction false} FeedsAreFramed(names: Names, model: string, usage: Usage, frames: seq<Frame>)
    ensures Framed(FeedAll(New(names, model, usage), frames))
    decreases |frames|
  {
    hide Framed;
    if frames == [] {
      assert Framed(New(names, model, usage)) by { FrameOfNew(names, model, usage); }
    } else {
      var n := |frames| - 1;
      FeedsAreFramed(names, model, usage, frames[..n]);
      FeedsAreLinked(names, model, usage, frames[..n]);
      FeedKeepsFrame(FeedAll(New(names, model, usage), frames[..n]), frames[n]);
    }
  }

  lemma {:induction false} FrameOfNew(names: Names, model: string, usage: Usage)
    ensures Framed(New(names, model, usage))
  {}

  /** The items in the order of the final output list: reasoning, text, calls by
      ascending upstream index. */
  ghost function OutputOrder(m: Machine): seq<Owner> {
    (if m.reasoningAdded then [TheReasoning] else []) + (if m.messageAdded then [TheText] else []) + CallOrder(m)
  }

  ghost function CallOrder(m: Machine): seq<Owner> {
    var ks := Sorted(m.calls.Keys);
    seq(|ks|, i requires 0 <= i < |ks| => TheCall(ks[i]))
  }

  /** Reasoning before text, text before calls, calls by upstream index. */
  predicate Before(a: Owner, b: Owner) {
    match a
    case TheReasoning => !b.TheReasoning?
    case TheText => b.TheCall?
    case TheCall(k) => b.TheCall? && k < b.index
  }

  ghost predicate Ascending(order: seq<Owner>) { forall i, j :: 0 <= i < j < |order| ==> Before(order[i], order[j]) }

  /** The output list names every item once, in that order and as its output_item.done event
      gave it. */
  ghost predicate Lists(owners: seq<Owner>, trace: seq<Event>, order: seq<Owner>, output: seq<Item>) {
    && |order| == |output| && Ascending(order) && (forall o :: o in order <==> o in owners)
    && forall p, i :: 0 <= p < |order| && Holds(owners, order[p], i) ==>
         ReadSlot(trace, i).Some? && ReadSlot(trace, i).value.done == Some(output[p])
  }

  ghost predicate ListsAll(owners: seq<Owner>, trace: seq<Event>, output: seq<Item>) {
    exists order :: Lists(owners, trace, order, output)
  }

  function ItemOf(v: View): Option<Item> {
    match v
    case TextView(t) => Some(MessageItem(t))
    case ReasoningView(t) => Some(ReasoningItem(t))
    case CallView(c) => Some(CallItem(c))
    case NoView => None
  }

  lemma {:induction false} OutputsInOrder(m: Machine)
    ensures |Outputs(m)| == |OutputOrder(m)| && Ascending(OutputOrder(m))
    ensures forall p :: 0 <= p < |Outputs(m)| ==> ItemOf(ViewOf(m, OutputOrder(m)[p])) == Some(Outputs(m)[p])
  {
    hide CallOrder, CallItem, Items, CallsInOrder;
    CallItemsInOrder(m);
  }

  lemma {:induction false} CallItemsInOrder(m: Machine)
    ensures var order, items := CallOrder(m), Items(CallsInOrder(m.calls));
            && |order| == |items| && Ascending(order)
            && (forall p :: 0 <= p < |order| ==> order[p].TheCall? && ItemOf(ViewOf(m, order[p])) == Some(items[p]))
  {
    hide Sorted, CallItem;
    var ks := Sorted(m.calls.Keys);
    assert forall i :: 0 <= i < |ks| ==> ks[i] in ks;
  }

  lemma {:induction false} OrderIsComplete(m: Machine, owners: seq<Owner>, o: Owner)
    requires Placed(m, owners)
    ensures o in OutputOrder(m) <==> o in owners
  {
    hide Sorted, Distinct;
    var ks := Sorted(m.calls.Keys);
    var calls := CallOrder(m);
    if o.TheCall? {
      assert o in OutputOrder(m) <==> o in calls;
      if o.index in ks {
        var i :| 0 <= i < |ks| && ks[i] == o.index;
        assert calls[i] == o;
      }
      assert o.index in m.calls ==> Holds(owners, o, m.calls[o.index].index);
    }
  }

  lemma {:induction false} OutputLists(m: Machine, owners: seq<Owner>, trace: seq<Event>)
    requires Placed(m, owners) && AllFinished(m, owners, trace)
    ensures Lists(owners, trace, OutputOrder(m), Outputs(m))
  {
    hide ReadSlot, Sorted, OutputOrder, Outputs, Placed, CallSlotOk;
    OutputsInOrder(m);
    forall o ensures o in OutputOrder(m) <==> o in owners { OrderIsComplete(m, owners, o); }
    var order, output := OutputOrder(m), Outputs(m);
    forall p, i | 0 <= p < |order| && Holds(owners, order[p], i)
      ensures ReadSlot(trace, i).Some? && ReadSlot(trace, i).value.done == Some(output[p])
    {
      DoneItem(ViewOf(m, owners[i]), ReadSlot(trace, i));
    }
  }

  lemma {:induction false} DoneItem(v: View, s: Option<Slot>)
    requires SlotOk(v, true, s)
    ensures s.value.done == ItemOf(v)
  {}

  /** If any frame is a chunk, the response is created and in progress first, then come the
      events of its items, then response.done and response.completed, both with the same
      output list: every item once, as it was finished. Without a chunk nothing is emitted. */
  lemma {:induction false} ResponseIsFramed(names: Names, model: string, usage: Usage, frames: seq<Frame>,
                                            latest: Usage)
    ensures var m0 := FeedAll(New(names, model, usage), frames);
            var trace, used := Finish(m0, latest).trace, Finish(m0, latest).usage;
            var n := |trace|;
            if forall i :: 0 <= i < |frames| ==> !frames[i].Chunk? then trace == []
            else
              && n >= 4 && trace[0].Created? && trace[1].InProgress?
              && (forall i :: 2 <= i < n - 2 ==> Indexed(trace[i]))
              && trace[n - 1].ResponseCompleted? && trace[n - 1].usage == used
              && trace[n - 2] == ResponseDone(trace[n - 1].output, used)
              && ListsAll(HearAll(frames).owners, trace, trace[n - 1].output)
  {
    hide ReadSlot, FeedAll, HearAll, ApplyUsage, Outputs, Lists, AllFinished, Placed, SlotsOk, SameWords;
    var m0 := FeedAll(New(names, model, usage), frames);
    var m := AfterFinish(names, model, usage, frames, latest);
    ChunkStarts(names, model, usage, frames);
    if m.started {
      FeedsAreFramed(names, model, usage, frames);
      UsageOnly(m0, latest);
      FinalFrame(m, ResponseDone(Outputs(m), m.usage), ResponseCompleted(Outputs(m), m.usage));
      var trace := Finish(m0, latest).trace;
      OutputLists(m, HearAll(frames).owners, trace);
      UsageOfFinish(m0, latest);
    }
  }

  lemma {:induction false} UsageOfFinish(m: Machine, latest: Usage)
    requires !m.finished
    ensures Finish(m, latest).usage == ApplyUsage(m.(finished := true), latest).usage
  {
    hide CallsInOrder, Outputs;
    var m1 := ApplyUsage(m.(finished := true), latest);
    OnlyTheTrace(CloseText(CloseReasoning(m1)), CallsInOrder(m1.calls));
  }

  lemma {:induction false} FinalFrame(m: Machine, done: Event, completed: Event)
    requires Framed(m) && m.started
    ensures var trace := FinalTrace(m, done, completed); var n := |trace|;
            && m.trace <= trace && n >= 4 && trace[0].Created? && trace[1].InProgress?
            && trace[n - 2] == done && trace[n - 1] == completed
            && (forall i :: 2 <= i < n - 2 ==> Indexed(trace[i]))
  {
    hide CloseCalls, CallsInOrder;
    var m1 := CloseText(CloseReasoning(m));
    assert Grows(m, CloseReasoning(m));
    assert Grows(m, m1);
    CloseCallsGrow(m1, CallsInOrder(m.calls));
    assert Grows(m, CloseCalls(m1, CallsInOrder(m.calls)));
  }

  // ----- Usage and silence -----

  datatype Field = Input | Output | Cached | CacheCreation

  function Get(u: Usage, f: Field): int {
    match f
    case Input => u.input
    case Output => u.output
    case Cached => u.cached
    case CacheCreation => u.cacheCreation
  }

  function Reported(frame: Frame, f: Field): int { if frame.Done? then 0 else Get(frame.usage, f) }

  /** v is the last positive value, or the initial one if none is positive. */
  ghost predicate LastPositive(values: seq<int>, initial: int, v: int) {
    || (v == initial && forall l :: 0 <= l < |values| ==> values[l] <= 0)
    || exists k :: 0 <= k < |values| && values[k] == v && v > 0 && forall l :: k < l < |values| ==> values[l] <= 0
  }

  function Reports(frames: seq<Frame>, f: Field): seq<int> {
    seq(|frames|, i requires 0 <= i < |frames| => Reported(frames[i], f))
  }

  lemma {:induction false} OneMoreReport(values: seq<int>, initial: int, v: int, next: int)
    requires LastPositive(values, initial, v)
    ensures LastPositive(values + [next], initial, Latest(v, next))
  {
    if next > 0 {
      assert (values + [next])[|values|] == next;
    } else if v != initial || exists l :: 0 <= l < |values| && values[l] > 0 {
      var k :| 0 <= k < |values| && values[k] == v && v > 0 && forall l :: k < l < |values| ==> values[l] <= 0;
      assert (values + [next])[k] == v;
    }
  }

  lemma {:induction false} UsageSoFar(names: Names, model: string, usage: Usage, frames: seq<Frame>, f: Field)
    ensures LastPositive(Reports(frames, f), Get(usage, f), Get(FeedAll(New(names, model, usage), frames).usage, f))
    decreases |frames|
  {
    hide LastPositive, Feed;
    if frames == [] {
      assert LastPositive([], Get(usage, f), Get(usage, f)) by { NoReports(Get(usage, f)); }
      assert Reports(frames, f) == [];
    } else {
      var n := |frames| - 1;
      var m := FeedAll(New(names, model, usage), frames[..n]);
      UsageSoFar(names, model, usage, frames[..n], f);
      FeedsAreLinked(names, model, usage, frames[..n]);
      FeedIsLive(m, frames[n]);
      OneMoreReport(Reports(frames[..n], f), Get(usage, f), Get(m.usage, f), Reported(frames[n], f));
      assert Reports(frames, f) == Reports(frames[..n], f) + [Reported(frames[n], f)];
    }
  }

  lemma {:induction false} NoReports(initial: int)
    ensures LastPositive([], initial, initial)
  {}

  /** The final usage is, field by field, the last positive value the frames and the caller
      reported. */
  lemma {:induction false} UsageIsLastPositive(names: Names, model: string, usage: Usage, frames: seq<Frame>,
                                               latest: Usage, f: Field)
    ensures LastPositive(Reports(frames, f) + [Get(latest, f)], Get(usage, f),
                         Get(Finish(FeedAll(New(names, model, usage), frames), latest).usage, f))
  {
    hide LastPositive, Finish, FeedAll;
    var m := FeedAll(New(names, model, usage), frames);
    FeedsAreLinked(names, model, usage, frames);
    UsageSoFar(names, model, usage, frames, f);
    UsageOfFinish(m, latest);
    OneMoreReport(Reports(frames, f), Get(usage, f), Get(m.usage, f), Get(latest, f));
  }

  /** Nothing is emitted after Finish, by frames or by finishing again. */
  lemma {:induction false} SilentAfterFinish(m: Machine, latest: Usage, frames: seq<Frame>, again: Usage)
    ensures FeedAll(Finish(m, latest), frames) == Finish(m, latest)
    ensures Finish(Finish(m, latest), again) == Finish(m, latest)
    decreases |frames|
  {
    FinishIsFinal(m, latest);
    if frames != [] { SilentAfterFinish(m, latest, frames[..|frames| - 1], again); }
  }

  lemma {:induction false} FinishIsFinal(m: Machine, latest: Usage)
    ensures Finish(m, latest).finished
  {
    hide CallsInOrder, Outputs;
    var m1 := ApplyUsage(m.(finished := true), latest);
    OnlyTheTrace(CloseText(CloseReasoning(m1)), CallsInOrder(m1.calls));
  }
}
