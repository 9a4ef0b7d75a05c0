/** The asynchronous event publisher: many publishers, one worker, any number of stops and
    one close, in every interleaving of their critical sections. */
module Publisher {
  import opened Options

  datatype OpsEvent = OpsEvent(kind: string, detail: string)

  datatype Worker = Waiting | Taken(event: OpsEvent) | Publishing(event: OpsEvent) | Exited

  datatype Closer = NotClosing | Joining | DrainingPending | ClosingChannel | Draining | Closed

  /** `accepted` and `published` record what was put into the channel and what was handed to
      the delegate, in order; `broken` that something was sent on the closed channel or
      published through the closed delegate. */
  datatype System = System(capacity: nat, toggles: map<string, bool>, queue: seq<OpsEvent>, closed: bool,
                           cancelled: bool,
                           pending: Option<OpsEvent>, worker: Worker, closer: Closer, channelClosed: bool,
                           accepted: seq<OpsEvent>, published: seq<OpsEvent>, broken: bool)

  datatype Step =
    | SetToggles(toggles: map<string, bool>)
    | Publish(event: OpsEvent)
    | Take
    | SeeCancelled
    | SeeClosed
    | Decide
    | WorkerPublish
    | Stop
    | BeginClose
    | Joined
    | DrainPending
    | CloseChannel
    | DrainNext
    | EndClose

  function Initial(bufferSize: int): System {
    System(if bufferSize <= 0 then 1024 else bufferSize, map[], [], false, false, None, Waiting, NotClosing,
           false, [], [], false)
  }

  predicate Enabled(toggles: map<string, bool>, kind: string) { kind in toggles ==> toggles[kind] }

  /** A non-blocking send: a full channel drops the event. */
  function Send(s: System, event: OpsEvent): System {
    if s.channelClosed then s.(broken := true)
    else if |s.queue| < s.capacity then s.(queue := s.queue + [event], accepted := s.accepted + [event])
    else s
  }

  function Deliver(s: System, event: OpsEvent): System {
    s.(published := s.published + [event], broken := s.broken || s.closer == Closed)
  }

  /** A step that is not enabled leaves the system as it is. */
  function Apply(s: System, step: Step): System {
    match step
    case SetToggles(toggles) => s.(toggles := toggles)
    case Publish(event) => if s.closed || !Enabled(s.toggles, event.kind) then s else Send(s, event)
    case Take =>
      if s.worker == Waiting && s.queue != [] then s.(worker := Taken(s.queue[0]), queue := s.queue[1..]) else s
    case SeeCancelled => if s.worker == Waiting && s.cancelled then s.(worker := Exited) else s
    case SeeClosed => if s.worker == Waiting && s.queue == [] && s.channelClosed then s.(worker := Exited) else s
    case Decide =>
      if !s.worker.Taken? then s
      else if s.closed then s.(pending := Some(s.worker.event), worker := Exited)
      else s.(worker := Publishing(s.worker.event))
    case WorkerPublish => if s.worker.Publishing? then Deliver(s, s.worker.event).(worker := Waiting) else s
    case Stop => s.(closed := true, cancelled := true)
    case BeginClose => if s.closer == NotClosing then s.(closed := true, cancelled := true, closer := Joining) else s
    case Joined => if s.closer == Joining && s.worker == Exited then s.(closer := DrainingPending) else s
    case DrainPending =>
      if s.closer != DrainingPending then s
      else (if s.pending.Some? then Deliver(s, s.pending.value) else s).(closer := ClosingChannel)
    case CloseChannel => if s.closer == ClosingChannel then s.(channelClosed := true, closer := Draining) else s
    case DrainNext =>
      if s.closer == Draining && s.queue != [] then Deliver(s, s.queue[0]).(queue := s.queue[1..]) else s
    case EndClose => if s.closer == Draining && s.queue == [] then s.(closer := Closed) else s
  }

  function Run(bufferSize: int, steps: seq<Step>): System
    decreases |steps|
  {
    if steps == [] then Initial(bufferSize) else Apply(Run(bufferSize, steps[..|steps| - 1]), steps[|steps| - 1])
  }

  // ----- The invariant -----

  /** The event that has left the channel and is not yet published. */
  function InFlight(s: System): seq<OpsEvent> {
    match s.worker
    case Taken(event) => [event]
    case Publishing(event) => [event]
    case Exited => if s.pending.Some? && (s.closer == NotClosing || s.closer == Joining || s.closer == DrainingPending)
                   then [s.pending.value] else []
    case Waiting => []
  }

  ghost predicate InOrder(s: System) { s.accepted == s.published + InFlight(s) + s.queue }

  /** What the threads' positions say about each other. */
  predicate Control(closed: bool, cancelled: bool, hasPending: bool, worker: Worker, closer: Closer,
                    channelClosed: bool) {
    && (hasPending ==> worker == Exited)
    && (worker == Exited ==> closed)
    && (closer != NotClosing ==> closed) && (cancelled <==> closed)
    && (closer != NotClosing && closer != Joining ==> worker == Exited)
    && (channelClosed <==> closer == Draining || closer == Closed)
  }

  ghost predicate Inv(s: System) {
    && InOrder(s)
    && Control(s.closed, s.cancelled, s.pending.Some?, s.worker, s.closer, s.channelClosed)
    && (s.closer == Closed ==> s.queue == [])
    && !s.broken
  }

  lemma {:induction false} StepKeepsControl(s: System, step: Step)
    requires Inv(s)
    ensures var s' := Apply(s, step);
            && Control(s'.closed, s'.cancelled, s'.pending.Some?, s'.worker, s'.closer, s'.channelClosed)
            && (s'.closer == Closed ==> s'.queue == []) && !s'.broken
  {
    hide InOrder, Enabled;
  }

  /** An event that leaves the front of what follows the published ones. */
  lemma {:induction false} Shift(published: seq<OpsEvent>, rest: seq<OpsEvent>)
    requires rest != []
    ensures published + rest == published + [rest[0]] + rest[1..]
  {
    assert rest == [rest[0]] + rest[1..];
  }

  lemma {:induction false} QueueKeepsOrder(s: System, step: Step)
    requires Inv(s) && (step.Publish? || step.Take? || step.DrainNext?)
    ensures InOrder(Apply(s, step))
  {
    hide Enabled;
    if step.Publish? {
      assert s.published + InFlight(s) + s.queue + [step.event] == s.published + InFlight(s) + (s.queue + [step.event]);
    } else if s.queue != [] {
      Shift(s.published, s.queue);
      assert s.published + [] == s.published && s.published + [s.queue[0]] + [] == s.published + [s.queue[0]];
    }
  }

  lemma {:induction false} HandOffKeepsOrder(s: System, step: Step)
    requires Inv(s) && (step.WorkerPublish? || step.DrainPending? || step.Decide?)
    ensures InOrder(Apply(s, step))
  {
    assert forall event :: s.published + [event] + [] == s.published + [event];
  }

  lemma {:induction false} StepKeepsInv(s: System, step: Step)
    requires Inv(s)
    ensures Inv(Apply(s, step))
  {
    StepKeepsControl(s, step);
    if step.Publish? || step.Take? || step.DrainNext? {
      hide Control, InOrder;
      QueueKeepsOrder(s, step);
    } else if step.WorkerPublish? || step.DrainPending? || step.Decide? {
      hide Control, InOrder;
      HandOffKeepsOrder(s, step);
    } else {
      MoveKeepsOrder(s, step);
    }
  }

  /** The other steps move no event. */
  lemma {:induction false} MoveKeepsOrder(s: System, step: Step)
    requires Inv(s) && !step.Publish? && !step.Take? && !step.DrainNext?
    requires !step.WorkerPublish? && !step.DrainPending? && !step.Decide?
    ensures InOrder(Apply(s, step))
  {
    var s' := Apply(s, step);
    assert s'.accepted == s.accepted && s'.published == s.published && s'.queue == s.queue;
    assert InFlight(s') == InFlight(s);
  }

  lemma {:induction false} RunKeepsInv(bufferSize: int, steps: seq<Step>)
    ensures Inv(Run(bufferSize, steps))
    decreases |steps|
  {
    hide Apply, Inv;
    if steps == [] {
      InitialInv(bufferSize);
    } else {
      RunKeepsInv(bufferSize, steps[..|steps| - 1]);
      StepKeepsInv(Run(bufferSize, steps[..|steps| - 1]), steps[|steps| - 1]);
    }
  }

  lemma {:induction false} InitialInv(bufferSize: int)
    ensures Inv(Initial(bufferSize))
  {}

  // ----- What the publisher promises -----

  /** When Close has returned, the delegate was handed exactly the accepted events, each once
      and in the order of acceptance. Before that it was handed a prefix of them, all but the
      one in flight and those still queued. */
  lemma {:induction false} ClosedMeansDrained(bufferSize: int, steps: seq<Step>)
    ensures var s := Run(bufferSize, steps);
            && s.published <= s.accepted && |s.accepted| <= |s.published| + 1 + |s.queue|
            && (s.closer == Closed ==> s.published == s.accepted)
  {
    RunKeepsInv(bufferSize, steps);
  }

  /** Nothing is ever sent on the closed channel or handed to the closed delegate. */
  lemma {:induction false} NothingAfterClose(bufferSize: int, steps: seq<Step>)
    ensures !Run(bufferSize, steps).broken
  {
    RunKeepsInv(bufferSize, steps);
  }

  lemma {:induction false} StaysClosed(bufferSize: int, steps: seq<Step>, more: seq<Step>)
    requires Run(bufferSize, steps).closed
    ensures Run(bufferSize, steps + more).closed
    ensures Run(bufferSize, steps + more).accepted == Run(bufferSize, steps).accepted
    decreases |more|
  {
    hide Apply;
    if more == [] {
      assert steps + more == steps;
    } else {
      var n := |more| - 1;
      assert (steps + more)[..|steps + more| - 1] == steps + more[..n];
      StaysClosed(bufferSize, steps, more[..n]);
      ClosedRefuses(Run(bufferSize, steps + more[..n]), more[n]);
    }
  }

  lemma {:induction false} ClosedRefuses(s: System, step: Step)
    requires s.closed
    ensures Apply(s, step).closed && Apply(s, step).accepted == s.accepted
  {}

  /** Whatever runs concurrently, nothing is accepted once a Stop or a Close has begun. */
  lemma {:induction false} StopEndsAdmission(bufferSize: int, steps: seq<Step>, stop: Step, more: seq<Step>)
    requires stop == Stop || (stop == BeginClose && Run(bufferSize, steps).closer == NotClosing)
    ensures Run(bufferSize, steps + [stop] + more).accepted == Run(bufferSize, steps).accepted
  {
    assert (steps + [stop])[..|steps|] == steps;
    StaysClosed(bufferSize, steps + [stop], more);
  }

  /** What the steps of a run say about admission: whether it was stopped, and the toggles
      that were set last. */
  predicate Stopped(steps: seq<Step>) { Stop in steps || BeginClose in steps }

  function LatestToggles(steps: seq<Step>): map<string, bool>
    decreases |steps|
  {
    if steps == [] then map[]
    else if steps[|steps| - 1].SetToggles? then steps[|steps| - 1].toggles
    else LatestToggles(steps[..|steps| - 1])
  }

  lemma {:induction false} StepAdmission(s: System, step: Step)
    requires Inv(s)
    ensures var s' := Apply(s, step);
            && s'.closed == (s.closed || step == Stop || step == BeginClose) && s'.capacity == s.capacity
            && s'.toggles == if step.SetToggles? then step.toggles else s.toggles
  {
    hide InOrder, Enabled;
  }

  lemma {:induction false} AdmissionFollows(bufferSize: int, steps: seq<Step>)
    ensures var s := Run(bufferSize, steps);
            && s.closed == Stopped(steps) && s.toggles == LatestToggles(steps)
            && s.capacity == (if bufferSize <= 0 then 1024 else bufferSize)
    decreases |steps|
  {
    if steps == [] {
    } else {
      var n := |steps| - 1;
      AdmissionFollows(bufferSize, steps[..n]);
      RunKeepsInv(bufferSize, steps[..n]);
      hide Apply, Inv;
      StepAdmission(Run(bufferSize, steps[..n]), steps[n]);
      assert steps == steps[..n] + [steps[n]];
      assert Stopped(steps) <==> Stopped(steps[..n]) || steps[n] == Stop || steps[n] == BeginClose;
    }
  }

  /** In every run, an event is accepted exactly if admission was not stopped, its kind is
      not switched off, and fewer events are accepted and neither published nor in the
      worker's hands than the channel has room for; and it is the last one accepted. */
  lemma {:induction false} AcceptedIff(bufferSize: int, steps: seq<Step>, event: OpsEvent)
    ensures var s := Run(bufferSize, steps);
            var toggles := LatestToggles(steps);
            var waiting := |s.accepted| - |s.published| - |InFlight(s)|;
            var room := waiting < if bufferSize <= 0 then 1024 else bufferSize;
            var accepted := !Stopped(steps) && (event.kind in toggles ==> toggles[event.kind]) && room;
            Run(bufferSize, steps + [Publish(event)]).accepted == s.accepted + if accepted then [event] else []
  {
    AdmissionFollows(bufferSize, steps);
    RunKeepsInv(bufferSize, steps);
    assert (steps + [Publish(event)])[..|steps|] == steps;
  }

  // ----- Close returns -----

  /** How many steps the worker and Close can still take once admission has ended. */
  function Remaining(s: System): nat {
    3 * |s.queue|
    + (match s.worker case Exited => 0 case Taken(_) => 1 case Waiting => 2 case Publishing(_) => 3)
    + (match s.closer
       case NotClosing => 5 case Joining => 4 case DrainingPending => 3 case ClosingChannel => 2
       case Draining => 1 case Closed => 0)
  }

  /** The step that brings a closing publisher nearer to its end. */
  function NextStep(s: System): Step {
    match s.closer
    case Joining =>
      (match s.worker
       case Waiting => SeeCancelled case Taken(_) => Decide case Publishing(_) => WorkerPublish case Exited => Joined)
    case DrainingPending => DrainPending
    case ClosingChannel => CloseChannel
    case Draining => if s.queue == [] then EndClose else DrainNext
    case _ => Stop
  }

  /** Close is never stuck and never put off: until it has returned some thread can go on,
      and whatever step is taken after a stop either brings the end nearer or changes
      nothing but the toggles. */
  lemma {:induction false} CloseEnds(bufferSize: int, steps: seq<Step>, step: Step)
    ensures var s := Run(bufferSize, steps);
            && (s.closer != NotClosing && s.closer != Closed ==> Remaining(Apply(s, NextStep(s))) < Remaining(s))
            && (Stopped(steps) ==> Remaining(Apply(s, step)) < Remaining(s)
                                   || Apply(s, step) == s.(toggles := Apply(s, step).toggles))
  {
    AdmissionFollows(bufferSize, steps);
    RunKeepsInv(bufferSize, steps);
    hide InOrder, Stopped, LatestToggles, Run;
  }

  /** Wherever a run stands once Close has begun, it can be continued until Close returns,
      and then the accepted events are published. */
  lemma {:induction false} CloseReturns(bufferSize: int, steps: seq<Step>) returns (more: seq<Step>)
    requires BeginClose in steps
    ensures var s := Run(bufferSize, steps + more);
            s.closer == Closed && s.published == s.accepted == Run(bufferSize, steps).accepted
    decreases Remaining(Run(bufferSize, steps))
  {
    var s := Run(bufferSize, steps);
    Closing(bufferSize, steps);
    AdmissionFollows(bufferSize, steps);
    if s.closer == Closed {
      more := [];
      assert steps + more == steps;
    } else {
      var next := NextStep(s);
      CloseEnds(bufferSize, steps, next);
      assert (steps + [next])[..|steps|] == steps;
      var rest := CloseReturns(bufferSize, steps + [next]);
      more := [next] + rest;
      assert steps + more == steps + [next] + rest;
    }
    StaysClosed(bufferSize, steps, more);
    ClosedMeansDrained(bufferSize, steps + more);
  }

  lemma {:induction false} Closing(bufferSize: int, steps: seq<Step>)
    requires BeginClose in steps
    ensures Run(bufferSize, steps).closer != NotClosing
    decreases |steps|
  {
    var n := |steps| - 1;
    hide Apply;
    StepCloses(Run(bufferSize, steps[..n]), steps[n]);
    if BeginClose in steps[..n] {
      Closing(bufferSize, steps[..n]);
    } else {
      assert steps == steps[..n] + [steps[n]];
    }
  }

  lemma {:induction false} StepCloses(s: System, step: Step)
    ensures s.closer != NotClosing || step == BeginClose ==> Apply(s, step).closer != NotClosing
  {}

  // ----- The critical sections as methods -----

  class AsyncPublisher {
    const capacity: nat
    var toggles: map<string, bool>
    var eventCh: seq<OpsEvent>
    var closed: bool
    var cancelled: bool
    var pending: Option<OpsEvent>
    var channelClosed: bool
    ghost var accepted: seq<OpsEvent>
    ghost var published: seq<OpsEvent>

    constructor (bufferSize: int)
      ensures forall w, c :: Matches(Initial(bufferSize).(worker := w, closer := c))
    {
      capacity := if bufferSize <= 0 then 1024 else bufferSize;
      toggles, eventCh, closed, cancelled, pending, channelClosed := map[], [], false, false, None, false;
      accepted, published := [], [];
    }

    /** Agrees with the model on everything but the threads' own positions. */
    ghost predicate Matches(s: System)
      reads this
    {
      && capacity == s.capacity && toggles == s.toggles && eventCh == s.queue && closed == s.closed
      && cancelled == s.cancelled && pending == s.pending && channelClosed == s.channelClosed
      && accepted == s.accepted && published == s.published
    }

    method PublishEvent(event: OpsEvent, ghost s: System)
      requires Matches(s) && Inv(s)
      modifies this
      ensures Matches(Apply(s, Publish(event)))
    {
      if closed {
        return;
      }
      if event.kind in toggles && !toggles[event.kind] {
        return;
      }
      assert !channelClosed;
      if |eventCh| < capacity {
        eventCh := eventCh + [event];
        accepted := accepted + [event];
      }
    }

    method StopAdmission(ghost s: System)
      requires Matches(s)
      modifies this
      ensures Matches(Apply(s, Stop)) && closed
    {
      closed := true;
      cancelled := true;
    }

    /** The worker's decision about an event it has taken; returns whether to publish it. */
    method Admit(event: OpsEvent, ghost s: System) returns (go: bool)
      requires Matches(s) && s.worker == Taken(event)
      modifies this
      ensures Matches(Apply(s, Decide))
      ensures go <==> Apply(s, Decide).worker == Publishing(event)
    {
      if closed {
        pending := Some(event);
        return false;
      }
      return true;
    }

    /** The drain of Close, once the worker has left: the pending event, then the queue. */
    method Drain(ghost s: System)
      requires Matches(s) && Inv(s) && s.closer == DrainingPending
      modifies this
      ensures closed && channelClosed && eventCh == [] && accepted == old(accepted) == published
    {
      if pending.Some? {
        published := published + [pending.value];
      }
      channelClosed := true;
      while eventCh != []
        invariant closed && channelClosed && accepted == old(accepted) && published + eventCh == accepted
        decreases |eventCh|
      {
        var event := eventCh[0];
        assert published + eventCh == published + [event] + eventCh[1..];
        eventCh := eventCh[1..];
        published := published + [event];
      }
    }
  }
}
