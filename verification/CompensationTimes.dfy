/** How often the tasks of the compensation queue are compensated over a whole run. */
module CompensationTimes {
  import opened Compensation
  import opened CompensationPlaces
  import opened CompensationRetries

  /** The step hands a task with this identifier to its compensator. */
  predicate Compensates(s: System, step: Step, id: string) {
    && step.Handle? && step.known && s.worker == Handling(Fresh)
    && s.batch != [] && s.batch[0].Carries? && s.batch[0].task.id == id
  }

  /** How often the run compensates an identifier, whatever copies of it there are. */
  ghost function Times(maxRetries: int, steps: seq<Step>, id: string): nat
    decreases |steps|
  {
    if steps == [] then 0
    else
      var before := steps[..|steps| - 1];
      Times(maxRetries, before, id) + (if Compensates(Run(maxRetries, before), steps[|steps| - 1], id) then 1 else 0)
  }

  /** The step ends a claim between adding a task to the stream and removing it from the
      delayed set. */
  predicate CutsOff(s: System, step: Step) {
    (step == Crash || step == AbortClaim) && s.worker.Claiming? && s.worker.added && s.worker.due != []
  }

  /** The compensations a step makes possible: those of a new task, or once more those left
      to a task that it leaves twice. */
  function Grants(s: System, step: Step, id: string): nat {
    if step.Enqueue? && step.id == id then Bound(s.limit, step.first)
    else if CutsOff(s, step) && s.worker.due[0].id == id then Bound(s.limit, s.worker.due[0].attempt)
    else 0
  }

  ghost function Allowed(maxRetries: int, steps: seq<Step>, id: string): nat
    decreases |steps|
  {
    if steps == [] then 0
    else
      var before := steps[..|steps| - 1];
      Allowed(maxRetries, before, id) + Grants(Run(maxRetries, before), steps[|steps| - 1], id)
  }

  // ----- The compensations left to the copies of a task -----

  function Left(limit: int, ts: seq<Task>, id: string): nat
    decreases |ts|
  {
    if ts == [] then 0
    else
      var t := ts[|ts| - 1];
      Left(limit, ts[..|ts| - 1], id) + (if t.id == id then Bound(limit, t.attempt) else 0)
  }

  lemma {:induction false} LeftConcat(limit: int, a: seq<Task>, b: seq<Task>, id: string)
    ensures Left(limit, a + b, id) == Left(limit, a, id) + Left(limit, b, id)
    decreases |b|
  {
    if b == [] {
      assert a + b == a;
    } else {
      assert (a + b)[..|a + b| - 1] == a + b[..|b| - 1];
      LeftConcat(limit, a, b[..|b| - 1], id);
    }
  }

  lemma {:induction false} LeftOne(limit: int, t: Task, id: string)
    ensures Left(limit, [t], id) == if t.id == id then Bound(limit, t.attempt) else 0
  {
    assert [t][..0] == [];
  }

  lemma {:induction false} LeftAppend(limit: int, ts: seq<Task>, t: Task, id: string)
    ensures Left(limit, ts + [t], id) == Left(limit, ts, id) + (if t.id == id then Bound(limit, t.attempt) else 0)
  {
    LeftConcat(limit, ts, [t], id);
    LeftOne(limit, t, id);
  }

  lemma {:induction false} LeftMessage(limit: int, msgs: seq<Msg>, m: Msg, id: string)
    ensures Left(limit, Tasks(msgs + [m]), id)
            == Left(limit, Tasks(msgs), id)
               + (if m.Carries? && m.task.id == id then Bound(limit, m.task.attempt) else 0)
  {
    hide Left, Tasks;
    TasksAppend(msgs, m);
    if m.Carries? {
      LeftAppend(limit, Tasks(msgs), m.task, id);
    } else {
      assert Tasks(msgs) + [] == Tasks(msgs);
    }
  }

  lemma {:induction false} LeftHead(limit: int, msgs: seq<Msg>, id: string)
    requires msgs != []
    ensures Left(limit, Tasks(msgs), id)
            == Left(limit, Tasks(msgs[1..]), id)
               + (if msgs[0].Carries? && msgs[0].task.id == id then Bound(limit, msgs[0].task.attempt) else 0)
  {
    hide Left, Tasks;
    TasksFirst(msgs);
    if msgs[0].Carries? {
      LeftConcat(limit, [msgs[0].task], Tasks(msgs[1..]), id);
      LeftOne(limit, msgs[0].task, id);
    } else {
      assert [] + Tasks(msgs[1..]) == Tasks(msgs[1..]);
    }
  }

  lemma {:induction false} LeftRemoved(limit: int, entries: seq<Entry>, t: Task, id: string)
    requires Position(entries, t) < |entries|
    ensures Left(limit, Members(entries), id)
            == Left(limit, Members(ZRem(entries, t)), id) + (if t.id == id then Bound(limit, t.attempt) else 0)
  {
    hide Left, Position, Members;
    var i := Position(entries, t);
    var a, b := entries[..i], entries[i + 1..];
    MembersSplit(entries, i);
    LeftConcat(limit, Members(a) + [t], Members(b), id);
    LeftAppend(limit, Members(a), t, id);
    LeftConcat(limit, Members(a), Members(b), id);
  }

  lemma {:induction false} LeftAdded(limit: int, entries: seq<Entry>, t: Task, due: int, id: string)
    ensures Left(limit, Members(ZAdd(entries, t, due)), id)
            <= Left(limit, Members(entries), id) + (if t.id == id then Bound(limit, t.attempt) else 0)
  {
    hide Left, Position;
    var i := Position(entries, t);
    if i < |entries| {
      assert Members(entries[i := Entry(t, due)]) == Members(entries);
    } else {
      assert Members(entries + [Entry(t, due)]) == Members(entries) + [t];
      LeftAppend(limit, Members(entries), t, id);
    }
  }

  /** The messages in hand whose turn is still to come. */
  function ToCome(s: System): seq<Msg> {
    if s.worker.Handling? && s.worker.stage != Fresh then Rest(s.batch) else s.batch
  }

  /** What is left to a failed task that is not stored yet. */
  function FailedLeft(s: System, id: string): nat {
    if s.worker.Handling? && s.worker.stage.Failed? && s.worker.stage.task.id == id
       && s.worker.stage.task.attempt < s.limit
    then Bound(s.limit, s.worker.stage.task.attempt) else 0
  }

  function Potential(s: System, id: string): nat {
    Left(s.limit, Tasks(s.unread), id) + Left(s.limit, Tasks(ToCome(s)), id) + FailedLeft(s, id)
    + Left(s.limit, Waiting(s), id)
  }

  // ----- No step compensates more than was left -----

  ghost predicate Pays(s: System, step: Step, id: string) {
    Potential(Apply(s, step), id) + (if Compensates(s, step, id) then 1 else 0)
    <= Potential(s, id) + Grants(s, step, id)
  }

  lemma {:induction false} StreamPays(s: System, step: Step, id: string)
    requires Shape(s) && (step.Enqueue? || step.EnqueueGarbage? || step.ReadDue? || step.ReadBatch?)
    ensures Pays(s, step, id)
  {
    hide Left, Tasks, ZRem, Members, Position, DueList;
    match step {
      case Enqueue(i, filter, first) => LeftMessage(s.limit, s.unread, Carries(NewTask(i, filter, first)), id);
      case EnqueueGarbage => LeftMessage(s.limit, s.unread, Garbage, id);
      case ReadDue(order, now) =>
      case ReadBatch =>
        if s.worker.Ready? {
          var n := if |s.unread| < BATCH then |s.unread| else BATCH;
          assert s.unread == s.unread[..n] + s.unread[n..];
          TasksConcat(s.unread[..n], s.unread[n..]);
          LeftConcat(s.limit, Tasks(s.unread[..n]), Tasks(s.unread[n..]), id);
        }
    }
  }

  lemma {:induction false} ClaimPays(s: System, step: Step, id: string)
    requires Shape(s) && (step.ClaimAdd? || step.ClaimRemove? || step.AbortClaim?)
    ensures Pays(s, step, id)
  {
    hide Left, Tasks, ZRem, Members, Position, Bound;
    if s.worker.Claiming? {
      LeftRemoved(s.limit, s.delayed, s.worker.due[0], id);
      LeftMessage(s.limit, s.unread, Carries(s.worker.due[0]), id);
    }
  }

  lemma {:induction false} HandlePays(s: System, step: Step, id: string)
    requires Shape(s) && (step.Handle? || step.Ack?)
    ensures Pays(s, step, id)
  {
    hide Left, Tasks, ZRem, Members, Position;
    if s.worker.Handling? { LeftHead(s.limit, s.batch, id); }
  }

  lemma {:induction false} StorePays(s: System, step: Step, id: string)
    requires Shape(s) && step.Store?
    ensures Pays(s, step, id)
  {
    hide Left, Tasks, ZRem, ZAdd, Members, Position, Bound, Backoff;
    if s.worker.Handling? && s.worker.stage.Failed? {
      var u := Scheduled(s.worker.stage.task, step.now);
      LeftAdded(s.limit, s.delayed, u, u.nextRetry, id);
    }
  }

  lemma {:induction false} CrashPays(s: System, id: string)
    requires Shape(s)
    ensures Pays(s, Crash, id)
  {
    hide Left, Tasks, ZRem, Members, Position, Bound;
    NoTasks();
    if s.worker.Claiming? { LeftRemoved(s.limit, s.delayed, s.worker.due[0], id); }
    assert Left(s.limit, [], id) == 0 by { NothingLeft(s.limit, id); }
  }

  lemma {:induction false} NothingLeft(limit: int, id: string)
    ensures Left(limit, [], id) == 0
  {}

  lemma {:induction false} StepPays(s: System, step: Step, id: string)
    requires Shape(s)
    ensures Pays(s, step, id)
  {
    hide Pays, Shape;
    if step.Handle? || step.Ack? {
      HandlePays(s, step, id);
    } else if step.ClaimAdd? || step.ClaimRemove? || step.AbortClaim? {
      ClaimPays(s, step, id);
    } else if step.Store? {
      StorePays(s, step, id);
    } else if step.Crash? {
      CrashPays(s, id);
    } else {
      StreamPays(s, step, id);
    }
  }

  lemma {:induction false} RunPays(maxRetries: int, steps: seq<Step>, id: string)
    ensures Times(maxRetries, steps, id) + Potential(Run(maxRetries, steps), id) <= Allowed(maxRetries, steps, id)
    decreases |steps|
  {
    hide Apply, Potential, Compensates, Grants, Shape;
    if steps == [] {
      NothingToDo(maxRetries, id);
    } else {
      var before := steps[..|steps| - 1];
      RunPays(maxRetries, before, id);
      RunKeepsShape(maxRetries, before);
      StepPays(Run(maxRetries, before), steps[|steps| - 1], id);
    }
  }

  lemma {:induction false} NothingToDo(maxRetries: int, id: string)
    ensures Potential(Initial(maxRetries), id) == 0
  {
    NoTasks();
  }

  /** In every run, crashes and store errors included and whether identifiers repeat or not:
      an identifier is compensated at most max(1, MaxRetries - first) times for each time it
      is enqueued with attempt number `first`, and max(1, MaxRetries - attempt) times more
      for each claim of it that is cut off half-way. */
  lemma {:induction false} TimesAreAllowed(maxRetries: int, steps: seq<Step>, id: string)
    ensures Times(maxRetries, steps, id) <= Allowed(maxRetries, steps, id)
  {
    RunPays(maxRetries, steps, id);
  }

  // ----- Unique identifiers and whole claims -----

  ghost predicate NoCutOff(maxRetries: int, steps: seq<Step>) {
    forall i :: 0 <= i < |steps| ==> !CutsOff(Run(maxRetries, steps[..i]), steps[i])
  }

  predicate Enqueues(step: Step, id: string, first: nat) { step.Enqueue? && step.id == id && step.first == first }

  lemma {:induction false} EnqueuedAt(maxRetries: int, steps: seq<Step>, i: nat)
    requires i < |steps| && steps[i].Enqueue?
    ensures steps[i].id in Run(maxRetries, steps).enqueued
    decreases |steps|
  {
    hide Apply;
    var n := |steps| - 1;
    KeepsRecords(Run(maxRetries, steps[..n]), steps[n]);
    if i < n { EnqueuedAt(maxRetries, steps[..n], i); }
  }

  lemma {:induction false} WholeSoFar(maxRetries: int, steps: seq<Step>)
    requires NoCutOff(maxRetries, steps) && steps != []
    ensures NoCutOff(maxRetries, steps[..|steps| - 1])
    ensures !CutsOff(Run(maxRetries, steps[..|steps| - 1]), steps[|steps| - 1])
  {
    hide Run, CutsOff;
    assert forall i :: 0 <= i < |steps| ==> steps[..|steps| - 1][..i] == steps[..i];
  }

  lemma {:induction false} NothingAllowed(maxRetries: int, steps: seq<Step>, id: string)
    requires id !in Run(maxRetries, steps).enqueued && NoCutOff(maxRetries, steps)
    ensures Allowed(maxRetries, steps, id) == 0
    decreases |steps|
  {
    hide Apply, CutsOff, NoCutOff;
    if steps != [] {
      WholeSoFar(maxRetries, steps);
      KeepsRecords(Run(maxRetries, steps[..|steps| - 1]), steps[|steps| - 1]);
      NothingAllowed(maxRetries, steps[..|steps| - 1], id);
    }
  }

  lemma {:induction false} LastIsNew<T>(a: seq<T>, x: T)
    requires Distinct(a + [x])
    ensures x !in a
  {
    var s := a + [x];
    forall i | 0 <= i < |a| ensures a[i] != x { assert s[i] != s[|a|]; }
  }

  lemma {:induction false} AllowedOnce(maxRetries: int, steps: seq<Step>, id: string, first: nat, i: nat)
    requires Distinct(Run(maxRetries, steps).enqueued) && NoCutOff(maxRetries, steps)
    requires i < |steps| && Enqueues(steps[i], id, first)
    ensures Allowed(maxRetries, steps, id) == Bound(Initial(maxRetries).limit, first)
    decreases |steps|
  {
    hide Apply, CutsOff, NoCutOff, Bound;
    var n := |steps| - 1;
    var s := Run(maxRetries, steps[..n]);
    WholeSoFar(maxRetries, steps);
    DistinctPrefix(maxRetries, steps);
    KeepsRecords(s, steps[n]);
    if steps[n].Enqueue? { LastIsNew(s.enqueued, steps[n].id); }
    if i == n {
      LimitStays(maxRetries, steps[..n]);
      NothingAllowed(maxRetries, steps[..n], id);
    } else {
      EnqueuedAt(maxRetries, steps[..n], i);
      AllowedOnce(maxRetries, steps[..n], id, first, i);
    }
  }

  /** With unique identifiers and no claim cut off half-way, in every run, whatever other
      crashes and store errors there are: a task enqueued with attempt number `first` is
      compensated at most max(1, MaxRetries - first) times. */
  lemma {:induction false} TimesAreBounded(maxRetries: int, steps: seq<Step>, id: string, first: nat, i: nat)
    requires Distinct(Run(maxRetries, steps).enqueued) && NoCutOff(maxRetries, steps)
    requires i < |steps| && Enqueues(steps[i], id, first)
    ensures Times(maxRetries, steps, id) <= Bound(Initial(maxRetries).limit, first)
  {
    TimesAreAllowed(maxRetries, steps, id);
    AllowedOnce(maxRetries, steps, id, first, i);
  }

  // ----- What the copies know -----

  /** A copy of a task, in whatever place. */
  ghost predicate Copy(s: System, t: Task) {
    || t in Tasks(s.unread) || t in Tasks(s.batch) || t in Tasks(s.orphans) || t in Members(s.delayed)
    || t in s.dlq || t in s.resolved || t in s.dropped || t in s.refused
    || (s.worker.Handling? && s.worker.stage.Failed? && t == s.worker.stage.task)
  }

  /** t comes from u by a step that compensates it or not. */
  predicate Follows(s: System, step: Step, u: Task, t: Task) {
    t.id == u.id && t.first == u.first && t.ran <= u.ran + (if Compensates(s, step, t.id) then 1 else 0)
  }

  lemma {:induction false} InMessages(msgs: seq<Msg>, m: Msg, t: Task)
    ensures t in Tasks(msgs + [m]) <==> t in Tasks(msgs) || m == Carries(t)
  {
    TasksAppend(msgs, m);
  }

  lemma {:induction false} DueIsCopy(s: System)
    requires Shape(s) && s.worker.Claiming?
    ensures Copy(s, s.worker.due[0])
  {
    var i := Position(s.delayed, s.worker.due[0]);
    assert Members(s.delayed)[i] == s.worker.due[0];
  }

  /** The stream only passes copies on. */
  lemma {:induction false} StreamCopies(s: System, step: Step, t: Task)
    requires Shape(s) && Copy(Apply(s, step), t)
    requires step.EnqueueGarbage? || step.ClaimAdd? || step.ReadBatch? || step.Crash? || step.Ack? || step.ReadDue?
             || step.AbortClaim?
    ensures Copy(s, t)
  {
    hide Tasks, Members, Position, DueList, ZRem;
    NoTasks();
    match step {
      case EnqueueGarbage => InMessages(s.unread, Garbage, t);
      case ClaimAdd => if s.worker.Claiming? { DueIsCopy(s); InMessages(s.unread, Carries(s.worker.due[0]), t); }
      case ReadBatch =>
        var n := if |s.unread| < BATCH then |s.unread| else BATCH;
        assert s.unread == s.unread[..n] + s.unread[n..];
        TasksConcat(s.unread[..n], s.unread[n..]);
      case Crash => TasksConcat(s.orphans, s.batch);
      case Ack(_) =>
        if s.batch != [] {
          TasksFirst(s.batch);
          InMessages(s.orphans, s.batch[0], t);
        }
      case _ =>
    }
  }

  lemma {:induction false} RemovedCopies(s: System, t: Task)
    requires Copy(Apply(s, ClaimRemove), t)
    ensures Copy(s, t)
  {
    hide Tasks, Members;
    if s.worker.Claiming? && s.worker.due != [] {
      var i := Position(s.delayed, s.worker.due[0]);
      if i < |s.delayed| { MembersSplit(s.delayed, i); }
    }
  }

  lemma {:induction false} HandleCopies(s: System, step: Step, t: Task) returns (u: Task)
    requires Shape(s) && step.Handle? && Copy(Apply(s, step), t)
    ensures Copy(s, u) && Follows(s, step, u, t)
  {
    hide Tasks, Members, Position, Distinct;
    u := t;
    if !Copy(s, t) {
      u := s.batch[0].task;
      TasksFirst(s.batch);
    }
  }

  lemma {:induction false} StoreCopies(s: System, step: Step, t: Task) returns (u: Task)
    requires step.Store? && Copy(Apply(s, step), t)
    ensures Copy(s, u) && Follows(s, step, u, t)
  {
    hide Tasks, Position, Backoff;
    u := t;
    if !Copy(s, t) { u := s.worker.stage.task; }
  }

  lemma {:induction false} StepCopies(s: System, step: Step, t: Task) returns (u: Task)
    requires Shape(s) && Copy(Apply(s, step), t)
    ensures (Copy(s, u) && Follows(s, step, u, t)) || (Enqueues(step, t.id, t.first) && t.ran == 0)
  {
    hide Copy, Shape, Apply;
    u := t;
    if step.Enqueue? {
      NewCopy(s, step, t);
    } else if step.Handle? {
      u := HandleCopies(s, step, t);
    } else if step.Store? {
      u := StoreCopies(s, step, t);
    } else if step.ClaimRemove? {
      RemovedCopies(s, t);
    } else {
      StreamCopies(s, step, t);
    }
  }

  lemma {:induction false} NewCopy(s: System, step: Step, t: Task)
    requires step.Enqueue? && Copy(Apply(s, step), t)
    ensures Copy(s, t) || (Enqueues(step, t.id, t.first) && t.ran == 0)
  {
    hide Tasks, Members;
    InMessages(s.unread, Carries(NewTask(step.id, step.filter, step.first)), t);
  }

  /** In every run each copy comes from a task that was enqueued, and the identifier has been
      compensated at least as often as the copy says. */
  lemma {:induction false} CopiesAreGenuine(maxRetries: int, steps: seq<Step>, t: Task) returns (i: nat)
    requires Copy(Run(maxRetries, steps), t)
    ensures i < |steps| && Enqueues(steps[i], t.id, t.first)
    ensures t.ran <= Times(maxRetries, steps, t.id)
    decreases |steps|
  {
    hide Copy, Shape, Apply, Compensates;
    i := 0;
    if steps == [] {
      NoCopies(maxRetries, t);
    } else {
      var n := |steps| - 1;
      RunKeepsShape(maxRetries, steps[..n]);
      var u := StepCopies(Run(maxRetries, steps[..n]), steps[n], t);
      i := n;
      if Copy(Run(maxRetries, steps[..n]), u) && Follows(Run(maxRetries, steps[..n]), steps[n], u, t) {
        i := CopiesAreGenuine(maxRetries, steps[..n], u);
      }
    }
  }

  lemma {:induction false} NoCopies(maxRetries: int, t: Task)
    ensures !Copy(Initial(maxRetries), t)
  {}

  /** With unique identifiers and no claim cut off half-way: every task, wherever it is, has
      been compensated at most max(1, MaxRetries - first) times, and a dead letter exactly
      that often. */
  lemma {:induction false} DeadLettersAreSpent(maxRetries: int, steps: seq<Step>, t: Task)
    requires Distinct(Run(maxRetries, steps).enqueued) && NoCutOff(maxRetries, steps)
    requires Copy(Run(maxRetries, steps), t)
    ensures Times(maxRetries, steps, t.id) <= Bound(Run(maxRetries, steps).limit, t.first)
    ensures t in Run(maxRetries, steps).dlq ==>
            Times(maxRetries, steps, t.id) == Bound(Run(maxRetries, steps).limit, t.first)
  {
    hide Run, Copy, Bound;
    var s := Run(maxRetries, steps);
    var i := CopiesAreGenuine(maxRetries, steps, t);
    TimesAreBounded(maxRetries, steps, t.id, t.first, i);
    LimitStays(maxRetries, steps);
    CompensationsAreBounded(maxRetries, steps);
    if t in s.dlq {
      var j :| 0 <= j < |s.dlq| && s.dlq[j] == t;
      assert s.dlq[j].ran == Bound(s.limit, t.first);
    }
  }
}
