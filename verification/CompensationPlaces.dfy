/** Where each task of the compensation queue is. */
module CompensationPlaces {
  import opened Compensation

  // ----- Identifiers -----

  ghost function Ids(ts: seq<Task>): (m: multiset<string>)
    ensures |m| == |ts|
    decreases |ts|
  {
    if ts == [] then multiset{} else Ids(ts[..|ts| - 1]) + multiset{ts[|ts| - 1].id}
  }

  lemma {:induction false} IdsConcat(a: seq<Task>, b: seq<Task>)
    ensures Ids(a + b) == Ids(a) + Ids(b)
    decreases |b|
  {
    if b == [] {
      assert a + b == a;
    } else {
      assert (a + b)[..|a + b| - 1] == a + b[..|b| - 1];
      IdsConcat(a, b[..|b| - 1]);
    }
  }

  lemma {:induction false} IdsOne(t: Task)
    ensures Ids([t]) == multiset{t.id}
  {
    assert [t][..0] == [];
  }

  lemma {:induction false} IdsHas(ts: seq<Task>, i: nat)
    requires i < |ts|
    ensures ts[i].id in Ids(ts)
  {
    assert ts == ts[..i] + [ts[i]] + ts[i + 1..];
    IdsConcat(ts[..i] + [ts[i]], ts[i + 1..]);
    IdsConcat(ts[..i], [ts[i]]);
    IdsOne(ts[i]);
  }

  lemma {:induction false} IdsAppend(ts: seq<Task>, t: Task)
    ensures Ids(ts + [t]) == Ids(ts) + multiset{t.id}
  {
    IdsConcat(ts, [t]);
    IdsOne(t);
  }

  lemma {:induction false} DistinctCounts<T>(s: seq<T>, x: T)
    requires Distinct(s)
    ensures multiset(s)[x] == if x in s then 1 else 0
    decreases |s|
  {
    if s != [] {
      var n := |s| - 1;
      assert s == s[..n] + [s[n]];
      DistinctCounts(s[..n], x);
    }
  }

  lemma {:induction false} NoTasks()
    ensures Tasks([]) == [] && Ids([]) == multiset{}
  {}

  // ----- Places -----

  /** The tasks the worker has in hand: a failed one as it will be stored, a finished one
      not any more. */
  function InHand(s: System): seq<Task> {
    if s.worker.Handling? && s.worker.stage.Failed? then [s.worker.stage.task] + Tasks(Rest(s.batch))
    else if s.worker == Handling(Acking) then Tasks(Rest(s.batch))
    else Tasks(s.batch)
  }

  /** The delayed tasks, without one that is already back in the stream. */
  function Waiting(s: System): seq<Task> {
    if s.worker.Claiming? && s.worker.added && s.worker.due != [] then Members(ZRem(s.delayed, s.worker.due[0]))
    else Members(s.delayed)
  }

  ghost function Placed(s: System): multiset<string> {
    Ids(Tasks(s.unread)) + Ids(InHand(s)) + Ids(Waiting(s)) + Ids(Tasks(s.orphans)) + Finished(s)
  }

  ghost function Finished(s: System): multiset<string> { Ids(s.dlq) + Ids(s.resolved) + Ids(s.dropped) }

  ghost predicate Conserved(s: System) { Placed(s) + Ids(s.refused) == multiset(s.enqueued) }

  /** The steps that leave a task in two places: a claim cut off between adding a task to the
      stream and removing it from the delayed set, and a message left unacknowledged after
      its task has gone elsewhere. */
  predicate Duplicates(s: System, step: Step) {
    || ((step == Crash || step == AbortClaim) && s.worker.Claiming? && s.worker.added)
    || ((step == Crash || step == Ack(false)) && s.worker == Handling(Acking) && s.batch != [] && s.batch[0].Carries?)
  }

  lemma {:induction false} Removed(entries: seq<Entry>, t: Task)
    requires Position(entries, t) < |entries|
    ensures Ids(Members(entries)) == Ids(Members(ZRem(entries, t))) + multiset{t.id}
  {
    hide Ids, Position, Members;
    var i := Position(entries, t);
    var a, b := entries[..i], entries[i + 1..];
    MembersSplit(entries, i);
    IdsConcat(Members(a) + [t], Members(b));
    IdsAppend(Members(a), t);
    IdsConcat(Members(a), Members(b));
  }

  lemma {:induction false} EnqueueConserves(s: System, m: Msg)
    requires Shape(s)
    ensures var s' := s.(unread := s.unread + [m]);
            Placed(s') == Placed(s) + (if m.Carries? then multiset{m.task.id} else multiset{})
  {
    hide ZRem, Position, Ids, Tasks;
    TasksAppend(s.unread, m);
    if m.Carries? {
      IdsAppend(Tasks(s.unread), m.task);
    } else {
      assert Tasks(s.unread) + [] == Tasks(s.unread);
    }
  }

  lemma {:induction false} ClaimConserves(s: System, step: Step)
    requires Shape(s) && (step.ClaimAdd? || step.ClaimRemove?)
    ensures Placed(Apply(s, step)) == Placed(s)
  {
    hide ZRem, Position, Ids, Tasks, Members;
    if s.worker.Claiming? && step == ClaimAdd && !s.worker.added {
      var t := s.worker.due[0];
      Removed(s.delayed, t);
      TasksAppend(s.unread, Carries(t));
      IdsAppend(Tasks(s.unread), t);
    }
  }

  lemma {:induction false} ReadBatchConserves(s: System)
    requires Shape(s)
    ensures Placed(Apply(s, ReadBatch)) == Placed(s)
  {
    hide ZRem, Ids, Tasks, Members, Position;
    if s.worker.Ready? && s.unread != [] {
      var n := if |s.unread| < BATCH then |s.unread| else BATCH;
      assert s.unread == s.unread[..n] + s.unread[n..];
      TasksConcat(s.unread[..n], s.unread[n..]);
      IdsConcat(Tasks(s.unread[..n]), Tasks(s.unread[n..]));
      NoTasks();
    }
  }

  lemma {:induction false} HandIds(batch: seq<Msg>)
    requires batch != []
    ensures Ids(Tasks(batch))
            == (if batch[0].Carries? then multiset{batch[0].task.id} else multiset{}) + Ids(Tasks(batch[1..]))
  {
    hide Ids, Tasks;
    TasksFirst(batch);
    if batch[0].Carries? {
      HeadLeaves(batch[0].task, Tasks(batch[1..]));
    } else {
      assert Tasks(batch) == Tasks(batch[1..]);
    }
  }

  lemma {:induction false} HeadLeaves(t: Task, rest: seq<Task>)
    ensures Ids([t] + rest) == multiset{t.id} + Ids(rest)
  {
    hide Ids;
    IdsConcat([t], rest);
    IdsOne(t);
  }

  lemma {:induction false} HandleConserves(s: System, known: bool, ok: bool, error: string)
    requires Shape(s)
    ensures var s' := Apply(s, Handle(known, ok, error)); Placed(s') == Placed(s)
  {
    hide ZRem, Position, Ids, Tasks, Members, Distinct;
    var s' := Apply(s, Handle(known, ok, error));
    if s.worker == Handling(Fresh) {
      assert Waiting(s') == Waiting(s);
      var rest := Tasks(s.batch[1..]);
      HandIds(s.batch);
      if s.batch[0].Carries? {
        var t := s.batch[0].task;
        IdsAppend(s.dropped, t);
        IdsAppend(s.resolved, Compensated(t));
        HeadLeaves(Compensated(t).(attempt := t.attempt + 1, error := error), rest);
      }
    }
  }

  lemma {:induction false} NotWaiting(s: System, t: Task, u: Task)
    requires Conserved(s) && Distinct(s.enqueued) && s.worker == Handling(Failed(t)) && u.id == t.id
    ensures Position(s.delayed, u) == |s.delayed|
  {
    hide Position;
    var i := Position(s.delayed, u);
    if i < |s.delayed| {
      IdsHas(Members(s.delayed), i);
      IdsHas(InHand(s), 0);
      assert (Placed(s) + Ids(s.refused))[t.id] >= 2;
      DistinctCounts(s.enqueued, t.id);
    }
  }

  /** A failed task leaves the worker's hand. */
  lemma {:induction false} HandEmpties(s: System)
    requires Shape(s) && s.worker.Handling? && s.worker.stage.Failed?
    ensures var s' := s.(worker := Handling(Acking)); Placed(s) == Placed(s') + multiset{s.worker.stage.task.id}
  {
    hide Ids, Tasks, Members, ZRem, Position;
    HeadLeaves(s.worker.stage.task, Tasks(s.batch[1..]));
  }

  /** It arrives among the dead letters or the delayed retries. */
  lemma {:induction false} StoredArrives(s: System, t: Task, u: Task, due: int)
    requires s.worker == Handling(Acking) && Position(s.delayed, u) == |s.delayed| && u.id == t.id
    ensures Placed(s.(dlq := s.dlq + [t])) == Placed(s) + multiset{t.id}
    ensures Placed(s.(delayed := ZAdd(s.delayed, u, due))) == Placed(s) + multiset{t.id}
  {
    hide Ids, Tasks, Members, ZRem, ZAdd, Position;
    IdsAppend(s.dlq, t);
    NewMember(s.delayed, u, due);
  }

  lemma {:induction false} StoreConserves(s: System, now: int, stored: bool)
    requires Shape(s) && Conserved(s) && Distinct(s.enqueued)
    ensures var s' := Apply(s, Store(now, stored)); Placed(s') + Ids(s'.refused) == Placed(s) + Ids(s.refused)
  {
    hide Position, Ids, Placed, ZAdd, Distinct, Shape, Conserved, Backoff;
    if s.worker.Handling? && s.worker.stage.Failed? {
      var t := s.worker.stage.task;
      var u := Scheduled(t, now);
      NotWaiting(s, t, u);
      HandEmpties(s);
      StoredArrives(s.(worker := Handling(Acking)), t, u, u.nextRetry);
      IdsAppend(s.refused, t);
      if !stored { SameButRefused(s.(worker := Handling(Acking)), s.refused + [t]); }
    }
  }

  lemma {:induction false} SameButRefused(s: System, refused: seq<Task>)
    ensures Placed(s.(refused := refused)) == Placed(s)
  {
    hide Ids, Tasks, Members, ZRem;
  }

  lemma {:induction false} NewMember(entries: seq<Entry>, t: Task, due: int)
    requires Position(entries, t) == |entries|
    ensures Ids(Members(ZAdd(entries, t, due))) == Ids(Members(entries)) + multiset{t.id}
  {
    hide Ids, Position;
    IdsAppend(Members(entries), t);
    assert Members(entries + [Entry(t, due)]) == Members(entries) + [t];
  }

  lemma {:induction false} AckConserves(s: System, acked: bool)
    requires Shape(s) && !Duplicates(s, Ack(acked))
    ensures Placed(Apply(s, Ack(acked))) == Placed(s)
  {
    hide ZRem, Position, Ids, Tasks;
    if s.worker == Handling(Acking) && !acked {
      TasksAppend(s.orphans, s.batch[0]);
      assert Tasks(s.orphans) + [] == Tasks(s.orphans);
    }
  }

  lemma {:induction false} CrashConserves(s: System)
    requires Shape(s) && !Duplicates(s, Crash)
    ensures Placed(Apply(s, Crash)) == Placed(s)
  {
    hide ZRem, Position, Ids, Tasks;
    TasksConcat(s.orphans, s.batch);
    IdsConcat(Tasks(s.orphans), Tasks(s.batch));
    NoTasks();
    if s.worker.Handling? {
      HandIds(s.batch);
      if s.worker.stage.Failed? { HeadLeaves(s.worker.stage.task, Tasks(s.batch[1..])); }
    }
  }

  lemma {:induction false} StepConserves(s: System, step: Step)
    requires Shape(s) && Conserved(s) && !Duplicates(s, step) && Distinct(Apply(s, step).enqueued)
    ensures Conserved(Apply(s, step))
  {
    hide Shape, Placed, Duplicates, Ids;
    KeepsRecords(s, step);
    match step {
      case Enqueue(id, filter, first) =>
        var m := Carries(NewTask(id, filter, first));
        EnqueueConserves(s, m);
        SamePlaces(s.(unread := s.unread + [m]), Apply(s, step));
      case EnqueueGarbage => EnqueueConserves(s, Garbage);
      case ReadDue(order, now) => IdleConserves(s, step);
      case AbortClaim => IdleConserves(s, step);
      case ReadBatch => ReadBatchConserves(s);
      case ClaimAdd => ClaimConserves(s, step);
      case ClaimRemove => ClaimConserves(s, step);
      case Handle(known, ok, error) => HandleConserves(s, known, ok, error);
      case Store(now, stored) => StoreConserves(s, now, stored);
      case Ack(acked) => AckConserves(s, acked);
      case Crash => CrashConserves(s);
    }
  }

  /** Reading what is due and giving up a claim before anything was added move nothing. */
  lemma {:induction false} IdleConserves(s: System, step: Step)
    requires (step.ReadDue? || step.AbortClaim?) && !Duplicates(s, step)
    ensures Placed(Apply(s, step)) == Placed(s)
  {
    hide ZRem, Ids, Tasks, Members, DueList;
  }

  lemma {:induction false} SamePlaces(s: System, s': System)
    requires s' == s.(enqueued := s'.enqueued)
    ensures Placed(s') == Placed(s)
  {
    hide Ids, Tasks, ZRem, Position;
  }

  lemma {:induction false} KeepsRecords(s: System, step: Step)
    ensures Apply(s, step).enqueued == if step.Enqueue? then s.enqueued + [step.id] else s.enqueued
    ensures !step.Store? ==> Apply(s, step).refused == s.refused
  {
    hide ZAdd, ZRem, Scheduled;
  }

  // ----- Every run -----

  /** No step of the run leaves a task in two places. */
  ghost predicate NoDuplicates(maxRetries: int, steps: seq<Step>) {
    forall i :: 0 <= i < |steps| ==> !Duplicates(Run(maxRetries, steps[..i]), steps[i])
  }

  /** Step i is the storing of a failed task, which the store refuses. */
  ghost predicate RefusedAt(maxRetries: int, steps: seq<Step>, i: nat, id: string) {
    && i < |steps| && steps[i].Store? && !steps[i].stored
    && var w := Run(maxRetries, steps[..i]).worker; w.Handling? && w.stage.Failed? && w.stage.task.id == id
  }

  ghost predicate Refused(maxRetries: int, steps: seq<Step>, id: string) {
    exists i: nat :: RefusedAt(maxRetries, steps, i, id)
  }

  lemma {:induction false} RefusedLater(maxRetries: int, steps: seq<Step>, step: Step, id: string)
    ensures Refused(maxRetries, steps + [step], id)
            <==> Refused(maxRetries, steps, id) || RefusedAt(maxRetries, steps + [step], |steps|, id)
  {
    hide Run;
    var more := steps + [step];
    assert forall i :: 0 <= i <= |steps| ==> more[..i] == steps[..i];
    forall i: nat | i < |steps| ensures RefusedAt(maxRetries, more, i, id) <==> RefusedAt(maxRetries, steps, i, id) {}
    if Refused(maxRetries, more, id) {
      var i: nat :| RefusedAt(maxRetries, more, i, id);
      assert i < |steps| ==> RefusedAt(maxRetries, steps, i, id);
    }
    if Refused(maxRetries, steps, id) {
      var i: nat :| RefusedAt(maxRetries, steps, i, id);
      assert RefusedAt(maxRetries, more, i, id);
    }
  }

  /** The record of refused tasks is what the steps say. */
  lemma {:induction false} RefusedIsRecorded(maxRetries: int, steps: seq<Step>, id: string)
    ensures id in Ids(Run(maxRetries, steps).refused) <==> Refused(maxRetries, steps, id)
    decreases |steps|
  {
    hide Refused, Ids;
    if steps == [] {
      NoTasks();
      NeverRefused(maxRetries, id);
    } else {
      var before, step := steps[..|steps| - 1], steps[|steps| - 1];
      assert before + [step] == steps;
      RefusedIsRecorded(maxRetries, before, id);
      RefusedLater(maxRetries, before, step, id);
      RefusedOnce(Run(maxRetries, before), step, id);
    }
  }

  lemma {:induction false} NeverRefused(maxRetries: int, id: string)
    ensures !Refused(maxRetries, [], id)
  {}

  lemma {:induction false} RefusedOnce(s: System, step: Step, id: string)
    ensures id in Ids(Apply(s, step).refused) <==>
              id in Ids(s.refused)
              || (step.Store? && !step.stored && s.worker.Handling? && s.worker.stage.Failed?
                 && s.worker.stage.task.id == id)
  {
    hide ZAdd, ZRem, Ids, Scheduled;
    KeepsRecords(s, step);
    if step.Store? && s.worker.Handling? && s.worker.stage.Failed? { IdsAppend(s.refused, s.worker.stage.task); }
  }

  lemma {:induction false} DistinctPrefix(maxRetries: int, steps: seq<Step>)
    requires steps != [] && Distinct(Run(maxRetries, steps).enqueued)
    ensures Distinct(Run(maxRetries, steps[..|steps| - 1]).enqueued)
  {
    hide Apply;
    var before := Run(maxRetries, steps[..|steps| - 1]);
    KeepsRecords(before, steps[|steps| - 1]);
    assert before.enqueued == Run(maxRetries, steps).enqueued[..|before.enqueued|];
  }

  lemma {:induction false} RunConserves(maxRetries: int, steps: seq<Step>)
    requires NoDuplicates(maxRetries, steps) && Distinct(Run(maxRetries, steps).enqueued)
    ensures Conserved(Run(maxRetries, steps))
    decreases |steps|
  {
    hide Apply, Duplicates;
    if steps == [] {
      NoTasks();
    } else {
      var n := |steps| - 1;
      assert forall i :: 0 <= i < n ==> steps[..n][..i] == steps[..i];
      DistinctPrefix(maxRetries, steps);
      RunConserves(maxRetries, steps[..n]);
      RunKeepsShape(maxRetries, steps[..n]);
      StepConserves(Run(maxRetries, steps[..n]), steps[n]);
    }
  }

  lemma {:induction false} OneOrNone(s: System, id: string)
    requires Conserved(s) && Distinct(s.enqueued)
    ensures Placed(s)[id] == if id in s.enqueued && id !in Ids(s.refused) then 1 else 0
  {
    hide Placed, Ids;
    DistinctCounts(s.enqueued, id);
    assert (Placed(s) + Ids(s.refused))[id] == Placed(s)[id] + Ids(s.refused)[id];
  }

  /** With unique identifiers, and as long as no claim was cut off half-way and no
      acknowledgement was missed: each enqueued task is in exactly one place (unread, in
      hand, waiting, unacknowledged, dead, resolved or dropped), unless the store refused to
      keep it after a failure; then, and only then, it is nowhere. */
  lemma {:induction false} ExactlyOnePlace(maxRetries: int, steps: seq<Step>, id: string)
    requires NoDuplicates(maxRetries, steps) && Distinct(Run(maxRetries, steps).enqueued)
    ensures var s := Run(maxRetries, steps);
            Ids(Tasks(s.unread))[id] + Ids(InHand(s))[id] + Ids(Waiting(s))[id] + Ids(Tasks(s.orphans))[id]
            + Ids(s.dlq)[id] + Ids(s.resolved)[id] + Ids(s.dropped)[id]
            == if id in s.enqueued && !Refused(maxRetries, steps, id) then 1 else 0
  {
    hide Run, Ids, Tasks, InHand, Waiting, Refused, NoDuplicates, Conserved;
    RunConserves(maxRetries, steps);
    RefusedIsRecorded(maxRetries, steps, id);
    OneOrNone(Run(maxRetries, steps), id);
  }

  // ----- Exactly when a task is in one place -----

  /** What such a step leaves twice. */
  function DuplicateId(s: System): string
    requires Shape(s) && (s.worker.Claiming? || (s.batch != [] && s.batch[0].Carries?))
  {
    if s.worker.Claiming? then s.worker.due[0].id else s.batch[0].task.id
  }

  lemma {:induction false} CutOffAdds(s: System, step: Step)
    requires Shape(s) && Duplicates(s, step) && s.worker.Claiming?
    ensures Placed(Apply(s, step)) == Placed(s) + multiset{DuplicateId(s)}
  {
    hide ZRem, Position, Ids, Tasks, Members;
    Removed(s.delayed, s.worker.due[0]);
    assert s.orphans + [] == s.orphans;
  }

  lemma {:induction false} MissedAckAdds(s: System, step: Step)
    requires Shape(s) && Duplicates(s, step) && !s.worker.Claiming?
    ensures Placed(Apply(s, step)) == Placed(s) + multiset{DuplicateId(s)}
  {
    hide ZRem, Position, Ids, Tasks, Members;
    var t := s.batch[0].task;
    if step == Crash {
      TasksConcat(s.orphans, s.batch);
      IdsConcat(Tasks(s.orphans), Tasks(s.batch));
      HandIds(s.batch);
      NoTasks();
    } else {
      TasksAppend(s.orphans, s.batch[0]);
      IdsAppend(Tasks(s.orphans), t);
      if |s.batch| == 1 { NoTasks(); }
    }
  }

  /** How many places an identifier should be in. */
  ghost function Expected(maxRetries: int, steps: seq<Step>, id: string): nat {
    if id in Run(maxRetries, steps).enqueued && !Refused(maxRetries, steps, id) then 1 else 0
  }

  ghost predicate OnePlace(maxRetries: int, steps: seq<Step>) {
    forall id :: Placed(Run(maxRetries, steps))[id] == Expected(maxRetries, steps, id)
  }

  lemma {:induction false} OnePlaceAtEnd(maxRetries: int, steps: seq<Step>)
    requires NoDuplicates(maxRetries, steps) && Distinct(Run(maxRetries, steps).enqueued)
    ensures OnePlace(maxRetries, steps)
  {
    hide Run, Ids, Placed, Refused, NoDuplicates, Conserved;
    forall id ensures Placed(Run(maxRetries, steps))[id] == Expected(maxRetries, steps, id) {
      RunConserves(maxRetries, steps);
      RefusedIsRecorded(maxRetries, steps, id);
      OneOrNone(Run(maxRetries, steps), id);
    }
  }

  lemma {:induction false} RunGrows(maxRetries: int, steps: seq<Step>, step: Step)
    ensures Run(maxRetries, steps + [step]) == Apply(Run(maxRetries, steps), step)
  {
    hide Apply;
    assert (steps + [step])[..|steps|] == steps;
  }

  /** A step that leaves a task twice breaks it. */
  lemma {:induction false} DuplicateShows(maxRetries: int, steps: seq<Step>, step: Step)
    requires OnePlace(maxRetries, steps) && Duplicates(Run(maxRetries, steps), step)
    ensures !OnePlace(maxRetries, steps + [step])
  {
    hide Run, Placed, Apply, Refused;
    var s := Run(maxRetries, steps);
    RunGrows(maxRetries, steps, step);
    RunKeepsShape(maxRetries, steps);
    KeepsRecords(s, step);
    var id := DuplicateId(s);
    if s.worker.Claiming? { CutOffAdds(s, step); } else { MissedAckAdds(s, step); }
    RefusedLater(maxRetries, steps, step, id);
    assert Placed(Run(maxRetries, steps + [step]))[id] == Expected(maxRetries, steps, id) + 1;
  }

  lemma {:induction false} DistinctAt(maxRetries: int, steps: seq<Step>, n: nat)
    requires n <= |steps| && Distinct(Run(maxRetries, steps).enqueued)
    ensures Distinct(Run(maxRetries, steps[..n]).enqueued)
    decreases |steps|
  {
    hide Run, Distinct;
    if n == |steps| {
      assert steps[..n] == steps;
    } else {
      DistinctPrefix(maxRetries, steps);
      DistinctAt(maxRetries, steps[..|steps| - 1], n);
      assert steps[..|steps| - 1][..n] == steps[..n];
    }
  }

  /** With unique identifiers: at every moment of a run each task is where it should be, in
      one place and no other, if and only if no claim was cut off half-way and no
      acknowledgement was missed after the work was done. */
  lemma {:induction false} ExactlyOnePlaceIff(maxRetries: int, steps: seq<Step>)
    requires Distinct(Run(maxRetries, steps).enqueued)
    ensures (forall n :: 0 <= n <= |steps| ==> OnePlace(maxRetries, steps[..n])) <==> NoDuplicates(maxRetries, steps)
  {
    hide Run, OnePlace, Duplicates;
    if NoDuplicates(maxRetries, steps) {
      forall n | 0 <= n <= |steps| ensures OnePlace(maxRetries, steps[..n]) {
        DistinctAt(maxRetries, steps, n);
        assert forall i :: 0 <= i < n ==> steps[..n][..i] == steps[..i];
        OnePlaceAtEnd(maxRetries, steps[..n]);
      }
    } else {
      var i :| 0 <= i < |steps| && Duplicates(Run(maxRetries, steps[..i]), steps[i]);
      if OnePlace(maxRetries, steps[..i]) {
        DuplicateShows(maxRetries, steps[..i], steps[i]);
        assert steps[..i] + [steps[i]] == steps[..i + 1];
      }
    }
  }
}
