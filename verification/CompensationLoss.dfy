/** What the compensation queue can lose, whatever crashes and store errors there are. */
module CompensationLoss {
  import opened Compensation
  import opened CompensationPlaces

  ghost predicate Has(ts: seq<Task>, id: string) { exists i :: 0 <= i < |ts| && ts[i].id == id }

  ghost predicate Stored(s: System, id: string) {
    Has(Members(s.delayed), id) || Has(s.dlq, id) || Has(s.resolved, id) || Has(s.dropped, id)
  }

  ghost predicate Kept(s: System, id: string) {
    Has(Tasks(s.unread), id) || Has(Tasks(s.batch), id) || Has(Tasks(s.orphans), id) || Stored(s, id)
  }

  /** Kept somewhere, or refused by the store after a failure. */
  ghost predicate Accounted(s: System, id: string) { Kept(s, id) || Has(s.refused, id) }

  /** Nothing is taken from where it was before it is somewhere else, or was refused. */
  ghost predicate Safe(s: System) {
    && (forall id :: id in s.enqueued ==> Accounted(s, id))
    && (s.worker.Claiming? && s.worker.added ==> s.worker.due != [] && Has(Tasks(s.unread), s.worker.due[0].id))
    && (s.worker == Handling(Acking) && s.batch != [] && s.batch[0].Carries? ==>
          Stored(s, s.batch[0].task.id) || Has(s.refused, s.batch[0].task.id))
  }

  lemma {:induction false} HasConcat(a: seq<Task>, b: seq<Task>, id: string)
    ensures Has(a + b, id) <==> Has(a, id) || Has(b, id)
  {
    if Has(a, id) {
      var i :| 0 <= i < |a| && a[i].id == id;
      assert (a + b)[i].id == id;
    }
    if Has(b, id) {
      var i :| 0 <= i < |b| && b[i].id == id;
      assert (a + b)[|a| + i].id == id;
    }
    if Has(a + b, id) {
      var i :| 0 <= i < |a + b| && (a + b)[i].id == id;
      assert if i < |a| then a[i].id == id else b[i - |a|].id == id;
    }
  }

  lemma {:induction false} HasOne(t: Task, id: string)
    ensures Has([t], id) <==> t.id == id
  {
    assert [t][0] == t;
  }

  lemma {:induction false} HasAppend(ts: seq<Task>, t: Task, id: string)
    ensures Has(ts + [t], id) <==> Has(ts, id) || t.id == id
  {
    HasConcat(ts, [t], id);
    HasOne(t, id);
  }

  lemma {:induction false} HasMessage(msgs: seq<Msg>, m: Msg, id: string)
    ensures Has(Tasks(msgs + [m]), id) <==> Has(Tasks(msgs), id) || (m.Carries? && m.task.id == id)
  {
    hide Has, Tasks;
    TasksAppend(msgs, m);
    if m.Carries? {
      HasAppend(Tasks(msgs), m.task, id);
    } else {
      assert Tasks(msgs) + [] == Tasks(msgs);
    }
  }

  lemma {:induction false} HasMember(entries: seq<Entry>, t: Task, due: int, id: string)
    ensures Has(Members(ZAdd(entries, t, due)), id) <==> Has(Members(entries), id) || t.id == id
  {
    hide Has, Position;
    var i := Position(entries, t);
    if i < |entries| {
      assert Members(ZAdd(entries, t, due)) == Members(entries);
      HasAt(Members(entries), i);
    } else {
      assert Members(ZAdd(entries, t, due)) == Members(entries) + [t];
      HasAppend(Members(entries), t, id);
    }
  }

  lemma {:induction false} HasAt(ts: seq<Task>, i: nat)
    requires i < |ts|
    ensures Has(ts, ts[i].id)
  {}

  lemma {:induction false} HasOthers(entries: seq<Entry>, t: Task, id: string)
    ensures Has(Members(entries), id) ==> Has(Members(ZRem(entries, t)), id) || t.id == id
  {
    hide Has, Position;
    var i := Position(entries, t);
    if i < |entries| {
      var a, b := entries[..i], entries[i + 1..];
      MembersSplit(entries, i);
      HasConcat(Members(a) + [t], Members(b), id);
      HasAppend(Members(a), t, id);
      HasConcat(Members(a), Members(b), id);
    }
  }

  lemma {:induction false} StreamStaysSafe(s: System, m: Msg, worker: Worker, enqueued: seq<string>)
    requires Safe(s)
    requires forall id :: id in enqueued ==> id in s.enqueued || (m.Carries? && m.task.id == id)
    requires if worker == s.worker then true
             else
               && s.worker.Claiming? && worker.Claiming? && worker.due != []
               && m.Carries? && m.task.id == worker.due[0].id
    ensures Safe(s.(unread := s.unread + [m], worker := worker, enqueued := enqueued))
  {
    hide Has, Tasks, Members;
    forall id ensures Has(Tasks(s.unread + [m]), id) <==> Has(Tasks(s.unread), id) || (m.Carries? && m.task.id == id) {
      HasMessage(s.unread, m, id);
    }
  }

  lemma {:induction false} ReadStaysSafe(s: System, step: Step)
    requires Shape(s) && Safe(s) && (step.ReadBatch? || step.Crash? || step.ReadDue? || step.AbortClaim?)
    ensures Safe(Apply(s, step))
  {
    hide Has, Tasks, Members, DueList;
    var s' := Apply(s, step);
    if step.ReadBatch? && s.worker.Ready? && s.unread != [] {
      var n := if |s.unread| < BATCH then |s.unread| else BATCH;
      assert s.unread == s.unread[..n] + s.unread[n..];
      TasksConcat(s.unread[..n], s.unread[n..]);
      forall id | Accounted(s, id) ensures Accounted(s', id) {
        NothingThere(id);
        HasConcat(Tasks(s.unread[..n]), Tasks(s.unread[n..]), id);
      }
    } else if step.Crash? {
      TasksConcat(s.orphans, s.batch);
      forall id | Accounted(s, id) ensures Accounted(s', id) { HasConcat(Tasks(s.orphans), Tasks(s.batch), id); }
    }
  }

  lemma {:induction false} NothingThere(id: string)
    ensures !Has(Tasks([]), id)
  {}

  lemma {:induction false} ClaimRemoveStaysSafe(s: System)
    requires Safe(s)
    ensures Safe(Apply(s, ClaimRemove))
  {
    hide Has, Tasks, Members, ZRem;
    var s' := Apply(s, ClaimRemove);
    if s.worker.Claiming? && s.worker.added {
      forall id | Accounted(s, id) ensures Accounted(s', id) { HasOthers(s.delayed, s.worker.due[0], id); }
    }
  }

  lemma {:induction false} HandleStaysSafe(s: System, known: bool, ok: bool, error: string)
    requires Shape(s) && Safe(s)
    ensures Safe(Apply(s, Handle(known, ok, error)))
  {
    hide Has, Tasks, Members;
    var s' := Apply(s, Handle(known, ok, error));
    if s.worker == Handling(Fresh) && s.batch[0].Carries? {
      var t := s.batch[0].task;
      HasAppend(s.dropped, t, t.id);
      HasAppend(s.resolved, Compensated(t), t.id);
      forall id | Accounted(s, id) ensures Accounted(s', id) {
        HasAppend(s.dropped, t, id);
        HasAppend(s.resolved, Compensated(t), id);
      }
    }
  }

  lemma {:induction false} StoreStaysSafe(s: System, now: int, stored: bool)
    requires Shape(s) && Safe(s)
    ensures Safe(Apply(s, Store(now, stored)))
  {
    hide Has, Tasks, Members, ZAdd, Backoff, Position;
    var s' := Apply(s, Store(now, stored));
    if s.worker.Handling? && s.worker.stage.Failed? {
      var t := s.worker.stage.task;
      var u := Scheduled(t, now);
      HasAppend(s.refused, t, t.id);
      HasAppend(s.dlq, t, t.id);
      HasMember(s.delayed, u, u.nextRetry, t.id);
      forall id | Accounted(s, id) ensures Accounted(s', id) {
        HasAppend(s.refused, t, id);
        HasAppend(s.dlq, t, id);
        HasMember(s.delayed, u, u.nextRetry, id);
      }
    }
  }

  lemma {:induction false} AckStaysSafe(s: System, acked: bool)
    requires Shape(s) && Safe(s)
    ensures Safe(Apply(s, Ack(acked)))
  {
    hide Has, Tasks, Members, Position;
    var s' := Apply(s, Ack(acked));
    if s.worker == Handling(Acking) {
      TasksFirst(s.batch);
      forall id | Accounted(s, id) ensures Accounted(s', id) {
        HasMessage(s.orphans, s.batch[0], id);
        if s.batch[0].Carries? {
          HasConcat([s.batch[0].task], Tasks(s.batch[1..]), id);
          HasOne(s.batch[0].task, id);
        } else {
          assert Tasks(s.batch) == Tasks(s.batch[1..]);
        }
      }
    }
  }

  lemma {:induction false} StepStaysSafe(s: System, step: Step)
    requires Shape(s) && Safe(s)
    ensures Safe(Apply(s, step))
  {
    hide Safe, Shape;
    match step {
      case Enqueue(id, filter, first) =>
        StreamStaysSafe(s, Carries(NewTask(id, filter, first)), s.worker, s.enqueued + [id]);
      case EnqueueGarbage => StreamStaysSafe(s, Garbage, s.worker, s.enqueued);
      case ClaimAdd =>
        if Apply(s, step) != s {
          StreamStaysSafe(s, Carries(s.worker.due[0]), Claiming(s.worker.due, true), s.enqueued);
        }
      case ReadDue(_, _) => ReadStaysSafe(s, step);
      case ReadBatch => ReadStaysSafe(s, step);
      case AbortClaim => ReadStaysSafe(s, step);
      case Crash => ReadStaysSafe(s, step);
      case ClaimRemove => ClaimRemoveStaysSafe(s);
      case Handle(known, ok, error) => HandleStaysSafe(s, known, ok, error);
      case Store(now, stored) => StoreStaysSafe(s, now, stored);
      case Ack(acked) => AckStaysSafe(s, acked);
    }
  }

  lemma {:induction false} RunStaysSafe(maxRetries: int, steps: seq<Step>)
    ensures Safe(Run(maxRetries, steps))
    decreases |steps|
  {
    hide Apply;
    if steps != [] {
      RunStaysSafe(maxRetries, steps[..|steps| - 1]);
      RunKeepsShape(maxRetries, steps[..|steps| - 1]);
      StepStaysSafe(Run(maxRetries, steps[..|steps| - 1]), steps[|steps| - 1]);
    }
  }

  lemma {:induction false} HasIsIds(ts: seq<Task>, id: string)
    ensures Has(ts, id) <==> id in Ids(ts)
    decreases |ts|
  {
    hide Has;
    if ts == [] {
      assert !Has(ts, id) by { HasNothing(id); }
    } else {
      HasIsIds(ts[..|ts| - 1], id);
      HasAppend(ts[..|ts| - 1], ts[|ts| - 1], id);
      assert ts == ts[..|ts| - 1] + [ts[|ts| - 1]];
    }
  }

  lemma {:induction false} HasNothing(id: string)
    ensures !Has([], id)
  {}

  /** Whatever crashes and store errors there are, and whether identifiers repeat or not: an
      enqueued task has a copy in the stream, read or unread, or among the delayed retries,
      or is a dead letter, resolved or dropped, unless the store refused to keep it after a
      failure. */
  lemma {:induction false} NothingIsLost(maxRetries: int, steps: seq<Step>, id: string)
    requires id in Run(maxRetries, steps).enqueued
    ensures Kept(Run(maxRetries, steps), id) || Refused(maxRetries, steps, id)
  {
    hide Run, Kept, Has, Refused;
    RunStaysSafe(maxRetries, steps);
    assert Accounted(Run(maxRetries, steps), id);
    HasIsIds(Run(maxRetries, steps).refused, id);
    RefusedIsRecorded(maxRetries, steps, id);
  }

  lemma {:induction false} KeptIsPlaced(s: System, id: string)
    requires Shape(s) && s.worker.Ready?
    ensures Kept(s, id) <==> id in Placed(s)
  {
    hide Has, Ids, Tasks, Members;
    NothingThere(id);
    HasIsIds(Tasks(s.unread), id);
    HasIsIds(Tasks(s.batch), id);
    HasIsIds(Tasks(s.orphans), id);
    HasIsIds(Members(s.delayed), id);
    HasIsIds(s.dlq, id);
    HasIsIds(s.resolved, id);
    HasIsIds(s.dropped, id);
  }

  /** Exactly when a task is lost: with unique identifiers, no step that leaves a task twice,
      and the worker between two batches, an enqueued task has no copy anywhere if and only
      if the store refused to keep it. */
  lemma {:induction false} LostIff(maxRetries: int, steps: seq<Step>, id: string)
    requires NoDuplicates(maxRetries, steps) && Distinct(Run(maxRetries, steps).enqueued)
    requires id in Run(maxRetries, steps).enqueued && Run(maxRetries, steps).worker.Ready?
    ensures !Kept(Run(maxRetries, steps), id) <==> Refused(maxRetries, steps, id)
  {
    hide Run, Kept, Refused, Ids, NoDuplicates, Placed, Conserved, Shape;
    RunKeepsShape(maxRetries, steps);
    KeptIsPlaced(Run(maxRetries, steps), id);
    RunConserves(maxRetries, steps);
    RefusedIsRecorded(maxRetries, steps, id);
    OneOrNone(Run(maxRetries, steps), id);
  }
}
