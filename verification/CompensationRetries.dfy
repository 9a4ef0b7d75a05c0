/** How often a task is compensated, and when. */
module CompensationRetries {
  import opened Compensation
  import opened CompensationPlaces

  // ----- How often -----

  function Bound(limit: int, first: nat): int { if limit - first > 1 then limit - first else 1 }

  /** A task that may still be compensated. */
  predicate Live(limit: int, t: Task) { t.attempt == t.first + t.ran && (t.ran > 0 ==> t.attempt < limit) }

  predicate Within(limit: int, t: Task) { t.ran <= Bound(limit, t.first) }

  ghost predicate AllSpent(limit: int, ts: seq<Task>) {
    forall i :: 0 <= i < |ts| ==> ts[i].ran == Bound(limit, ts[i].first)
  }

  ghost predicate AllLive(limit: int, ts: seq<Task>) { forall i :: 0 <= i < |ts| ==> Live(limit, ts[i]) }

  ghost predicate AllWithin(limit: int, ts: seq<Task>) { forall i :: 0 <= i < |ts| ==> Within(limit, ts[i]) }

  ghost predicate Bounded(s: System) {
    && AllLive(s.limit, Tasks(s.unread)) && AllLive(s.limit, Tasks(s.batch))
    && AllLive(s.limit, Tasks(s.orphans)) && AllLive(s.limit, Members(s.delayed))
    && AllSpent(s.limit, s.dlq) && AllWithin(s.limit, s.resolved) && AllWithin(s.limit, s.dropped)
    && AllWithin(s.limit, s.refused)
    && (s.worker.Claiming? ==> AllLive(s.limit, s.worker.due))
    && (s.worker.Handling? && s.worker.stage.Failed? ==>
          var t := s.worker.stage.task; t.attempt == t.first + t.ran && t.ran > 0 && Within(s.limit, t))
  }

  lemma {:induction false} BothLive(limit: int, a: seq<Task>, b: seq<Task>)
    ensures AllLive(limit, a + b) <==> AllLive(limit, a) && AllLive(limit, b)
  {
    hide Live;
    if AllLive(limit, a + b) {
      forall i | 0 <= i < |a| ensures Live(limit, a[i]) { assert (a + b)[i] == a[i]; }
      forall i | 0 <= i < |b| ensures Live(limit, b[i]) { assert (a + b)[|a| + i] == b[i]; }
    }
  }

  lemma {:induction false} RestIsLive(limit: int, msgs: seq<Msg>)
    requires AllLive(limit, Tasks(msgs))
    ensures AllLive(limit, Tasks(Rest(msgs)))
  {
    hide Tasks, AllLive;
    if msgs != [] {
      TasksFirst(msgs);
      BothLive(limit, if msgs[0].Carries? then [msgs[0].task] else [], Tasks(msgs[1..]));
    }
  }

  lemma {:induction false} StreamKeepsBounds(s: System, step: Step)
    requires Shape(s) && Bounded(s) && (step.Enqueue? || step.EnqueueGarbage? || step.ClaimAdd? || step.ReadBatch?
                                          || step.Crash?)
    ensures Bounded(Apply(s, step))
  {
    hide Tasks, Shape, Live, Within;
    match step {
      case Enqueue(id, filter, first) =>
        var t := NewTask(id, filter, first);
        TasksAppend(s.unread, Carries(t));
        FreshIsLive(s.limit, t);
      case EnqueueGarbage => TasksAppend(s.unread, Garbage);
      case ClaimAdd => if s.worker.Claiming? && s.worker.due != [] { TasksAppend(s.unread, Carries(s.worker.due[0])); }
      case ReadBatch =>
        var n := if |s.unread| < BATCH then |s.unread| else BATCH;
        assert s.unread == s.unread[..n] + s.unread[n..];
        TasksConcat(s.unread[..n], s.unread[n..]);
        BothLive(s.limit, Tasks(s.unread[..n]), Tasks(s.unread[n..]));
      case Crash =>
        NoTasks();
        TasksConcat(s.orphans, s.batch);
        BothLive(s.limit, Tasks(s.orphans), Tasks(s.batch));
    }
  }

  lemma {:induction false} FreshIsLive(limit: int, t: Task)
    requires t.ran == 0 && t.attempt == t.first
    ensures Live(limit, t)
  {}

  lemma {:induction false} RetryIsLive(s: System)
    requires Bounded(s)
    ensures s.worker.Handling? && s.worker.stage.Failed? ==>
              var t := s.worker.stage.task;
              if t.attempt < s.limit then forall now :: Live(s.limit, Scheduled(t, now))
              else t.ran == Bound(s.limit, t.first)
  {}

  lemma {:induction false} DelayKeepsBounds(s: System, step: Step)
    requires Shape(s) && Bounded(s) && (step.ReadDue? || step.ClaimRemove? || step.AbortClaim? || step.Store?)
    ensures Bounded(Apply(s, step))
  {
    hide Tasks, Live, Within, Shape, Bound;
    if step.Store? { RetryIsLive(s); }
    if step.ReadDue? && DueList(step.order, s.delayed, step.now) {
      forall j | 0 <= j < |step.order| ensures Live(s.limit, step.order[j]) {
        assert step.order[j] in step.order;
        var i :| 0 <= i < |s.delayed| && s.delayed[i].task == step.order[j] && s.delayed[i].due <= step.now;
        assert Members(s.delayed)[i] == step.order[j];
      }
    }
  }

  lemma {:induction false} HandleKeepsBounds(s: System, step: Step)
    requires Shape(s) && Bounded(s) && (step.Handle? || step.Ack?)
    ensures Bounded(Apply(s, step))
  {
    hide Tasks, Position, Members;
    if s.worker.Handling? {
      RestIsLive(s.limit, s.batch);
      TasksFirst(s.batch);
      if s.batch[0].Carries? { assert Live(s.limit, Tasks(s.batch)[0]); }
      TasksAppend(s.orphans, s.batch[0]);
    }
  }

  lemma {:induction false} StepKeepsBounds(s: System, step: Step)
    requires Shape(s) && Bounded(s)
    ensures Bounded(Apply(s, step))
  {
    hide Bounded, Shape;
    if step.ReadDue? || step.ClaimRemove? || step.AbortClaim? || step.Store? {
      DelayKeepsBounds(s, step);
    } else if step.Handle? || step.Ack? {
      HandleKeepsBounds(s, step);
    } else {
      StreamKeepsBounds(s, step);
    }
  }

  lemma {:induction false} RunIsBounded(maxRetries: int, steps: seq<Step>)
    ensures Bounded(Run(maxRetries, steps))
    decreases |steps|
  {
    hide Apply;
    if steps != [] {
      RunIsBounded(maxRetries, steps[..|steps| - 1]);
      RunKeepsShape(maxRetries, steps[..|steps| - 1]);
      StepKeepsBounds(Run(maxRetries, steps[..|steps| - 1]), steps[|steps| - 1]);
    }
  }

  lemma {:induction false} LimitStays(maxRetries: int, steps: seq<Step>)
    ensures Run(maxRetries, steps).limit == Initial(maxRetries).limit
    decreases |steps|
  {
    hide ZAdd, ZRem, DueList;
    if steps != [] { LimitStays(maxRetries, steps[..|steps| - 1]); }
  }

  /** In every run, crashes and store errors included: no copy of a task has more than
      max(1, MaxRetries - first) compensations behind it, where `first` is the attempt number
      it was enqueued with, and a dead letter has exactly that many. MaxRetries is 5 if it is
      not set. */
  lemma {:induction false} CompensationsAreBounded(maxRetries: int, steps: seq<Step>)
    ensures var s := Run(maxRetries, steps);
            var limit := if maxRetries == 0 then 5 else maxRetries;
            && AllWithin(limit, Tasks(s.unread)) && AllWithin(limit, InHand(s)) && AllWithin(limit, Waiting(s))
            && AllSpent(limit, s.dlq) && AllWithin(limit, s.resolved) && AllWithin(limit, s.dropped)
            && AllWithin(limit, s.refused) && AllWithin(limit, Tasks(s.orphans))
  {
    LimitStays(maxRetries, steps);
    hide Run, Tasks, Live, Within, AllLive, AllWithin, AllSpent, Shape, Members, ZRem;
    var s := Run(maxRetries, steps);
    RunIsBounded(maxRetries, steps);
    LiveIsWithin(s.limit, Tasks(s.unread));
    LiveIsWithin(s.limit, Tasks(s.batch));
    LiveIsWithin(s.limit, Tasks(s.orphans));
    RestIsLive(s.limit, s.batch);
    LiveIsWithin(s.limit, Tasks(Rest(s.batch)));
    LiveIsWithin(s.limit, Members(s.delayed));
    if s.worker.Claiming? && s.worker.due != [] {
      OthersAreLive(s.limit, s.delayed, s.worker.due[0]);
      LiveIsWithin(s.limit, Members(ZRem(s.delayed, s.worker.due[0])));
    }
    if s.worker.Handling? && s.worker.stage.Failed? {
      OneMoreWithin(s.limit, s.worker.stage.task, Tasks(Rest(s.batch)));
    }
  }

  lemma {:induction false} OneMoreWithin(limit: int, t: Task, ts: seq<Task>)
    requires Within(limit, t) && AllWithin(limit, ts)
    ensures AllWithin(limit, [t] + ts)
  {}

  lemma {:induction false} OthersAreLive(limit: int, entries: seq<Entry>, t: Task)
    requires AllLive(limit, Members(entries))
    ensures AllLive(limit, Members(ZRem(entries, t)))
  {
    hide AllLive, Position, Members;
    var i := Position(entries, t);
    if i < |entries| {
      MembersSplit(entries, i);
      BothLive(limit, Members(entries[..i]) + [t], Members(entries[i + 1..]));
      BothLive(limit, Members(entries[..i]), [t]);
      BothLive(limit, Members(entries[..i]), Members(entries[i + 1..]));
    }
  }

  lemma {:induction false} LiveIsWithin(limit: int, ts: seq<Task>)
    requires AllLive(limit, ts)
    ensures AllWithin(limit, ts)
  {}

  // ----- When -----

  /** Step j stored this retry, after a failure. */
  ghost predicate StoredAt(maxRetries: int, steps: seq<Step>, j: nat, t: Task) {
    && j < |steps| && steps[j].Store? && steps[j].stored
    && var s := Run(maxRetries, steps[..j]);
       && s.worker.Handling? && s.worker.stage.Failed? && s.worker.stage.task.attempt < s.limit
       && t == Scheduled(s.worker.stage.task, steps[j].now)
  }

  /** Step h found this retry due. */
  ghost predicate ClaimedAt(maxRetries: int, steps: seq<Step>, h: nat, t: Task) {
    && h < |steps| && steps[h].ReadDue? && t in steps[h].order
    && var s := Run(maxRetries, steps[..h]); s.worker.Ready? && DueList(steps[h].order, s.delayed, steps[h].now)
  }

  /** The failure was stored at one step and found due at a later one, attempt² seconds
      after it at the earliest. */
  ghost predicate WaitedFrom(maxRetries: int, steps: seq<Step>, j: nat, h: nat, t: Task) {
    && j < h && StoredAt(maxRetries, steps, j, t) && ClaimedAt(maxRetries, steps, h, t)
    && steps[h].now >= steps[j].now + 1000 * t.attempt * t.attempt
  }

  ghost predicate Waited(maxRetries: int, steps: seq<Step>, t: Task) {
    exists j: nat, h: nat :: WaitedFrom(maxRetries, steps, j, h, t)
  }

  ghost predicate Scheduling(maxRetries: int, steps: seq<Step>, e: Entry) {
    exists j: nat :: StoredAt(maxRetries, steps, j, e.task) && e.due == steps[j].now + Backoff(e.task.attempt)
  }

  ghost predicate AllWaited(maxRetries: int, steps: seq<Step>, ts: seq<Task>) {
    forall i :: 0 <= i < |ts| && ts[i].ran > 0 ==> Waited(maxRetries, steps, ts[i])
  }

  ghost predicate AllScheduled(maxRetries: int, steps: seq<Step>, entries: seq<Entry>) {
    forall i :: 0 <= i < |entries| ==> Scheduling(maxRetries, steps, entries[i])
  }

  ghost predicate InTime(maxRetries: int, steps: seq<Step>, s: System) {
    && AllWaited(maxRetries, steps, Tasks(s.unread)) && AllWaited(maxRetries, steps, Tasks(s.batch))
    && AllScheduled(maxRetries, steps, s.delayed)
    && (s.worker.Claiming? ==> forall i :: 0 <= i < |s.worker.due| ==> Waited(maxRetries, steps, s.worker.due[i]))
  }

  /** What has happened stays so in a longer run. */
  lemma {:induction false} StillWaited(maxRetries: int, steps: seq<Step>, step: Step, t: Task)
    requires Waited(maxRetries, steps, t)
    ensures Waited(maxRetries, steps + [step], t)
  {
    hide Run, DueList, Scheduled;
    var j: nat, h: nat :| WaitedFrom(maxRetries, steps, j, h, t);
    var more := steps + [step];
    assert more[..j] == steps[..j] && more[..h] == steps[..h] && more[j] == steps[j] && more[h] == steps[h];
    assert WaitedFrom(maxRetries, more, j, h, t);
  }

  lemma {:induction false} StillScheduling(maxRetries: int, steps: seq<Step>, step: Step, e: Entry)
    requires Scheduling(maxRetries, steps, e)
    ensures Scheduling(maxRetries, steps + [step], e)
  {
    hide Run, Scheduled, Backoff;
    var j: nat :| StoredAt(maxRetries, steps, j, e.task) && e.due == steps[j].now + Backoff(e.task.attempt);
    var more := steps + [step];
    assert more[..j] == steps[..j] && more[j] == steps[j];
    assert StoredAt(maxRetries, more, j, e.task) && e.due == more[j].now + Backoff(e.task.attempt);
  }

  lemma {:induction false} StillInTime(maxRetries: int, steps: seq<Step>, step: Step, s: System)
    requires InTime(maxRetries, steps, s)
    ensures InTime(maxRetries, steps + [step], s)
  {
    hide Waited, Scheduling, Tasks;
    forall t | Waited(maxRetries, steps, t) ensures Waited(maxRetries, steps + [step], t) {
      StillWaited(maxRetries, steps, step, t);
    }
    forall e | Scheduling(maxRetries, steps, e) ensures Scheduling(maxRetries, steps + [step], e) {
      StillScheduling(maxRetries, steps, step, e);
    }
  }

  lemma {:induction false} BothWaited(maxRetries: int, steps: seq<Step>, a: seq<Task>, b: seq<Task>)
    ensures AllWaited(maxRetries, steps, a + b) <==> AllWaited(maxRetries, steps, a) && AllWaited(maxRetries, steps, b)
  {
    hide Waited;
    if AllWaited(maxRetries, steps, a + b) {
      forall i | 0 <= i < |a| && a[i].ran > 0 ensures Waited(maxRetries, steps, a[i]) { assert (a + b)[i] == a[i]; }
      forall i | 0 <= i < |b| && b[i].ran > 0 ensures Waited(maxRetries, steps, b[i]) {
        assert (a + b)[|a| + i] == b[i];
      }
    }
  }

  lemma {:induction false} MoreUnread(maxRetries: int, steps: seq<Step>, msgs: seq<Msg>, m: Msg)
    requires AllWaited(maxRetries, steps, Tasks(msgs))
    requires m.Carries? && m.task.ran > 0 ==> Waited(maxRetries, steps, m.task)
    ensures AllWaited(maxRetries, steps, Tasks(msgs + [m]))
  {
    hide Tasks, Waited;
    TasksAppend(msgs, m);
  }

  /** The steps that move messages. */
  lemma {:induction false} StreamInTime(maxRetries: int, steps: seq<Step>, s: System, step: Step)
    requires InTime(maxRetries, steps, s)
    requires step.Enqueue? || step.EnqueueGarbage? || step.ClaimAdd? || step.ReadBatch? || step.Ack? || step.Crash?
    ensures InTime(maxRetries, steps, Apply(s, step))
  {
    hide Tasks, Waited, AllWaited, AllScheduled;
    match step {
      case Enqueue(id, filter, first) => MoreUnread(maxRetries, steps, s.unread, Carries(NewTask(id, filter, first)));
      case EnqueueGarbage => MoreUnread(maxRetries, steps, s.unread, Garbage);
      case ClaimAdd =>
        if s.worker.Claiming? && s.worker.due != [] {
          MoreUnread(maxRetries, steps, s.unread, Carries(s.worker.due[0]));
        }
      case ReadBatch =>
        var n := if |s.unread| < BATCH then |s.unread| else BATCH;
        assert s.unread == s.unread[..n] + s.unread[n..];
        TasksConcat(s.unread[..n], s.unread[n..]);
        BothWaited(maxRetries, steps, Tasks(s.unread[..n]), Tasks(s.unread[n..]));
      case Ack(_) =>
        if s.batch != [] {
          TasksFirst(s.batch);
          BothWaited(maxRetries, steps, if s.batch[0].Carries? then [s.batch[0].task] else [], Tasks(s.batch[1..]));
        }
      case Crash => NothingWaited(maxRetries, steps);
    }
  }

  lemma {:induction false} NothingWaited(maxRetries: int, steps: seq<Step>)
    ensures AllWaited(maxRetries, steps, Tasks([]))
  {}

  /** A claim takes only what is due. */
  lemma {:induction false} ReadDueInTime(maxRetries: int, steps: seq<Step>, order: seq<Task>, now: int)
    requires InTime(maxRetries, steps, Run(maxRetries, steps))
    ensures InTime(maxRetries, steps + [ReadDue(order, now)], Apply(Run(maxRetries, steps), ReadDue(order, now)))
  {
    hide Run, Tasks, Waited, Scheduling;
    var s, step := Run(maxRetries, steps), ReadDue(order, now);
    StillInTime(maxRetries, steps, step, s);
    if s.worker.Ready? && DueList(order, s.delayed, now) {
      forall k | 0 <= k < |order| ensures Waited(maxRetries, steps + [step], order[k]) {
        assert order[k] in order;
        var i :| 0 <= i < |s.delayed| && s.delayed[i].task == order[k] && s.delayed[i].due <= now;
        DueHasWaited(maxRetries, steps, order, now, s.delayed[i]);
      }
    }
  }

  lemma {:induction false} DueHasWaited(maxRetries: int, steps: seq<Step>, order: seq<Task>, now: int, e: Entry)
    requires Run(maxRetries, steps).worker.Ready? && DueList(order, Run(maxRetries, steps).delayed, now)
    requires Scheduling(maxRetries, steps, e) && e.due <= now && e.task in order
    ensures Waited(maxRetries, steps + [ReadDue(order, now)], e.task)
  {
    hide Run, DueList, Scheduled;
    var j: nat :| StoredAt(maxRetries, steps, j, e.task) && e.due == steps[j].now + Backoff(e.task.attempt);
    var more, h := steps + [ReadDue(order, now)], |steps|;
    assert more[..j] == steps[..j] && more[j] == steps[j] && more[..h] == steps;
    assert WaitedFrom(maxRetries, more, j, h, e.task);
  }

  /** Storing a retry is what schedules it. */
  lemma {:induction false} StoreInTime(maxRetries: int, steps: seq<Step>, now: int, stored: bool)
    requires InTime(maxRetries, steps, Run(maxRetries, steps))
    ensures InTime(maxRetries, steps + [Store(now, stored)], Apply(Run(maxRetries, steps), Store(now, stored)))
  {
    hide Run, Tasks, Waited, Scheduling, Position, Backoff;
    var s, step := Run(maxRetries, steps), Store(now, stored);
    StillInTime(maxRetries, steps, step, s);
    if s.worker.Handling? && s.worker.stage.Failed? && stored && s.worker.stage.task.attempt < s.limit {
      JustScheduled(maxRetries, steps, now);
    }
  }

  lemma {:induction false} JustScheduled(maxRetries: int, steps: seq<Step>, now: int)
    requires var w := Run(maxRetries, steps).worker;
             w.Handling? && w.stage.Failed? && w.stage.task.attempt < Run(maxRetries, steps).limit
    ensures var u := Scheduled(Run(maxRetries, steps).worker.stage.task, now);
            Scheduling(maxRetries, steps + [Store(now, true)], Entry(u, u.nextRetry))
  {
    hide Run;
    var more, j := steps + [Store(now, true)], |steps|;
    assert more[..j] == steps;
    assert StoredAt(maxRetries, more, j, Scheduled(Run(maxRetries, steps).worker.stage.task, now));
  }

  lemma {:induction false} RestInTime(maxRetries: int, steps: seq<Step>, s: System, step: Step)
    requires Shape(s) && InTime(maxRetries, steps, s) && (step.ClaimRemove? || step.AbortClaim? || step.Handle?)
    ensures InTime(maxRetries, steps, Apply(s, step))
  {
    hide Tasks, Waited, Scheduling, Position;
  }

  lemma {:induction false} RunInTime(maxRetries: int, steps: seq<Step>)
    ensures InTime(maxRetries, steps, Run(maxRetries, steps))
    decreases |steps|
  {
    hide Apply, InTime, Shape;
    if steps == [] {
      NothingYet(maxRetries);
    } else {
      var before, step := steps[..|steps| - 1], steps[|steps| - 1];
      var s := Run(maxRetries, before);
      assert before + [step] == steps;
      RunInTime(maxRetries, before);
      RunKeepsShape(maxRetries, before);
      if step.ReadDue? {
        ReadDueInTime(maxRetries, before, step.order, step.now);
      } else if step.Store? {
        StoreInTime(maxRetries, before, step.now, step.stored);
      } else {
        if step.ClaimRemove? || step.AbortClaim? || step.Handle? {
          RestInTime(maxRetries, before, s, step);
        } else {
          StreamInTime(maxRetries, before, s, step);
        }
        StillInTime(maxRetries, before, step, Apply(s, step));
      }
    }
  }

  lemma {:induction false} NothingYet(maxRetries: int)
    ensures InTime(maxRetries, [], Initial(maxRetries))
  {}

  /** In every run: a delayed entry is a failed task stored at an earlier step, before its
      last attempt, and it is due exactly attempt² seconds after the clock of that step. */
  lemma {:induction false} DelaysAreExact(maxRetries: int, steps: seq<Step>, i: nat) returns (j: nat)
    requires i < |Run(maxRetries, steps).delayed|
    ensures j < |steps| && steps[j].Store? && steps[j].stored
    ensures var e, w := Run(maxRetries, steps).delayed[i], Run(maxRetries, steps[..j]).worker;
            && w.Handling? && w.stage.Failed? && w.stage.task.attempt < (if maxRetries == 0 then 5 else maxRetries)
            && e.due == steps[j].now + 1000 * w.stage.task.attempt * w.stage.task.attempt
            && e.task == w.stage.task.(nextRetry := e.due)
  {
    hide Run, Waited, Tasks;
    RunInTime(maxRetries, steps);
    var e := Run(maxRetries, steps).delayed[i];
    assert Scheduling(maxRetries, steps, e);
    j :| StoredAt(maxRetries, steps, j, e.task) && e.due == steps[j].now + Backoff(e.task.attempt);
    LimitStays(maxRetries, steps[..j]);
  }

  /** In every run, crashes and store errors included: if the message about to be handled
      carries a task that has failed before, that very retry was stored at an earlier step,
      and found due at a step in between whose clock was at least attempt² seconds later. */
  lemma {:induction false} RetriesAreDelayed(maxRetries: int, steps: seq<Step>)
    ensures var s := Run(maxRetries, steps);
            s.worker == Handling(Fresh) && s.batch != [] && s.batch[0].Carries? && s.batch[0].task.ran > 0 ==>
              Waited(maxRetries, steps, s.batch[0].task)
  {
    hide Run, Waited, Tasks;
    RunInTime(maxRetries, steps);
    var s := Run(maxRetries, steps);
    if s.batch != [] && s.batch[0].Carries? {
      TasksFirst(s.batch);
      assert Tasks(s.batch)[0] == s.batch[0].task;
    }
  }
}
