/** Runs of the compensation queue, with two attempts per task, that show what the conditions
    of its statements are for. */
module CompensationRuns {
  import opened Compensation
  import opened CompensationPlaces
  import opened CompensationRetries
  import opened CompensationLoss
  import opened CompensationTimes

  const NEW := NewTask("a", "f", 0)
  const FAILED := Task("a", "f", 0, 1, 1, 0, "e")
  const RETRY := Task("a", "f", 0, 1, 1, 1000, "e")

  const Fails := Handle(true, false, "e")

  function At(unread: seq<Msg>, batch: seq<Msg>, delayed: seq<Entry>, dlq: seq<Task>, worker: Worker): System {
    System(2, unread, batch, [], delayed, dlq, [], [], [], worker, ["a"])
  }

  /** A task is enqueued, read, and fails for the first time. */
  const FailedOnce: seq<Step> := [] + [Enqueue("a", "f", 0)] + [ReadBatch] + [Fails]

  lemma {:induction false} AfterFirstFailure()
    ensures Run(2, FailedOnce) == At([], [Carries(NEW)], [], [], Handling(Failed(FAILED)))
    ensures Times(2, FailedOnce, "a") == 1
  {
    var s0: seq<Step> := [];
    RunGrows(2, s0, Enqueue("a", "f", 0));
    RunGrows(2, s0 + [Enqueue("a", "f", 0)], ReadBatch);
    RunGrows(2, s0 + [Enqueue("a", "f", 0)] + [ReadBatch], Fails);
    TimesGrow(s0, Enqueue("a", "f", 0));
    TimesGrow(s0 + [Enqueue("a", "f", 0)], ReadBatch);
    TimesGrow(s0 + [Enqueue("a", "f", 0)] + [ReadBatch], Fails);
  }

  lemma {:induction false} TimesGrow(steps: seq<Step>, step: Step)
    ensures Times(2, steps + [step], "a")
            == Times(2, steps, "a") + (if Compensates(Run(2, steps), step, "a") then 1 else 0)
  {
    hide Run, Compensates;
    assert (steps + [step])[..|steps|] == steps;
  }

  /** The store refuses to keep a failed task, and the worker acknowledges it all the same:
      afterwards there is no copy of it anywhere. */
  lemma {:induction false} RefusedTaskIsLost()
    ensures var s := Run(2, FailedOnce + [Store(0, false)] + [Ack(true)]);
            s.worker.Ready? && s.enqueued == ["a"] && !Kept(s, "a")
  {
    hide Run;
    AfterFirstFailure();
    RunGrows(2, FailedOnce, Store(0, false));
    RunGrows(2, FailedOnce + [Store(0, false)], Ack(true));
  }

  /** A crash after a failed attempt: the payload has been compensated, and the only copy left
      does not know. */
  lemma {:induction false} CrashForgetsAttempt()
    ensures var s := Run(2, FailedOnce + [Crash]);
            && Times(2, FailedOnce + [Crash], "a") == 1
            && s.orphans == [Carries(NEW)] && NEW.ran == 0 && Placed(s) == multiset{"a"}
  {
    hide Run, Times;
    AfterFirstFailure();
    RunGrows(2, FailedOnce, Crash);
    TimesGrow(FailedOnce, Crash);
    TasksOne(Carries(NEW));
    IdsOne(NEW);
    NoTasks();
    assert [] + [Carries(NEW)] == [Carries(NEW)];
  }

  /** The retry is stored, found due and added to the stream, and the worker crashes before
      it is removed from the delayed set. */
  const Delayed := FailedOnce + [Store(0, true)] + [Ack(true)]
  const CutOff := Delayed + [ReadDue([RETRY], 1000)] + [ClaimAdd] + [Crash]

  lemma {:induction false} AfterCutOff()
    ensures Run(2, CutOff) == At([Carries(RETRY)], [], [Entry(RETRY, 1000)], [], Ready)
    ensures Times(2, CutOff, "a") == 1
  {
    hide Run, Times;
    AfterFirstFailure();
    RunGrows(2, FailedOnce, Store(0, true));
    RunGrows(2, FailedOnce + [Store(0, true)], Ack(true));
    TimesGrow(FailedOnce, Store(0, true));
    TimesGrow(FailedOnce + [Store(0, true)], Ack(true));
    ClaimAgain(Delayed, []);
    RunGrows(2, Delayed + [ReadDue([RETRY], 1000)] + [ClaimAdd], Crash);
    TimesGrow(Delayed + [ReadDue([RETRY], 1000)] + [ClaimAdd], Crash);
  }

  lemma {:induction false} ClaimAgain(steps: seq<Step>, unread: seq<Msg>)
    requires Run(2, steps) == At(unread, [], [Entry(RETRY, 1000)], [], Ready)
    ensures Run(2, steps + [ReadDue([RETRY], 1000)] + [ClaimAdd])
            == At(unread + [Carries(RETRY)], [], [Entry(RETRY, 1000)], [], Claiming([RETRY], true))
    ensures Times(2, steps + [ReadDue([RETRY], 1000)] + [ClaimAdd], "a") == Times(2, steps, "a")
  {
    hide Run, Times;
    assert [Entry(RETRY, 1000)][0].task == RETRY;
    RunGrows(2, steps, ReadDue([RETRY], 1000));
    RunGrows(2, steps + [ReadDue([RETRY], 1000)], ClaimAdd);
    TimesGrow(steps, ReadDue([RETRY], 1000));
    TimesGrow(steps + [ReadDue([RETRY], 1000)], ClaimAdd);
  }

  /** Then "a" is in two places. */
  lemma {:induction false} CutOffClaimDuplicates()
    ensures Distinct(Run(2, CutOff).enqueued) && Placed(Run(2, CutOff))["a"] == 2
  {
    hide Run;
    AfterCutOff();
    TasksOne(Carries(RETRY));
    IdsOne(RETRY);
    NoTasks();
    assert Members([Entry(RETRY, 1000)]) == [RETRY];
  }

  const Claimed := CutOff + [ReadDue([RETRY], 1000)] + [ClaimAdd] + [ClaimRemove]
  const Repeated := Claimed + [ReadBatch] + [Fails] + [Store(2000, true)] + [Ack(true)] + [Fails]

  /** And it is compensated three times, though it has two attempts. */
  lemma {:induction false} CutOffClaimRepeats()
    ensures Distinct(Run(2, Repeated).enqueued)
    ensures Times(2, Repeated, "a") == 3 && Bound(Run(2, Repeated).limit, 0) == 2
  {
    hide Run, Times;
    AfterCutOff();
    ClaimAgain(CutOff, [Carries(RETRY)]);
    var s1 := CutOff + [ReadDue([RETRY], 1000)] + [ClaimAdd];
    RunGrows(2, s1, ClaimRemove);
    TimesGrow(s1, ClaimRemove);
    BothFail(Claimed);
  }

  lemma {:induction false} BothFail(steps: seq<Step>)
    requires Run(2, steps) == At([Carries(RETRY)] + [Carries(RETRY)], [], [], [], Ready)
    ensures var more := steps + [ReadBatch] + [Fails] + [Store(2000, true)] + [Ack(true)] + [Fails];
            && Run(2, more).limit == 2 && Run(2, more).enqueued == ["a"]
            && Times(2, more, "a") == Times(2, steps, "a") + 2
  {
    hide Run, Times;
    var s2 := steps + [ReadBatch];
    var s3 := s2 + [Fails];
    var s4 := s3 + [Store(2000, true)];
    var s5 := s4 + [Ack(true)];
    RunGrows(2, steps, ReadBatch);
    RunGrows(2, s2, Fails);
    RunGrows(2, s3, Store(2000, true));
    RunGrows(2, s4, Ack(true));
    RunGrows(2, s5, Fails);
    TimesGrow(steps, ReadBatch);
    TimesGrow(s2, Fails);
    TimesGrow(s3, Store(2000, true));
    TimesGrow(s4, Ack(true));
    TimesGrow(s5, Fails);
  }
}
