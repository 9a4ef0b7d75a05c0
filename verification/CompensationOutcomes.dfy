/** What the compensators answered, and what became of it. */
module CompensationOutcomes {
  import opened Compensation

  /** The step takes up a message that carries a task. */
  predicate Tries(s: System, step: Step) {
    step.Handle? && s.worker == Handling(Fresh) && s.batch != [] && s.batch[0].Carries?
  }

  /** The tasks of the run that were compensated successfully, and those that had no
      compensator, in the order in which they came up. */
  ghost function Succeeded(maxRetries: int, steps: seq<Step>): seq<Task>
    decreases |steps|
  {
    if steps == [] then []
    else
      var before, step := steps[..|steps| - 1], steps[|steps| - 1];
      var s := Run(maxRetries, before);
      Succeeded(maxRetries, before) +
      if Tries(s, step) && step.known && step.ok then [s.batch[0].task.(ran := s.batch[0].task.ran + 1)] else []
  }

  ghost function Unknown(maxRetries: int, steps: seq<Step>): seq<Task>
    decreases |steps|
  {
    if steps == [] then []
    else
      var before, step := steps[..|steps| - 1], steps[|steps| - 1];
      var s := Run(maxRetries, before);
      Unknown(maxRetries, before) + if Tries(s, step) && !step.known then [s.batch[0].task] else []
  }

  /** In every run the resolved tasks are those whose compensation succeeded, and the
      dropped ones those without a compensator. */
  lemma {:induction false} ResolvedIffSucceeded(maxRetries: int, steps: seq<Step>)
    ensures Run(maxRetries, steps).resolved == Succeeded(maxRetries, steps)
    ensures Run(maxRetries, steps).dropped == Unknown(maxRetries, steps)
    decreases |steps|
  {
    hide Apply, Tries;
    if steps == [] {
    } else {
      var before, step := steps[..|steps| - 1], steps[|steps| - 1];
      ResolvedIffSucceeded(maxRetries, before);
      StepResolves(Run(maxRetries, before), step);
    }
  }

  lemma {:induction false} StepResolves(s: System, step: Step)
    ensures Apply(s, step).resolved
            == s.resolved + if Tries(s, step) && step.known && step.ok
                            then [s.batch[0].task.(ran := s.batch[0].task.ran + 1)] else []
    ensures Apply(s, step).dropped == s.dropped + if Tries(s, step) && !step.known then [s.batch[0].task] else []
  {
    hide ZAdd, ZRem, DueList;
  }

  /** This step failed to compensate a task, which is thereby `failed`: one attempt and one
      compensation more, with the compensator's error. */
  predicate Fails(s: System, step: Step, failed: Task) {
    && Tries(s, step) && step.known && !step.ok
    && var t := s.batch[0].task;
       failed == t.(attempt := t.attempt + 1, ran := t.ran + 1, error := step.error)
  }

  /** In every run a task about to be stored is the outcome of a failure at an earlier step. */
  lemma {:induction false} FailuresAreRecorded(maxRetries: int, steps: seq<Step>) returns (h: nat)
    requires var w := Run(maxRetries, steps).worker; w.Handling? && w.stage.Failed?
    ensures h < |steps| && Fails(Run(maxRetries, steps[..h]), steps[h], Run(maxRetries, steps).worker.stage.task)
    decreases |steps|
  {
    var n := |steps| - 1;
    var s := Run(maxRetries, steps[..n]);
    StepFails(s, steps[n]);
    hide Apply, Fails;
    if s.worker == Run(maxRetries, steps).worker {
      h := FailuresAreRecorded(maxRetries, steps[..n]);
      assert steps[..n][..h] == steps[..h];
    } else {
      h := n;
    }
  }

  lemma {:induction false} StepFails(s: System, step: Step)
    ensures var w := Apply(s, step).worker;
            w.Handling? && w.stage.Failed? ==> w == s.worker || Fails(s, step, w.stage.task)
  {
    hide ZAdd, ZRem, DueList;
  }
}
