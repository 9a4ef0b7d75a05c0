/** The un-tokened permit calls beside the leases: exactly when one of their permits is left
    over, and what it does to the breaker. */
module BreakerLegacy {
  import opened Breaker
  import opened BreakerLeases
  import W = BreakerWindow

  /** An un-tokened acquisition that takes the probe permit. */
  predicate Grants(s: System, step: Step, key: string) {
    && step.LegacyAcquirePermit? && step.key == key && !step.enableActive
    && key in s.entries && s.entries[key].state == HalfOpen && s.entries[key].activeCalls < 1
  }

  /** The step ends the attempt epoch of the breaker. */
  predicate EndsEpoch(s: System, step: Step, key: string) {
    key in s.entries && key in Apply(s, step).entries && Apply(s, step).entries[key].epoch != s.entries[key].epoch
  }

  /** An un-tokened permit has been granted, and since then neither returned nor recorded by
      an un-tokened call, nor has its epoch ended. */
  function Out(steps: seq<Step>, key: string): bool
    decreases |steps|
  {
    if steps == [] then false
    else
      var before, step := steps[..|steps| - 1], steps[|steps| - 1];
      var s := Run(Initial, before);
      if EndsEpoch(s, step, key) then false
      else if Grants(s, step, key) then true
      else if (step.LegacyReleasePermit? || step.LegacyRecord?) && step.key == key then false
      else Out(before, key)
  }

  /** The breaker counts a probe that has no token. */
  predicate Untokened(s: System, key: string) {
    key in s.entries && s.entries[key].activeCalls != 0 && s.entries[key].permitToken == 0
  }

  // ----- One step -----

  lemma {:induction false} AcquireUntokened(s: System, l: nat, enableActive: bool, now: int, key: string)
    requires Inv(s) && l < |s.leases| && |s.leases[l].permits| < |s.leases[l].keys|
    ensures var s' := DoAcquire(s, l, enableActive, now);
            && (key in s.entries ==> key in s'.entries)
            && (Untokened(s', key) <==> Untokened(s, key) && s'.entries[key].epoch == s.entries[key].epoch)
  {
    hide Compute;
    var k := s.leases[l].keys[|s.leases[l].permits|];
    assert EntryOk(EntryAt(s, k));
    ComputeEvolves(EntryAt(s, k), now);
  }

  lemma {:induction false} RecordUntokened(s: System, l: nat, j: nat, version: int, ok: bool, now: int,
                                           settings: Settings, key: string)
    requires Inv(s) && Taken(s, l, j)
    ensures var s' := DoRecord(s, l, j, version, ok, now, settings);
            && (key in s.entries ==> key in s'.entries)
            && (Untokened(s', key) <==> Untokened(s, key) && s'.entries[key].epoch == s.entries[key].epoch)
  {
    hide Record;
    var p := s.leases[l].permits[j];
    var e := EntryAt(s, p.key);
    assert PermitOk(s, p) && EntryOk(e);
    EntryStepsEvolve(e, version, false);
    RecordEvolves(VersionCheck(e, version), ok, now, settings);
  }

  lemma {:induction false} ReleaseUntokened(s: System, l: nat, key: string)
    requires Inv(s) && l < |s.leases| && s.leases[l].phase.Releasing?
    ensures Untokened(DoRelease(s, l), key) <==> Untokened(s, key)
    ensures key in s.entries ==> DoRelease(s, l).entries[key].epoch == s.entries[key].epoch
  {
    var d := s.leases[l].phase.done;
    if d < |s.leases[l].permits| {
      assert Taken(s, l, d);
      assert PermitOk(s, s.leases[l].permits[d]) && EntryOk(s.entries[s.leases[l].permits[d].key]);
    }
  }

  lemma {:induction false} LegacyRecordUntokened(s: System, ok: bool, now: int, settings: Settings, key: string,
                                                 k: string)
    requires Inv(s)
    ensures var s' := Apply(s, LegacyRecord(k, ok, now, settings));
            Untokened(s', key) <==> k != key && Untokened(s, key)
  {
    hide Record;
    var e := EntryAt(s, k);
    assert EntryOk(e);
    EntryStepsEvolve(e, 0, false);
    RecordEvolves(LegacyReturn(e), ok, now, settings);
  }

  lemma {:induction false} OtherUntokened(s: System, step: Step, key: string)
    requires Inv(s)
    requires step.CheckVersion? || step.ResetBreaker? || step.Poll? || step.LegacyReleasePermit?
             || step.LegacyAcquirePermit?
    ensures var s' := Apply(s, step);
            Untokened(s', key) <==>
              !EndsEpoch(s, step, key)
              && (Grants(s, step, key) || (Untokened(s, key) && !(step.LegacyReleasePermit? && step.key == key)))
  {
    hide Compute;
    var e := EntryAt(s, step.key);
    assert EntryOk(e);
    if step.Poll? { ComputeEvolves(e, step.now); }
  }

  lemma {:induction false} StepUntokened(s: System, step: Step, key: string)
    requires Inv(s)
    ensures Untokened(Apply(s, step), key) <==>
              !EndsEpoch(s, step, key)
              && (Grants(s, step, key)
                  || (Untokened(s, key) && !((step.LegacyReleasePermit? || step.LegacyRecord?) && step.key == key)))
  {
    hide Inv, Compute, Record, DoAcquire, DoRecord, LegacyAcquire, ReturnPermit;
    match step {
      case AcquireNext(l, enableActive, now) =>
        if Apply(s, step) != s { AcquireUntokened(s, l, enableActive, now, key); }
      case RecordOutcome(l, k, version, ok, now, settings) =>
        if Apply(s, step) != s {
          RecordUntokened(s, l, FirstPermit(s.leases[l].permits, k), version, ok, now, settings, key);
        }
      case ReleaseNext(l) => if Apply(s, step) != s { ReleaseUntokened(s, l, key); }
      case LegacyRecord(k, ok, now, settings) => LegacyRecordUntokened(s, ok, now, settings, key, k);
      case CheckVersion(_, _) => OtherUntokened(s, step, key);
      case ResetBreaker(_) => OtherUntokened(s, step, key);
      case Poll(_, _) => OtherUntokened(s, step, key);
      case LegacyReleasePermit(_) => OtherUntokened(s, step, key);
      case LegacyAcquirePermit(_, _) => OtherUntokened(s, step, key);
      case _ =>
    }
  }

  // ----- Every run -----

  /** In every reachable state a breaker counts a probe without a token exactly if an
      un-tokened permit is out. */
  lemma {:induction false} OutIsCounted(steps: seq<Step>, key: string)
    ensures Untokened(Run(Initial, steps), key) <==> Out(steps, key)
    decreases |steps|
  {
    if steps != [] {
      hide Apply, EndsEpoch, Grants, Untokened;
      var before := steps[..|steps| - 1];
      OutIsCounted(before, key);
      RunKeepsInv(before);
      StepUntokened(Run(Initial, before), steps[|steps| - 1], key);
    } else {
      assert !Untokened(Initial, key);
    }
  }

  /** Once every lease has ended, a breaker counts no probe in flight if and only if no
      un-tokened permit is out. */
  lemma {:induction false} LeaksIff(steps: seq<Step>, key: string)
    requires forall l :: 0 <= l < |Run(Initial, steps).leases| ==> Run(Initial, steps).leases[l].phase == Ended
    requires key in Run(Initial, steps).entries
    ensures Run(Initial, steps).entries[key].activeCalls == 0 <==> !Out(steps, key)
  {
    var s := Run(Initial, steps);
    RunKeepsInv(steps);
    OutIsCounted(steps, key);
    assert s.entries[key].permitToken != 0 ==> Owned(s, key);
  }

  // ----- What a permit that is out does -----

  /** The step records an outcome on the breaker through a lease of the current epoch. */
  predicate RecordsOn(s: System, step: Step, key: string) {
    && step.RecordOutcome? && step.key == key && key in s.entries
    && step.lease < |s.leases| && s.leases[step.lease].phase == Recording
    && var permits := s.leases[step.lease].permits;
       var j := FirstPermit(permits, key);
       j < |permits| && permits[j].epoch == s.entries[key].epoch && permits[j].version == s.entries[key].version
  }

  /** The steps that can end a permit that is out: its return or its record, an outcome
      recorded through a lease, a reset, another policy version. */
  predicate Frees(s: System, step: Step, key: string) {
    || ((step.LegacyReleasePermit? || step.LegacyRecord? || step.ResetBreaker?) && step.key == key)
    || (step.CheckVersion? && step.key == key && key in s.entries
        && s.entries[key].version != 0 && s.entries[key].version != step.version)
    || RecordsOn(s, step, key)
  }

  lemma {:induction false} HalfOpenStays(e: Entry, now: int)
    requires W.StateOk(e) && e.state == HalfOpen
    ensures Compute(e, now) == e
  {}

  lemma {:induction false} NothingElseFrees(s: System, step: Step, key: string)
    requires Inv(s) && W.AllStatesOk(s) && Untokened(s, key) && !Frees(s, step, key)
    ensures !EndsEpoch(s, step, key)
  {
    hide Compute, Record, W.StateOk;
    var e := s.entries[key];
    assert EntryOk(e) && W.StateOk(e);
    if step.AcquireNext? || step.Poll? { HalfOpenStays(e, step.now); }
  }

  lemma {:induction false} StaysOutOnce(steps: seq<Step>, step: Step, key: string)
    requires Out(steps, key) && !Frees(Run(Initial, steps), step, key)
    ensures Out(steps + [step], key)
  {
    hide Frees, Grants, EndsEpoch, Inv, Untokened, Apply;
    assert (steps + [step])[..|steps|] == steps;
    RunKeepsInv(steps);
    W.RunSettles(steps);
    OutIsCounted(steps, key);
    NothingElseFrees(Run(Initial, steps), step, key);
    NotReturned(Run(Initial, steps), step, key);
  }

  /** For ever: an un-tokened permit that is out stays out, whatever any caller does and
      whatever the clocks say, until one of the steps above. */
  lemma {:induction false} StaysOut(steps: seq<Step>, more: seq<Step>, key: string)
    requires Out(steps, key)
    requires forall i :: 0 <= i < |more| ==> !Frees(Run(Initial, steps + more[..i]), more[i], key)
    ensures Out(steps + more, key)
    decreases |more|
  {
    hide Frees, Out, Run;
    if more == [] {
      assert steps + more == steps;
    } else {
      var n := |more| - 1;
      assert forall i :: 0 <= i < n ==> more[..n][..i] == more[..i];
      StaysOut(steps, more[..n], key);
      StaysOutOnce(steps + more[..n], more[n], key);
      assert steps + more[..n] + [more[n]] == steps + more;
    }
  }

  lemma {:induction false} NotReturned(s: System, step: Step, key: string)
    requires !Frees(s, step, key)
    ensures !((step.LegacyReleasePermit? || step.LegacyRecord?) && step.key == key)
  {}

  /** While it is out the breaker is half-open with its one probe taken: every lease that
      reaches it is refused and rolled back, and so is every un-tokened call. */
  lemma {:induction false} OutBlocks(steps: seq<Step>, key: string, l: nat, enableActive: bool, now: int)
    requires Out(steps, key)
    ensures var s := Run(Initial, steps);
            && key in s.entries && s.entries[key].state == HalfOpen && s.entries[key].activeCalls == 1
            && !LegacyAcquire(s.entries[key], enableActive).1
            && (l < |s.leases| && s.leases[l].phase == Acquiring && |s.leases[l].permits| < |s.leases[l].keys|
                && s.leases[l].keys[|s.leases[l].permits|] == key ==>
                  Apply(s, AcquireNext(l, enableActive, now)) == SetLease(s, l, s.leases[l].(phase := Releasing(0))))
  {
    hide Compute, W.StateOk;
    var s := Run(Initial, steps);
    RunKeepsInv(steps);
    W.RunSettles(steps);
    OutIsCounted(steps, key);
    var e := s.entries[key];
    assert EntryOk(e) && W.StateOk(e);
    HalfOpenStays(e, now);
    assert s.entries[key := e] == s.entries;
  }

  // ----- A witness -----

  /** A breaker that fails once opens, and turns half-open after the recovery timeout. */
  lemma {:induction false} OneFailureThenTimeout()
    ensures Record(Fresh, false, 0, Settings("count", 1, 1, 1, 1)).state == Open
    ensures Compute(Record(Fresh, false, 0, Settings("count", 1, 1, 1, 1)), 1).state == HalfOpen
    ensures Compute(Record(Fresh, false, 0, Settings("count", 1, 1, 1, 1)), 1).activeCalls == 0
    ensures Compute(Record(Fresh, false, 0, Settings("count", 1, 1, 1, 1)), 1).permitToken == 0
  {
    assert Failures([false]) == 1;
  }

  /** There is a run in which no lease was ever taken and an un-tokened permit is out. */
  lemma {:induction false} LegacyPermitLeaks()
    ensures exists steps: seq<Step> :: Run(Initial, steps).leases == [] && Out(steps, "k")
  {
    hide Compute, Record, Out, Run, Inv;
    OneFailureThenTimeout();
    var s0 := LegacyRecord("k", false, 0, Settings("count", 1, 1, 1, 1));
    var s1, s2 := Poll("k", 1), LegacyAcquirePermit("k", false);
    assert LegacyReturn(Fresh) == Fresh;
    RunThree(s0, s1, s2);
    var s := Apply(Apply(Apply(Initial, s0), s1), s2);
    assert Untokened(s, "k") by { PollThenAcquire(Apply(Initial, s0), 1); }
    OutIsCounted([s0, s1, s2], "k");
  }

  lemma {:induction false} RunThree(s0: Step, s1: Step, s2: Step)
    ensures Run(Initial, [s0, s1, s2]) == Apply(Apply(Apply(Initial, s0), s1), s2)
  {
    hide Apply;
    assert [s0][..0] == [] && [s0, s1][..1] == [s0] && [s0, s1, s2][..2] == [s0, s1];
    assert Run(Initial, [s0]) == Apply(Initial, s0);
    assert Run(Initial, [s0, s1]) == Apply(Run(Initial, [s0]), s1);
  }

  lemma {:induction false} PollThenAcquire(s: System, now: int)
    requires "k" in s.entries && Compute(s.entries["k"], now).state == HalfOpen
    requires Compute(s.entries["k"], now).activeCalls == 0 && Compute(s.entries["k"], now).permitToken == 0
    ensures Untokened(Apply(Apply(s, Poll("k", now)), LegacyAcquirePermit("k", false)), "k")
  {
    hide Compute;
  }
}
