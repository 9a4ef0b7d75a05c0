/** Which outcomes count, what a reset leaves, who the un-tokened call admits, and the settings
    that stand in for unset ones. */
module BreakerOutcomes {
  import opened Breaker
  import opened BreakerLeases

  /** e' is e as new: closed, without samples and without a probe, in an epoch of its own, in
      which no earlier permit counts. */
  ghost predicate AsNew(e: Entry, e': Entry, version: int) {
    && e'.state == Closed && e'.results == [] && e'.buckets == [] && e'.openSince == 0
    && e'.activeCalls == 0 && e'.permitToken == 0 && e'.epoch > e.epoch
    && e'.nextToken == e.nextToken && e'.cfg == e.cfg && e'.version == version
  }

  /** A reset makes a breaker as new; another policy version does, too, unless it is the first
      the breaker sees, which it adopts, or the one it has. */
  lemma {:induction false} ResetsMakeAsNew(s: System, key: string, version: int)
    ensures var e, s' := EntryAt(s, key), Apply(s, ResetBreaker(key));
            key in s'.entries && AsNew(e, s'.entries[key], e.version)
    ensures var e, s' := EntryAt(s, key), Apply(s, CheckVersion(key, version));
            && key in s'.entries
            && (if e.version == 0 || e.version == version then s'.entries[key] == e.(version := version)
                else AsNew(e, s'.entries[key], version))
  {}

  /** The lease is recording and has a permit of this breaker; the first one counts. */
  predicate Reports(s: System, l: nat, key: string) {
    l < |s.leases| && s.leases[l].phase == Recording && FirstPermit(s.leases[l].permits, key) < |s.leases[l].permits|
  }

  /** An outcome counts if and only if its lease's permit is of the breaker's present epoch and
      version. One that does not leaves everything as it is. One that comes with another
      version makes the breaker as new and is not sampled yet. Any other is sampled once, and
      the permit moves on with the breaker if its epoch ends. */
  lemma {:induction false} OutcomeCountsIff(s: System, l: nat, key: string, version: int, ok: bool, now: int,
                                            settings: Settings)
    requires Reports(s, l, key)
    ensures var s' := Apply(s, RecordOutcome(l, key, version, ok, now, settings));
            var j := FirstPermit(s.leases[l].permits, key); var p, e := s.leases[l].permits[j], EntryAt(s, key);
            if e.epoch != p.epoch || e.version != p.version then s' == s
            else
              && key in s'.entries && s'.entries == s.entries[key := s'.entries[key]]
              && |s'.leases| == |s.leases| && s'.leases == s.leases[l := s'.leases[l]]
              && |s'.leases[l].permits| == |s.leases[l].permits|
              && s'.leases[l] == s.leases[l].(permits := s.leases[l].permits[j := s'.leases[l].permits[j]])
              && var e', p' := s'.entries[key], s'.leases[l].permits[j];
                 && p'.key == key && p'.epoch == e'.epoch && p'.version == e'.version
                 && p'.token == (if e'.epoch == e.epoch then p.token else 0)
                 && (if e.version != 0 && e.version != version then AsNew(e, e', version)
                     else e' == Record(e.(version := version), ok, now, settings))
  {
    hide Record;
    var j := FirstPermit(s.leases[l].permits, key);
    VersionKept(EntryAt(s, key).(version := version), ok, now, settings);
  }

  lemma {:induction false} VersionKept(e: Entry, ok: bool, now: int, settings: Settings)
    ensures Record(e, ok, now, settings).version == e.version
  {
    hide Compute, Append;
    var e0 := e.(cfg := Normalize(settings));
    StateKeepsVersion(e0, ok, now);
    StateKeepsVersion(Compute(e0, now), ok, now);
    StateKeepsVersion(Append(Compute(e0, now), ok, now), ok, now);
  }

  lemma {:induction false} StateKeepsVersion(e: Entry, ok: bool, now: int)
    ensures Compute(e, now).version == e.version && Append(e, ok, now).version == e.version
  {}

  /** An un-tokened call is admitted if and only if the breaker is closed, or half-open with no
      probe in flight and without an active prober; in the latter case it is the probe. */
  lemma {:induction false} LegacyAdmittedIff(steps: seq<Step>, key: string, enableActive: bool)
    requires key in Run(Initial, steps).entries
    ensures var e := Run(Initial, steps).entries[key]; var (e', admitted) := LegacyAcquire(e, enableActive);
            && (admitted <==> e.state == Closed || (e.state == HalfOpen && !enableActive && e.activeCalls == 0))
            && e' == (if admitted && e.state == HalfOpen then e.(activeCalls := 1) else e)
  {
    RunKeepsInv(steps);
    assert EntryOk(Run(Initial, steps).entries[key]);
  }

  /** An un-tokened return gives back an un-tokened probe and nothing else. */
  lemma {:induction false} LegacyReturnIff(steps: seq<Step>, key: string)
    requires key in Run(Initial, steps).entries
    ensures var e := Run(Initial, steps).entries[key];
            LegacyReturn(e) == (if e.activeCalls == 1 && e.permitToken == 0 then e.(activeCalls := 0) else e)
  {
    RunKeepsInv(steps);
    assert EntryOk(Run(Initial, steps).entries[key]);
  }

  /** What stands in for an unset field: a count window of 100 samples, 5 failures to open, 1
      success to close, 30 seconds to recover. */
  lemma {:induction false} UnsetFieldsHaveDefaults(raw: Settings)
    ensures var cfg := Normalize(raw);
            && (raw.windowType == "" ==> cfg.windowType == "count") && (raw.windowSize <= 0 ==> cfg.windowSize == 100)
            && (raw.failThresh <= 0 ==> cfg.failThresh == 5) && (raw.hoSuccessThr <= 0 ==> cfg.hoSuccessThr == 1)
            && (raw.recoveryTO <= 0 ==> cfg.recoveryTO == 30_000_000_000)
    ensures var cfg := Normalize(raw);
            && (raw.windowType != "" ==> cfg.windowType == raw.windowType)
            && (raw.windowSize > 0 ==> cfg.windowSize == raw.windowSize)
            && (raw.failThresh > 0 ==> cfg.failThresh == raw.failThresh)
            && (raw.hoSuccessThr > 0 ==> cfg.hoSuccessThr == raw.hoSuccessThr)
            && (raw.recoveryTO > 0 ==> cfg.recoveryTO == raw.recoveryTO)
  {}

  // ----- A lease has all its permits before it is used -----

  ghost predicate Ordered(lease: Lease) {
    && |lease.permits| <= |lease.keys|
    && (forall i :: 0 <= i < |lease.permits| ==> lease.permits[i].key == lease.keys[i])
    && (lease.phase == Active || lease.phase == Recording ==> |lease.permits| == |lease.keys|)
  }

  lemma {:induction false} StepKeepsOrder(s: System, step: Step)
    requires forall l :: 0 <= l < |s.leases| ==> Ordered(s.leases[l])
    ensures var s' := Apply(s, step); forall l :: 0 <= l < |s'.leases| ==> Ordered(s'.leases[l])
  {
    hide Compute, Record, VersionCheck, ReturnPermit, LegacyAcquire, LegacyReturn;
    var s' := Apply(s, step);
    forall l | 0 <= l < |s'.leases| ensures Ordered(s'.leases[l]) {
      if l < |s.leases| { assert Ordered(s.leases[l]); }
    }
  }

  /** In every run the permits of a lease are those of its breakers in order, and a lease is
      used only once it has them all. */
  lemma {:induction false} LeaseHasAllItsPermits(steps: seq<Step>, l: nat)
    requires l < |Run(Initial, steps).leases|
    ensures Ordered(Run(Initial, steps).leases[l])
  {
    hide Run;
    RunKeepsOrder(steps);
  }

  lemma {:induction false} RunKeepsOrder(steps: seq<Step>)
    ensures forall l :: 0 <= l < |Run(Initial, steps).leases| ==> Ordered(Run(Initial, steps).leases[l])
    decreases |steps|
  {
    hide Apply, Ordered;
    if steps != [] {
      RunKeepsOrder(steps[..|steps| - 1]);
      StepKeepsOrder(Run(Initial, steps[..|steps| - 1]), steps[|steps| - 1]);
    }
  }
}
