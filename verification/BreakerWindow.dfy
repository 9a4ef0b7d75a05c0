/** The breaker's state machine against a reference that keeps a plain log of samples
    and filters it by the window whenever it needs a count. */
module BreakerWindow {
  import opened Breaker
  import L = BreakerLeases

  // ----- What holds of every entry in every protocol run -----

  ghost predicate StateOk(e: Entry) {
    && (e.state == Closed && e.cfg.failThresh > 0 ==> WindowFailures(e) < e.cfg.failThresh)
    && (e.state == HalfOpen ==> e.buckets == [] && Failures(e.results) == 0 && |e.results| < ProbeThreshold(e.cfg))
  }

  lemma {:induction false} ComputeSettles(e: Entry, now: int)
    requires e.state == HalfOpen ==> e.buckets == []
    ensures StateOk(Compute(e, now))
    ensures e.state == Open && Compute(e, now).state != Open ==> now - e.openSince >= e.cfg.recoveryTO
  {}

  /** Recording recomputes the state under the new settings on both sides of the
      append; the half-open list never overflows, so no probe result is dropped. */
  lemma {:induction false} RecordSettles(e: Entry, ok: bool, now: int, raw: Settings)
    requires StateOk(e)
    ensures StateOk(Record(e, ok, now, raw))
    ensures e.state == Open && Record(e, ok, now, raw).state != Open ==> now - e.openSince >= Normalize(raw).recoveryTO
    ensures var mid := Compute(e.(cfg := Normalize(raw)), now);
            mid.state == HalfOpen ==> Append(mid, ok, now).results == mid.results + [ok]
  {
    var mid := Compute(e.(cfg := Normalize(raw)), now);
    ComputeSettles(e.(cfg := Normalize(raw)), now);
    ComputeSettles(Append(mid, ok, now), now);
  }

  ghost predicate AllStatesOk(s: L.System) {
    forall key :: key in s.entries ==> StateOk(s.entries[key])
  }

  lemma {:induction false} RecordOutcomeSettles(s: L.System, l: nat, j: nat, version: int, ok: bool, now: int,
                                                settings: Settings)
    requires AllStatesOk(s) && l < |s.leases| && j < |s.leases[l].permits|
    ensures AllStatesOk(L.DoRecord(s, l, j, version, ok, now, settings))
  {
    var e := L.EntryAt(s, s.leases[l].permits[j].key);
    RecordSettles(VersionCheck(e, version), ok, now, settings);
  }

  lemma {:induction false} StepSettles(s: L.System, step: L.Step)
    requires AllStatesOk(s)
    ensures AllStatesOk(L.Apply(s, step))
  {
    hide Compute, Record;
    match step
    case AcquireNext(l, enableActive, now) =>
      if L.Apply(s, step) != s {
        ComputeSettles(L.EntryAt(s, s.leases[l].keys[|s.leases[l].permits|]), now);
      }
    case RecordOutcome(l, key, version, ok, now, settings) =>
      if L.Apply(s, step) != s {
        RecordOutcomeSettles(s, l, L.FirstPermit(s.leases[l].permits, key), version, ok, now, settings);
      }
    case LegacyRecord(key, ok, now, settings) =>
      RecordSettles(LegacyReturn(L.EntryAt(s, key)), ok, now, settings);
    case Poll(key, now) => ComputeSettles(L.EntryAt(s, key), now);
    case _ =>
  }

  /** In every run of the protocol, whatever settings the policies carry: a Closed
      breaker is below its threshold, and a HalfOpen one has seen only successes, fewer
      than it needs to close. */
  lemma {:induction false} StatesMatchSamples(steps: seq<L.Step>, key: string)
    requires key in L.Run(L.Initial, steps).entries
    ensures StateOk(L.Run(L.Initial, steps).entries[key])
  {
    RunSettles(steps);
  }

  lemma {:induction false} RunSettles(steps: seq<L.Step>)
    ensures AllStatesOk(L.Run(L.Initial, steps))
    decreases |steps|
  {
    if steps != [] {
      RunSettles(steps[..|steps| - 1]);
      StepSettles(L.Run(L.Initial, steps[..|steps| - 1]), steps[|steps| - 1]);
    }
  }

  /** The step changes the policy version the breaker has seen. */
  ghost predicate ChangesVersion(e: Entry, step: L.Step, key: string) {
    (step.CheckVersion? || step.RecordOutcome?) && step.key == key && e.version != 0 && step.version != e.version
  }

  ghost predicate TimedOut(e: Entry, after: Entry, step: L.Step) {
    (step.AcquireNext? || step.RecordOutcome? || step.LegacyRecord? || step.Poll?)
    && step.now - e.openSince >= after.cfg.recoveryTO
  }

  /** Computing the state or recording leaves Open only after the timeout in force. */
  lemma {:induction false} ExitsOnTimeout(e: Entry, ok: bool, now: int, raw: Settings)
    requires e.state == Open
    ensures Compute(e, now).state != Open ==> now - e.openSince >= Compute(e, now).cfg.recoveryTO
    ensures Record(e, ok, now, raw).state != Open ==> now - e.openSince >= Record(e, ok, now, raw).cfg.recoveryTO
  {
    hide Record;
    KeepsSettings(e, ok, now);
    RecordKeepsSettings(e, ok, now, raw);
    RecordSettles(e, ok, now, raw);
  }

  lemma {:induction false} RecordOutcomeExits(s: L.System, step: L.Step, key: string)
    requires step.RecordOutcome? && key in s.entries && s.entries[key].state == Open
    requires key in L.Apply(s, step).entries && L.Apply(s, step).entries[key].state != Open
    ensures ChangesVersion(s.entries[key], step, key) || TimedOut(s.entries[key], L.Apply(s, step).entries[key], step)
  {
    hide Compute, Record;
    var l := step.lease;
    var j := L.FirstPermit(s.leases[l].permits, step.key);
    var e := L.EntryAt(s, s.leases[l].permits[j].key);
    var checked := VersionCheck(e, step.version);
    if checked.state == Open {
      ExitsOnTimeout(checked, step.ok, step.now, step.settings);
    }
  }

  /** Open is left only by a reset, a policy version change, or a step whose clock has
      passed the recovery timeout in force. */
  lemma {:induction false} OpenIsLeftOnlyBy(s: L.System, step: L.Step, key: string)
    requires key in s.entries && s.entries[key].state == Open
    requires key in L.Apply(s, step).entries && L.Apply(s, step).entries[key].state != Open
    ensures (step.ResetBreaker? && step.key == key) || ChangesVersion(s.entries[key], step, key)
            || TimedOut(s.entries[key], L.Apply(s, step).entries[key], step)
  {
    hide Compute, Record;
    match step
    case RecordOutcome(_, _, _, _, _, _) => RecordOutcomeExits(s, step, key);
    case AcquireNext(_, _, now) => ExitsOnTimeout(s.entries[key], true, now, Fresh.cfg);
    case LegacyRecord(_, ok, now, settings) => ExitsOnTimeout(LegacyReturn(s.entries[key]), ok, now, settings);
    case Poll(_, now) => ExitsOnTimeout(s.entries[key], true, now, Fresh.cfg);
    case _ =>
  }

  lemma {:induction false} RecordKeepsSettings(e: Entry, ok: bool, now: int, raw: Settings)
    ensures Record(e, ok, now, raw).cfg == Normalize(raw)
  {
    hide Compute, Append;
    var e0 := e.(cfg := Normalize(raw));
    var e1 := Compute(e0, now);
    KeepsSettings(e0, ok, now);
    KeepsSettings(e1, ok, now);
    KeepsSettings(Append(e1, ok, now), ok, now);
  }

  lemma {:induction false} KeepsSettings(e: Entry, ok: bool, now: int)
    ensures Compute(e, now).cfg == e.cfg && Append(e, ok, now).cfg == e.cfg
  {}

  // ----- The reference -----

  datatype Sample = Sample(at: int, ok: bool)

  datatype Reference = Reference(state: CircuitState, openSince: int, log: seq<Sample>)

  datatype Event = Recorded(ok: bool, now: int) | Polled(now: int) | WasReset

  function Last<T>(s: seq<T>, n: nat): seq<T> {
    if |s| <= n then s else s[|s| - n..]
  }

  function Oks(log: seq<Sample>): seq<bool> {
    seq(|log|, i requires 0 <= i < |log| => log[i].ok)
  }

  /** Failed samples of the log whose second is not before the limit. */
  function FailuresSince(log: seq<Sample>, limit: int): nat {
    if log == [] then 0
    else
      var x := log[|log| - 1];
      FailuresSince(log[..|log| - 1], limit) + (if !x.ok && (x.at / SECOND) * SECOND >= limit then 1 else 0)
  }

  function LogFailures(log: seq<Sample>, cfg: Settings, now: int): nat {
    if IsTime(cfg) then FailuresSince(log, now - cfg.windowSize * SECOND)
    else if cfg.windowSize > 0 then Failures(Oks(Last(log, cfg.windowSize))) else 0
  }

  function RefCompute(r: Reference, cfg: Settings, now: int): Reference {
    match r.state
    case Closed =>
      if LogFailures(r.log, cfg, now) >= cfg.failThresh then Reference(Open, now, r.log) else r
    case Open =>
      if now - r.openSince >= cfg.recoveryTO then Reference(HalfOpen, r.openSince, []) else r
    case HalfOpen =>
      if Failures(Oks(r.log)) > 0 then Reference(Open, now, [])
      else if |r.log| >= cfg.hoSuccessThr then Reference(Closed, r.openSince, r.log) else r
  }

  function RefApply(r: Reference, cfg: Settings, ev: Event): Reference {
    match ev
    case Recorded(ok, now) =>
      var mid := RefCompute(r, cfg, now);
      RefCompute(mid.(log := mid.log + [Sample(now, ok)]), cfg, now)
    case Polled(now) => RefCompute(r, cfg, now)
    case WasReset => Reference(Closed, 0, [])
  }

  function EntryApply(e: Entry, raw: Settings, ev: Event): Entry {
    match ev
    case Recorded(ok, now) => Record(e, ok, now, raw)
    case Polled(now) => Compute(e, now)
    case WasReset => Reset(e)
  }

  function RefRun(cfg: Settings, events: seq<Event>): Reference
    decreases |events|
  {
    if events == [] then Reference(Closed, 0, [])
    else RefApply(RefRun(cfg, events[..|events| - 1]), cfg, events[|events| - 1])
  }

  function EntryRun(raw: Settings, events: seq<Event>): Entry
    decreases |events|
  {
    if events == [] then Fresh else EntryApply(EntryRun(raw, events[..|events| - 1]), raw, events[|events| - 1])
  }

  /** The clock never runs backwards. */
  ghost predicate Monotone(events: seq<Event>) {
    forall i, j :: 0 <= i < j < |events| && !events[i].WasReset? && !events[j].WasReset? ==>
      events[i].now <= events[j].now
  }

  ghost predicate AtOrBefore(events: seq<Event>, now: int) {
    forall i :: 0 <= i < |events| && !events[i].WasReset? ==> events[i].now <= now
  }

  // ----- Buckets against the log -----

  function BucketsSince(buckets: seq<Bucket>, limit: int): nat {
    if buckets == [] then 0
    else
      var b := buckets[|buckets| - 1];
      BucketsSince(buckets[..|buckets| - 1], limit) + (if b.second * SECOND >= limit then b.failures else 0)
  }

  ghost predicate Ascending(buckets: seq<Bucket>) {
    forall i, j :: 0 <= i < j < |buckets| ==> buckets[i].second < buckets[j].second
  }

  lemma {:induction false} BucketsSinceDrop(buckets: seq<Bucket>, limit: int)
    requires buckets != []
    ensures BucketsSince(buckets, limit)
            == (if buckets[0].second * SECOND >= limit then buckets[0].failures else 0)
               + BucketsSince(buckets[1..], limit)
    decreases |buckets|
  {
    var n := |buckets|;
    if n > 1 {
      BucketsSinceDrop(buckets[..n - 1], limit);
      assert buckets[..n - 1][1..] == buckets[1..][..n - 2];
    }
  }

  /** Dropping the expired prefix changes no count at or after the limit. */
  lemma {:induction false} DropExpiredKeepsCounts(buckets: seq<Bucket>, l0: int, limit: int)
    requires l0 <= limit
    ensures BucketsSince(DropExpired(buckets, l0), limit) == BucketsSince(buckets, limit)
    decreases |buckets|
  {
    if buckets != [] && buckets[0].second * SECOND < l0 {
      BucketsSinceDrop(buckets, limit);
      DropExpiredKeepsCounts(buckets[1..], l0, limit);
    }
  }

  lemma {:induction false} DropExpiredShape(buckets: seq<Bucket>, limit: int)
    requires Ascending(buckets)
    ensures Ascending(DropExpired(buckets, limit))
    ensures forall i :: 0 <= i < |DropExpired(buckets, limit)| ==>
            DropExpired(buckets, limit)[i].second * SECOND >= limit
    ensures DropExpired(buckets, limit) != [] ==>
              buckets != [] && DropExpired(buckets, limit)[|DropExpired(buckets, limit)| - 1] == buckets[|buckets| - 1]
    decreases |buckets|
  {
    if buckets != [] && buckets[0].second * SECOND < limit {
      DropExpiredShape(buckets[1..], limit);
    }
  }

  lemma {:induction false} UnexpiredTotal(buckets: seq<Bucket>, limit: int)
    requires forall i :: 0 <= i < |buckets| ==> buckets[i].second * SECOND >= limit
    ensures BucketFailures(buckets) == BucketsSince(buckets, limit)
    decreases |buckets|
  {
    if buckets != [] {
      UnexpiredTotal(buckets[..|buckets| - 1], limit);
    }
  }

  lemma {:induction false} AddSampleCounts(buckets: seq<Bucket>, ok: bool, now: int, limit: int)
    ensures BucketsSince(AddSample(buckets, ok, now / SECOND), limit)
            == BucketsSince(buckets, limit) + (if !ok && (now / SECOND) * SECOND >= limit then 1 else 0)
  {
    var after := AddSample(buckets, ok, now / SECOND);
    if |buckets| > 0 && buckets[|buckets| - 1].second == now / SECOND {
      assert after[..|after| - 1] == buckets[..|buckets| - 1];
    } else {
      assert after[..|after| - 1] == buckets;
    }
  }

  lemma {:induction false} AddSampleAscending(buckets: seq<Bucket>, ok: bool, second: int)
    requires Ascending(buckets) && (buckets != [] ==> buckets[|buckets| - 1].second <= second)
    ensures Ascending(AddSample(buckets, ok, second))
    ensures AddSample(buckets, ok, second) != []
    ensures AddSample(buckets, ok, second)[|AddSample(buckets, ok, second)| - 1].second == second
  {}

  // ----- The relation between the two machines -----

  /** Every failed sample of the log that is not before the limit is in a bucket. */
  ghost predicate BucketsMatch(buckets: seq<Bucket>, log: seq<Sample>, since: int) {
    forall limit :: limit >= since ==> BucketsSince(buckets, limit) == FailuresSince(log, limit)
  }

  ghost predicate TimeAgree(e: Entry, log: seq<Sample>, cfg: Settings, clock: int) {
    && Ascending(e.buckets)
    && (e.buckets != [] ==> e.buckets[|e.buckets| - 1].second <= clock / SECOND)
    && BucketsMatch(e.buckets, log, clock - cfg.windowSize * SECOND)
  }

  /** Settings under which a count window holds exactly the last windowSize samples. */
  ghost predicate Exact(cfg: Settings) {
    IsTime(cfg) || cfg.hoSuccessThr <= cfg.windowSize || cfg.failThresh > cfg.windowSize
  }

  ghost predicate Agree(e: Entry, r: Reference, cfg: Settings, clock: int) {
    && e.state == r.state && e.openSince == r.openSince
    && (e.state == HalfOpen ==> e.buckets == [] && e.results == Oks(r.log) && |r.log| <= cfg.hoSuccessThr)
    && (if IsTime(cfg) then e.state != HalfOpen ==> TimeAgree(e, r.log, cfg, clock)
        else cfg.windowSize > 0 && e.results == Oks(Last(r.log, cfg.windowSize)))
    && (!IsTime(cfg) && cfg.failThresh > cfg.windowSize ==> e.state == Closed)
  }

  lemma {:induction false} NoFailuresSince(log: seq<Sample>, limit: int)
    requires Failures(Oks(log)) == 0
    ensures FailuresSince(log, limit) == 0
    decreases |log|
  {
    if log != [] {
      assert Oks(log)[..|log| - 1] == Oks(log[..|log| - 1]);
      NoFailuresSince(log[..|log| - 1], limit);
    }
  }

  lemma {:induction false} FailuresAtMost(results: seq<bool>)
    ensures Failures(results) <= |results|
    decreases |results|
  {
    if results != [] { FailuresAtMost(results[..|results| - 1]); }
  }

  /** Expiring at a later clock keeps the buckets in step with the log. */
  lemma {:induction false} ExpireAgrees(e: Entry, log: seq<Sample>, cfg: Settings, clock: int, now: int)
    requires cfg.windowSize > 0 && IsTime(cfg) && TimeAgree(e, log, cfg, clock) && clock <= now
    requires e.cfg == cfg
    ensures TimeAgree(Expire(e, now), log, cfg, now)
    ensures BucketFailures(Expire(e, now).buckets) == LogFailures(log, cfg, now)
  {
    var l0 := now - cfg.windowSize * SECOND;
    var kept := DropExpired(e.buckets, l0);
    assert Expire(e, now).buckets == kept;
    DropExpiredShape(e.buckets, l0);
    forall limit | limit >= l0
      ensures BucketsSince(kept, limit) == FailuresSince(log, limit)
    {
      DropExpiredKeepsCounts(e.buckets, l0, limit);
    }
    UnexpiredTotal(kept, l0);
  }

  lemma {:induction false} ComputeAgrees(e: Entry, r: Reference, cfg: Settings, clock: int, now: int)
    requires Normalize(cfg) == cfg && Exact(cfg) && e.cfg == cfg && Agree(e, r, cfg, clock) && clock <= now
    ensures Agree(Compute(e, now), RefCompute(r, cfg, now), cfg, now)
    ensures RefCompute(r, cfg, now).state == HalfOpen ==> |RefCompute(r, cfg, now).log| < cfg.hoSuccessThr
  {
    hide Compute, RefCompute, Agree;
    if IsTime(cfg) { TimeComputeAgrees(e, r, cfg, clock, now); } else { CountComputeAgrees(e, r, cfg, clock, now); }
  }

  lemma {:induction false} CountComputeAgrees(e: Entry, r: Reference, cfg: Settings, clock: int, now: int)
    requires Normalize(cfg) == cfg && !IsTime(cfg) && Exact(cfg) && e.cfg == cfg && Agree(e, r, cfg, clock)
    ensures Agree(Compute(e, now), RefCompute(r, cfg, now), cfg, now)
    ensures RefCompute(r, cfg, now).state == HalfOpen ==> |RefCompute(r, cfg, now).log| < cfg.hoSuccessThr
  {
    FailuresAtMost(e.results);
  }

  lemma {:induction false} TimeComputeAgrees(e: Entry, r: Reference, cfg: Settings, clock: int, now: int)
    requires Normalize(cfg) == cfg && IsTime(cfg) && e.cfg == cfg && Agree(e, r, cfg, clock) && clock <= now
    ensures Agree(Compute(e, now), RefCompute(r, cfg, now), cfg, now)
    ensures RefCompute(r, cfg, now).state == HalfOpen ==> |RefCompute(r, cfg, now).log| < cfg.hoSuccessThr
  {
    if e.state != HalfOpen {
      ExpireAgrees(e, r.log, cfg, clock, now);
    } else if Failures(Oks(r.log)) == 0 {
      forall limit ensures FailuresSince(r.log, limit) == 0 { NoFailuresSince(r.log, limit); }
    }
  }

  lemma {:induction false} OksAppend(log: seq<Sample>, x: Sample)
    ensures Oks(log + [x]) == Oks(log) + [x.ok]
  {}

  /** Appending to a list trimmed to the last n samples and trimming again. */
  lemma {:induction false} TrimIsLast(log: seq<Sample>, x: Sample, n: nat)
    requires n > 0
    ensures Trim(Oks(Last(log, n)) + [x.ok], n) == Oks(Last(log + [x], n))
  {
    var list := Oks(Last(log, n)) + [x.ok];
    if |log| < n {
      assert Oks(log + [x]) == list;
    } else {
      assert Last(log + [x], n) == Last(log, n)[1..] + [x];
      assert Oks(Last(log, n)[1..] + [x]) == list[1..];
    }
  }

  lemma {:induction false} AppendAgrees(e: Entry, r: Reference, cfg: Settings, ok: bool, now: int)
    requires Normalize(cfg) == cfg && Exact(cfg) && e.cfg == cfg && Agree(e, r, cfg, now)
    requires r.state == HalfOpen ==> |r.log| < cfg.hoSuccessThr
    ensures Agree(Append(e, ok, now), r.(log := r.log + [Sample(now, ok)]), cfg, now)
  {
    var log' := r.log + [Sample(now, ok)];
    OksAppend(r.log, Sample(now, ok));
    if e.state == HalfOpen {
      if !IsTime(cfg) {
        assert Last(log', cfg.windowSize) == log';
      }
    } else if IsTime(cfg) {
      AddSampleAscending(e.buckets, ok, now / SECOND);
      var added := e.(buckets := AddSample(e.buckets, ok, now / SECOND));
      forall limit | limit >= now - cfg.windowSize * SECOND
        ensures BucketsSince(added.buckets, limit) == FailuresSince(log', limit)
      {
        AddSampleCounts(e.buckets, ok, now, limit);
        assert log'[..|log'| - 1] == r.log;
      }
      ExpireAgrees(added, log', cfg, now, now);
    } else {
      TrimIsLast(r.log, Sample(now, ok), cfg.windowSize);
    }
  }

  /** Related also covers an entry no policy has touched yet. */
  ghost predicate Related(e: Entry, r: Reference, cfg: Settings, clock: int) {
    Agree(e, r, cfg, clock) && (e.cfg == cfg || (e.cfg == Fresh.cfg && e.state == Closed && r.log == []))
  }

  lemma {:induction false} RecordedAgrees(e: Entry, r: Reference, raw: Settings, clock: int, ok: bool, now: int)
    requires Exact(Normalize(raw)) && Related(e, r, Normalize(raw), clock) && clock <= now
    ensures Related(Record(e, ok, now, raw), RefApply(r, Normalize(raw), Recorded(ok, now)), Normalize(raw), now)
  {
    var cfg := Normalize(raw);
    var e0 := e.(cfg := cfg);
    ComputeAgrees(e0, r, cfg, clock, now);
    var e1, r1 := Compute(e0, now), RefCompute(r, cfg, now);
    AppendAgrees(e1, r1, cfg, ok, now);
    var e2, r2 := Append(e1, ok, now), r1.(log := r1.log + [Sample(now, ok)]);
    ComputeAgrees(e2, r2, cfg, now, now);
    RecordKeepsSettings(e, ok, now, raw);
  }

  lemma {:induction false} PolledAgrees(e: Entry, r: Reference, cfg: Settings, clock: int, now: int)
    requires Normalize(cfg) == cfg && Exact(cfg) && Related(e, r, cfg, clock) && clock <= now
    ensures Related(Compute(e, now), RefCompute(r, cfg, now), cfg, now)
  {
    if e.cfg == cfg {
      ComputeAgrees(e, r, cfg, clock, now);
    } else {
      assert Oks(Last(r.log, cfg.windowSize)) == [];
    }
  }

  lemma {:induction false} ClockAdvances(e: Entry, r: Reference, cfg: Settings, now: int, clock: int)
    requires Related(e, r, cfg, now) && now <= clock && cfg.windowSize > 0
    ensures Related(e, r, cfg, clock)
  {}

  lemma {:induction false} RunsAgree(raw: Settings, events: seq<Event>, clock: int)
    requires Exact(Normalize(raw)) && Monotone(events) && AtOrBefore(events, clock)
    ensures Related(EntryRun(raw, events), RefRun(Normalize(raw), events), Normalize(raw), clock)
    decreases |events|
  {
    var cfg := Normalize(raw);
    if events != [] {
      var n := |events| - 1;
      var before, ev := events[..n], events[n];
      var e, r := EntryRun(raw, before), RefRun(cfg, before);
      match ev
      case Recorded(ok, now) =>
        RunsAgree(raw, before, now);
        RecordedAgrees(e, r, raw, now, ok, now);
        ClockAdvances(EntryRun(raw, events), RefRun(cfg, events), cfg, now, clock);
      case Polled(now) =>
        RunsAgree(raw, before, now);
        PolledAgrees(e, r, cfg, now, now);
        ClockAdvances(EntryRun(raw, events), RefRun(cfg, events), cfg, now, clock);
      case WasReset =>
        RunsAgree(raw, before, clock);
    }
  }
}
