/** Exactly when the breaker's window agrees with the log of all samples. */
module BreakerWindowExact {
  import opened Breaker
  import opened BreakerWindow

  // ----- Counting failures in a list -----

  lemma {:induction false} FailuresConcat(a: seq<bool>, b: seq<bool>)
    ensures Failures(a + b) == Failures(a) + Failures(b)
    decreases |b|
  {
    if b == [] {
      assert a + b == a;
    } else {
      assert (a + b)[..|a + b| - 1] == a + b[..|b| - 1];
      FailuresConcat(a, b[..|b| - 1]);
    }
  }

  lemma {:induction false} OksOfLast(log: seq<Sample>, n: nat)
    ensures Oks(Last(log, n)) == Last(Oks(log), n)
    ensures Failures(Last(Oks(log), n)) <= Failures(Oks(log))
  {
    var k := if |log| <= n then 0 else |log| - n;
    assert Oks(log) == Oks(log)[..k] + Last(Oks(log), n);
    FailuresConcat(Oks(log)[..k], Last(Oks(log), n));
  }

  // ----- A failure threshold of one -----

  /** Neither list has a failure, or both end with one. */
  ghost predicate BothClean(results: seq<bool>, oks: seq<bool>) {
    || (Failures(results) == 0 && Failures(oks) == 0)
    || (results != [] && !results[|results| - 1] && oks != [] && !oks[|oks| - 1])
  }

  ghost predicate OneAgree(e: Entry, r: Reference, cfg: Settings) {
    && e.state == r.state && e.openSince == r.openSince
    && (e.state == HalfOpen ==> e.results == Oks(r.log) && |r.log| <= cfg.hoSuccessThr)
    && (e.state == Closed ==> BothClean(e.results, Oks(r.log)))
  }

  /** After the state has been computed. */
  ghost predicate OneSettled(e: Entry, r: Reference, cfg: Settings) {
    && OneAgree(e, r, cfg)
    && (e.state == HalfOpen ==> |r.log| < cfg.hoSuccessThr)
    && (e.state == Closed ==> Failures(e.results) == 0 && Failures(Oks(r.log)) == 0)
  }

  ghost predicate CountsToOne(cfg: Settings) { Normalize(cfg) == cfg && !IsTime(cfg) && cfg.failThresh == 1 }

  lemma {:induction false} OneComputes(e: Entry, r: Reference, cfg: Settings, now: int)
    requires CountsToOne(cfg) && e.cfg == cfg && OneAgree(e, r, cfg)
    ensures OneSettled(Compute(e, now), RefCompute(r, cfg, now), cfg)
  {
    if e.state == Closed {
      SameVerdict(e.results, r.log, cfg, now);
      hide Failures, LogFailures;
    }
  }

  lemma {:induction false} SameVerdict(results: seq<bool>, log: seq<Sample>, cfg: Settings, now: int)
    requires CountsToOne(cfg) && BothClean(results, Oks(log))
    ensures if Failures(results) == 0 then LogFailures(log, cfg, now) == 0 && Failures(Oks(log)) == 0
            else LogFailures(log, cfg, now) > 0
  {
    OksOfLast(log, cfg.windowSize);
    var last := Last(Oks(log), cfg.windowSize);
    assert Oks(log) != [] ==> last[|last| - 1] == Oks(log)[|log| - 1];
  }

  lemma {:induction false} OneAppends(e: Entry, r: Reference, cfg: Settings, ok: bool, now: int)
    requires CountsToOne(cfg) && e.cfg == cfg && OneSettled(e, r, cfg)
    ensures OneAgree(Append(e, ok, now), r.(log := r.log + [Sample(now, ok)]), cfg)
  {
    OksAppend(r.log, Sample(now, ok));
    var list := e.results + [ok];
    var kept := Trim(list, cfg.windowSize);
    FailuresConcat(e.results, [ok]);
    FailuresConcat(Oks(r.log), [ok]);
    FailuresConcat(list[..|list| - |kept|], kept);
    assert list == list[..|list| - |kept|] + kept;
  }

  ghost predicate OneRelated(e: Entry, r: Reference, cfg: Settings) {
    OneSettled(e, r, cfg) && (e.cfg == cfg || (e.cfg == Fresh.cfg && e.state == Closed && r.log == []))
  }

  lemma {:induction false} OneRecords(e: Entry, r: Reference, raw: Settings, ok: bool, now: int)
    requires CountsToOne(Normalize(raw)) && OneRelated(e, r, Normalize(raw))
    ensures OneRelated(Record(e, ok, now, raw), RefApply(r, Normalize(raw), Recorded(ok, now)), Normalize(raw))
  {
    hide Compute, Append, RefCompute, OneAgree, BothClean;
    var cfg := Normalize(raw);
    var e0 := e.(cfg := cfg);
    SameWithSettings(e, r, cfg);
    OneComputes(e0, r, cfg, now);
    var e1, r1 := Compute(e0, now), RefCompute(r, cfg, now);
    KeepsSettings(e0, ok, now);
    KeepsSettings(e1, ok, now);
    OneAppends(e1, r1, cfg, ok, now);
    OneComputes(Append(e1, ok, now), r1.(log := r1.log + [Sample(now, ok)]), cfg, now);
    RecordKeepsSettings(e, ok, now, raw);
  }

  lemma {:induction false} SameWithSettings(e: Entry, r: Reference, cfg: Settings)
    requires OneRelated(e, r, cfg)
    ensures OneAgree(e.(cfg := cfg), r, cfg)
  {}

  lemma {:induction false} OnePolls(e: Entry, r: Reference, cfg: Settings, now: int)
    requires CountsToOne(cfg) && OneRelated(e, r, cfg)
    ensures OneRelated(Compute(e, now), RefCompute(r, cfg, now), cfg)
  {
    if e.cfg == cfg { OneComputes(e, r, cfg, now); }
    KeepsSettings(e, true, now);
  }

  /** With a failure threshold of one, whatever the clocks say, the two machines agree: the
      breaker is closed only while it has seen no failure at all. */
  lemma {:induction false} OneRuns(raw: Settings, events: seq<Event>)
    requires CountsToOne(Normalize(raw))
    ensures OneRelated(EntryRun(raw, events), RefRun(Normalize(raw), events), Normalize(raw))
    decreases |events|
  {
    hide OneRelated, Record, Compute, RefCompute;
    if events == [] {
      OneStarts(Fresh, Normalize(raw));
    } else {
      var n := |events| - 1;
      var e, r := EntryRun(raw, events[..n]), RefRun(Normalize(raw), events[..n]);
      OneRuns(raw, events[..n]);
      match events[n]
      case Recorded(ok, now) => OneRecords(e, r, raw, ok, now);
      case Polled(now) => OnePolls(e, r, Normalize(raw), now);
      case WasReset => OneResets(e, r, Normalize(raw));
    }
  }

  lemma {:induction false} OneStarts(e: Entry, cfg: Settings)
    requires e.state == Closed && e.openSince == 0 && e.results == [] && (e.cfg == cfg || e.cfg == Fresh.cfg)
    ensures OneRelated(e, Reference(Closed, 0, []), cfg)
  {}

  lemma {:induction false} OneResets(e: Entry, r: Reference, cfg: Settings)
    requires OneRelated(e, r, cfg)
    ensures OneRelated(Reset(e), Reference(Closed, 0, []), cfg)
  {
    OneStarts(Reset(e), cfg);
  }

  // ----- The settings under which the window agrees with the log -----

  ghost predicate Tracks(cfg: Settings) { Exact(cfg) || cfg.failThresh == 1 }

  ghost predicate SameState(raw: Settings, events: seq<Event>) {
    && EntryRun(raw, events).state == RefRun(Normalize(raw), events).state
    && EntryRun(raw, events).openSince == RefRun(Normalize(raw), events).openSince
  }

  /** For fixed settings that track the log and a clock that never runs backwards, the entry
      and the log reference are in the same state, opened at the same time, and a time
      window's buckets count exactly the failures the log has in the window. */
  lemma {:induction false} WindowRefinesLog(raw: Settings, events: seq<Event>, now: int)
    requires Tracks(Normalize(raw)) && Monotone(events) && AtOrBefore(events, now)
    ensures SameState(raw, events)
    ensures IsTime(Normalize(raw)) && EntryRun(raw, events).state != HalfOpen
            && EntryRun(raw, events).cfg == Normalize(raw) ==>
              BucketFailures(Expire(EntryRun(raw, events), now).buckets)
              == LogFailures(RefRun(Normalize(raw), events).log, Normalize(raw), now)
  {
    var cfg := Normalize(raw);
    var e, r := EntryRun(raw, events), RefRun(cfg, events);
    if Exact(cfg) {
      RunsAgree(raw, events, now);
      if IsTime(cfg) && e.state != HalfOpen && e.cfg == cfg {
        ExpireAgrees(e, r.log, cfg, now, now);
      }
    } else {
      OneRuns(raw, events);
    }
  }

  // ----- Exactly when a count window holds the last windowSize samples -----

  ghost predicate CountWindowExact(raw: Settings, events: seq<Event>) {
    EntryRun(raw, events).results == Oks(Last(RefRun(Normalize(raw), events).log, Normalize(raw).windowSize))
  }

  function Repeat(ev: Event, n: nat): seq<Event> {
    seq(n, _ => ev)
  }

  function AllOf(b: bool, n: nat): seq<bool> {
    seq(n, _ => b)
  }

  lemma {:induction false} FailuresOfAll(b: bool, n: nat)
    ensures Failures(AllOf(b, n)) == if b then 0 else n
  {
    if n > 0 {
      assert AllOf(b, n)[..n - 1] == AllOf(b, n - 1);
      FailuresOfAll(b, n - 1);
    }
  }

  /** failThresh failures in a row fill the list and open the breaker. */
  lemma {:induction false} FailingRun(raw: Settings, n: nat)
    requires !IsTime(Normalize(raw))
    requires n <= Normalize(raw).failThresh <= Normalize(raw).windowSize
    ensures var e := EntryRun(raw, Repeat(Recorded(false, 0), n));
            e.results == AllOf(false, n) && e.openSince == 0
            && e.state == (if n < Normalize(raw).failThresh then Closed else Open)
  {
    if n > 0 {
      var events := Repeat(Recorded(false, 0), n);
      assert events[..n - 1] == Repeat(Recorded(false, 0), n - 1);
      FailingRun(raw, n - 1);
      FailuresOfAll(false, n - 1);
      FailuresOfAll(false, n);
      assert AllOf(false, n - 1) + [false] == AllOf(false, n);
    }
  }

  function ProbeRun(cfg: Settings, n: nat): seq<Event>
    requires cfg.failThresh >= 0
  {
    Repeat(Recorded(false, 0), cfg.failThresh) + Repeat(Recorded(true, cfg.recoveryTO), n)
  }

  lemma {:induction false} ProbeStep(e: Entry, raw: Settings, n: nat)
    requires !IsTime(Normalize(raw)) && 1 <= n <= Normalize(raw).hoSuccessThr
    requires if n == 1 then e.state == Open && e.openSince == 0
             else e.state == HalfOpen && e.results == AllOf(true, n - 1)
    ensures var e' := Record(e, true, Normalize(raw).recoveryTO, raw);
            e'.results == AllOf(true, n) && e'.state == (if n < Normalize(raw).hoSuccessThr then HalfOpen else Closed)
  {
    var cfg := Normalize(raw);
    var mid := Compute(e.(cfg := cfg), cfg.recoveryTO);
    FailuresOfAll(true, n - 1);
    assert mid.state == HalfOpen && mid.results == AllOf(true, n - 1) && mid.cfg == cfg;
    hide Compute, Append;
    ProbeAdds(mid, n, cfg.recoveryTO);
  }

  lemma {:induction false} ProbeAdds(mid: Entry, n: nat, now: int)
    requires mid.state == HalfOpen && !IsTime(mid.cfg) && 1 <= n <= mid.cfg.hoSuccessThr
    requires mid.results == AllOf(true, n - 1)
    ensures var e' := Compute(Append(mid, true, now), now);
            e'.results == AllOf(true, n) && e'.state == (if n < mid.cfg.hoSuccessThr then HalfOpen else Closed)
  {
    assert AllOf(true, n - 1) + [true] == AllOf(true, n);
    FailuresOfAll(true, n);
    hide Failures;
    assert Append(mid, true, now).results == AllOf(true, n);
  }

  lemma {:induction false} ProbeRunGrows(raw: Settings, n: nat)
    requires n >= 1
    ensures var cfg := Normalize(raw);
            EntryRun(raw, ProbeRun(cfg, n)) == Record(EntryRun(raw, ProbeRun(cfg, n - 1)), true, cfg.recoveryTO, raw)
  {
    hide Record;
    var events := ProbeRun(Normalize(raw), n);
    assert events[..|events| - 1] == ProbeRun(Normalize(raw), n - 1);
  }

  /** After the timeout, n successes are all kept, whatever the window size. */
  lemma {:induction false} RecoveringRun(raw: Settings, n: nat)
    requires !IsTime(Normalize(raw)) && Normalize(raw).failThresh <= Normalize(raw).windowSize
    requires 1 <= n <= Normalize(raw).hoSuccessThr
    ensures var e := EntryRun(raw, ProbeRun(Normalize(raw), n));
            e.results == AllOf(true, n)
            && e.state == (if n < Normalize(raw).hoSuccessThr then HalfOpen else Closed)
  {
    var cfg := Normalize(raw);
    var before := ProbeRun(cfg, n - 1);
    ProbeRunGrows(raw, n);
    if n == 1 {
      assert before == Repeat(Recorded(false, 0), cfg.failThresh);
      FailingRun(raw, cfg.failThresh);
    } else {
      RecoveringRun(raw, n - 1);
    }
    ProbeStep(EntryRun(raw, before), raw, n);
  }

  /** A count window always holds exactly the last windowSize samples if and only if
      the closing threshold fits into the window, or the breaker can never open because
      the window is shorter than the failure threshold. Otherwise the successes that
      close the breaker stay in the list, and since each later sample pushes out only
      one, the list stays longer than the window. */
  lemma {:induction false} CountWindowExactIff(raw: Settings)
    requires !IsTime(Normalize(raw))
    ensures (forall events: seq<Event> :: Monotone(events) ==> CountWindowExact(raw, events))
            <==> Normalize(raw).hoSuccessThr <= Normalize(raw).windowSize
                 || Normalize(raw).failThresh > Normalize(raw).windowSize
  {
    var cfg := Normalize(raw);
    if Exact(cfg) {
      forall events: seq<Event> | Monotone(events)
        ensures CountWindowExact(raw, events)
      {
        var clock := LatestClock(events);
        RunsAgree(raw, events, clock);
      }
    } else {
      var events := ProbeRun(cfg, cfg.hoSuccessThr);
      RecoveringRun(raw, cfg.hoSuccessThr);
      assert Monotone(events);
      assert |EntryRun(raw, events).results| == cfg.hoSuccessThr;
      assert !CountWindowExact(raw, events);
    }
  }

  lemma {:induction false} LatestClock(events: seq<Event>) returns (clock: int)
    ensures AtOrBefore(events, clock)
    decreases |events|
  {
    if events == [] {
      clock := 0;
    } else {
      clock := LatestClock(events[1..]);
      if !events[0].WasReset? && events[0].now > clock { clock := events[0].now; }
      assert forall i :: 1 <= i < |events| ==> events[i] == events[1..][i - 1];
    }
  }

  // ----- Exactly when the state agrees -----

  /** The reference under the failures that open the breaker. */
  lemma {:induction false} RefFailingRun(cfg: Settings, n: nat)
    requires Normalize(cfg) == cfg && !IsTime(cfg) && n <= cfg.failThresh <= cfg.windowSize
    ensures var r := RefRun(cfg, Repeat(Recorded(false, 0), n));
            Oks(r.log) == AllOf(false, n) && r.openSince == 0
            && r.state == (if n < cfg.failThresh then Closed else Open)
  {
    if n > 0 {
      var events := Repeat(Recorded(false, 0), n);
      assert events[..n - 1] == Repeat(Recorded(false, 0), n - 1);
      RefFailingRun(cfg, n - 1);
      var log := RefRun(cfg, events[..n - 1]).log;
      OksAppend(log, Sample(0, false));
      OksOfLast(log, cfg.windowSize);
      OksOfLast(log + [Sample(0, false)], cfg.windowSize);
      FailuresOfAll(false, n - 1);
      FailuresOfAll(false, n);
      assert AllOf(false, n - 1) + [false] == AllOf(false, n);
    }
  }

  /** And under the successes that close it again. */
  lemma {:induction false} RefRecoveringRun(cfg: Settings, n: nat)
    requires Normalize(cfg) == cfg && !IsTime(cfg) && cfg.failThresh <= cfg.windowSize && 1 <= n <= cfg.hoSuccessThr
    ensures var r := RefRun(cfg, ProbeRun(cfg, n));
            Oks(r.log) == AllOf(true, n) && r.state == (if n < cfg.hoSuccessThr then HalfOpen else Closed)
  {
    hide RefApply, Failures;
    var events := ProbeRun(cfg, n);
    assert events[..|events| - 1] == ProbeRun(cfg, n - 1);
    if n == 1 {
      assert ProbeRun(cfg, 0) == Repeat(Recorded(false, 0), cfg.failThresh);
      RefFailingRun(cfg, cfg.failThresh);
    } else {
      RefRecoveringRun(cfg, n - 1);
    }
    RefProbeStep(RefRun(cfg, ProbeRun(cfg, n - 1)), cfg, n);
  }

  lemma {:induction false} RefProbeStep(r: Reference, cfg: Settings, n: nat)
    requires Normalize(cfg) == cfg && 1 <= n <= cfg.hoSuccessThr
    requires if n == 1 then r.state == Open && r.openSince == 0
             else r.state == HalfOpen && Oks(r.log) == AllOf(true, n - 1)
    ensures var r' := RefApply(r, cfg, Recorded(true, cfg.recoveryTO));
            Oks(r'.log) == AllOf(true, n) && r'.state == (if n < cfg.hoSuccessThr then HalfOpen else Closed)
  {
    FailuresOfAll(true, n - 1);
    FailuresOfAll(true, n);
    var mid := RefCompute(r, cfg, cfg.recoveryTO);
    OksAppend(mid.log, Sample(cfg.recoveryTO, true));
    assert Oks(mid.log) == AllOf(true, n - 1);
    assert AllOf(true, n - 1) + [true] == AllOf(true, n);
  }

  /** The breaker opens, recovers, and then records these outcomes. */
  function LaterRun(cfg: Settings, oks: seq<bool>): seq<Event>
    requires Normalize(cfg) == cfg
  {
    ProbeRun(cfg, cfg.hoSuccessThr) + seq(|oks|, i requires 0 <= i < |oks| => Recorded(oks[i], cfg.recoveryTO))
  }

  lemma {:induction false} LaterRunGrows(cfg: Settings, oks: seq<bool>)
    requires Normalize(cfg) == cfg
    ensures if oks == [] then LaterRun(cfg, oks) == ProbeRun(cfg, cfg.hoSuccessThr)
            else LaterRun(cfg, oks) == LaterRun(cfg, oks[..|oks| - 1]) + [Recorded(oks[|oks| - 1], cfg.recoveryTO)]
  {}

  /** Settings whose breaker can open and whose window is shorter than the closing threshold. */
  predicate Gapped(cfg: Settings) {
    Normalize(cfg) == cfg && !IsTime(cfg) && cfg.failThresh <= cfg.windowSize < cfg.hoSuccessThr
  }

  lemma {:induction false} AfterSuccesses(k: nat, oks: seq<bool>)
    ensures Failures(AllOf(true, k) + oks) == Failures(oks)
  {
    FailuresConcat(AllOf(true, k), oks);
    FailuresOfAll(true, k);
  }

  /** The list keeps as many samples as closed the breaker. */
  lemma {:induction false} ListStaysLong(raw: Settings, oks: seq<bool>)
    requires Gapped(Normalize(raw)) && |oks| <= Normalize(raw).hoSuccessThr
    requires oks != [] ==> Failures(oks[..|oks| - 1]) < Normalize(raw).failThresh
    ensures var cfg := Normalize(raw); var e := EntryRun(raw, LaterRun(cfg, oks));
            && e.results == AllOf(true, cfg.hoSuccessThr - |oks|) + oks
            && e.state == (if Failures(oks) < cfg.failThresh then Closed else Open)
    decreases |oks|
  {
    hide Record;
    var cfg := Normalize(raw);
    LaterRunGrows(cfg, oks);
    if oks == [] {
      RecoveringRun(raw, cfg.hoSuccessThr);
      assert AllOf(true, cfg.hoSuccessThr) + oks == AllOf(true, cfg.hoSuccessThr);
    } else {
      var n := |oks| - 1;
      var events := LaterRun(cfg, oks);
      assert events[..|events| - 1] == LaterRun(cfg, oks[..n]);
      ListStaysLong(raw, oks[..n]);
      ClosedStep(EntryRun(raw, LaterRun(cfg, oks[..n])), raw, oks);
    }
  }

  lemma {:induction false} ClosedStep(e: Entry, raw: Settings, oks: seq<bool>)
    requires Gapped(Normalize(raw)) && 1 <= |oks| <= Normalize(raw).hoSuccessThr
    requires Failures(oks[..|oks| - 1]) < Normalize(raw).failThresh && e.state == Closed
    requires e.results == AllOf(true, Normalize(raw).hoSuccessThr - |oks| + 1) + oks[..|oks| - 1]
    ensures var cfg := Normalize(raw); var e' := Record(e, oks[|oks| - 1], cfg.recoveryTO, raw);
            && e'.results == AllOf(true, cfg.hoSuccessThr - |oks|) + oks
            && e'.state == (if Failures(oks) < cfg.failThresh then Closed else Open)
  {
    var cfg := Normalize(raw);
    var n, k := |oks| - 1, cfg.hoSuccessThr - |oks|;
    AfterSuccesses(k + 1, oks[..n]);
    AfterSuccesses(k, oks);
    assert (AllOf(true, k + 1) + oks[..n] + [oks[n]])[1..] == AllOf(true, k) + oks;
  }

  /** The log forgets what is more than windowSize samples ago. */
  lemma {:induction false} LogForgets(cfg: Settings, oks: seq<bool>)
    requires Gapped(cfg)
    requires forall n :: 0 <= n <= |oks| ==> Failures(Last(oks[..n], cfg.windowSize)) < cfg.failThresh
    ensures var r := RefRun(cfg, LaterRun(cfg, oks));
            r.state == Closed && Oks(r.log) == AllOf(true, cfg.hoSuccessThr) + oks
    decreases |oks|
  {
    hide RefApply, Failures;
    LaterRunGrows(cfg, oks);
    if oks == [] {
      RefRecoveringRun(cfg, cfg.hoSuccessThr);
      assert AllOf(true, cfg.hoSuccessThr) + oks == AllOf(true, cfg.hoSuccessThr);
    } else {
      var n := |oks| - 1;
      var events := LaterRun(cfg, oks);
      assert events[..|events| - 1] == LaterRun(cfg, oks[..n]);
      assert forall i :: 0 <= i <= n ==> oks[..n][..i] == oks[..i];
      LogForgets(cfg, oks[..n]);
      assert oks[..|oks|] == oks;
      LogStep(RefRun(cfg, LaterRun(cfg, oks[..n])), cfg, oks);
    }
  }

  lemma {:induction false} LogStep(r: Reference, cfg: Settings, oks: seq<bool>)
    requires Gapped(cfg) && oks != [] && r.state == Closed
    requires Oks(r.log) == AllOf(true, cfg.hoSuccessThr) + oks[..|oks| - 1]
    requires Failures(Last(oks[..|oks| - 1], cfg.windowSize)) < cfg.failThresh
    requires Failures(Last(oks, cfg.windowSize)) < cfg.failThresh
    ensures var r' := RefApply(r, cfg, Recorded(oks[|oks| - 1], cfg.recoveryTO));
            r'.state == Closed && Oks(r'.log) == AllOf(true, cfg.hoSuccessThr) + oks
  {
    hide Failures, LogFailures;
    var x := Sample(cfg.recoveryTO, oks[|oks| - 1]);
    OksAppend(r.log, x);
    assert AllOf(true, cfg.hoSuccessThr) + oks[..|oks| - 1] + [x.ok] == AllOf(true, cfg.hoSuccessThr) + oks;
    WindowOf(r.log, cfg, oks[..|oks| - 1]);
    WindowOf(r.log + [x], cfg, oks);
  }

  lemma {:induction false} WindowOf(log: seq<Sample>, cfg: Settings, oks: seq<bool>)
    requires Gapped(cfg) && Oks(log) == AllOf(true, cfg.hoSuccessThr) + oks
    ensures LogFailures(log, cfg, cfg.recoveryTO) == Failures(Last(oks, cfg.windowSize))
  {
    OksOfLast(log, cfg.windowSize);
    var k := cfg.windowSize - |oks|;
    if k > 0 {
      assert Last(Oks(log), cfg.windowSize) == AllOf(true, k) + oks;
      AfterSuccesses(k, oks);
    } else {
      assert Last(Oks(log), cfg.windowSize) == Last(oks, cfg.windowSize);
    }
  }

  /** One failure, successes, and then all but one of the failures the threshold asks for:
      windowSize + 1 samples with failThresh failures. */
  function Spread(cfg: Settings): seq<bool>
    requires Gapped(cfg) && cfg.failThresh >= 2
  {
    [false] + AllOf(true, cfg.windowSize - cfg.failThresh + 1) + AllOf(false, cfg.failThresh - 1)
  }

  lemma {:induction false} SpreadCounts(cfg: Settings)
    requires Gapped(cfg) && cfg.failThresh >= 2
    ensures var oks := Spread(cfg);
            && |oks| == cfg.windowSize + 1 && Failures(oks) == cfg.failThresh
            && Failures(oks[..|oks| - 1]) == cfg.failThresh - 1 && Failures(oks[1..]) == cfg.failThresh - 1
  {
    var oks, k := Spread(cfg), cfg.windowSize - cfg.failThresh + 1;
    FailuresOfAll(false, cfg.failThresh - 1);
    AfterSuccesses(k, AllOf(false, cfg.failThresh - 1));
    assert oks == [false] + oks[1..] && oks[1..] == AllOf(true, k) + AllOf(false, cfg.failThresh - 1);
    assert [false] == AllOf(false, 1);
    FailuresOfAll(false, 1);
    FailuresConcat([false], oks[1..]);
  }

  lemma {:induction false} SpreadIsForgotten(cfg: Settings, n: nat)
    requires Gapped(cfg) && cfg.failThresh >= 2 && n <= |Spread(cfg)|
    ensures Failures(Last(Spread(cfg)[..n], cfg.windowSize)) < cfg.failThresh
  {
    var oks := Spread(cfg);
    SpreadCounts(cfg);
    if n == |oks| {
      assert Last(oks[..n], cfg.windowSize) == oks[1..];
    } else {
      assert Last(oks[..n], cfg.windowSize) == oks[..n];
      var rest := oks[n..|oks| - 1];
      assert oks[..|oks| - 1] == oks[..n] + rest;
      FailuresConcat(oks[..n], rest);
    }
  }

  /** Where the window is shorter than the closing threshold: a run after which the breaker
      is open though fewer than failThresh of the last windowSize samples failed. */
  lemma {:induction false} LongListOpens(raw: Settings)
    requires Gapped(Normalize(raw)) && Normalize(raw).failThresh >= 2
    ensures var events := LaterRun(Normalize(raw), Spread(Normalize(raw)));
            && Monotone(events)
            && EntryRun(raw, events).state == Open && RefRun(Normalize(raw), events).state == Closed
  {
    hide EntryRun, RefRun, Failures, Spread;
    var cfg := Normalize(raw);
    var oks := Spread(cfg);
    SpreadCounts(cfg);
    ListStaysLong(raw, oks);
    forall n | 0 <= n <= |oks| ensures Failures(Last(oks[..n], cfg.windowSize)) < cfg.failThresh {
      SpreadIsForgotten(cfg, n);
    }
    LogForgets(cfg, oks);
  }

  /** With a clock that never runs backwards, the breaker is always in the state the log
      says if and only if its window is a time window, or the closing threshold fits into
      the window, or the breaker cannot open at all, or opens at the first failure. */
  lemma {:induction false} WindowRefinesLogIff(raw: Settings)
    ensures (forall events: seq<Event> :: Monotone(events) ==> SameState(raw, events)) <==>
              var cfg := Normalize(raw);
              || IsTime(cfg) || cfg.hoSuccessThr <= cfg.windowSize
              || cfg.failThresh > cfg.windowSize || cfg.failThresh == 1
  {
    if Tracks(Normalize(raw)) {
      forall events: seq<Event> | Monotone(events) ensures SameState(raw, events) {
        var clock := LatestClock(events);
        WindowRefinesLog(raw, events, clock);
      }
    } else {
      LongListOpens(raw);
      assert !SameState(raw, LaterRun(Normalize(raw), Spread(Normalize(raw))));
    }
  }
}
