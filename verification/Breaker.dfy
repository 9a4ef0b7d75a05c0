/** One circuit breaker: the value an entry holds, the operations that run under
    its mutex as functions on that value, and the entry itself as an object whose
    methods are proved to compute those functions. Times are in nanoseconds. */
module Breaker {

  const SECOND := 1_000_000_000

  datatype CircuitState = Closed | Open | HalfOpen

  /** Samples that fell into one second of a time window. */
  datatype Bucket = Bucket(second: int, successes: nat, failures: nat)

  /** The part of a circuit-break policy that recordLocked copies into the entry. */
  datatype Settings = Settings(windowType: string, windowSize: int, failThresh: int,
                               hoSuccessThr: int, recoveryTO: int)

  datatype Entry = Entry(state: CircuitState, cfg: Settings,
                         results: seq<bool>, buckets: seq<Bucket>, openSince: int,
                         activeCalls: int, epoch: nat, nextToken: nat, permitToken: nat,
                         version: int)

  const Fresh := Entry(Closed, Settings("", 0, 0, 0, 0), [], [], 0, 0, 0, 0, 0, 0)

  /** Defaults that replace the unset fields of a policy. */
  function Normalize(raw: Settings): Settings {
    Settings(if raw.windowType == "" then "count" else raw.windowType,
             if raw.windowSize <= 0 then 100 else raw.windowSize,
             if raw.failThresh <= 0 then 5 else raw.failThresh,
             if raw.hoSuccessThr <= 0 then 1 else raw.hoSuccessThr,
             if raw.recoveryTO <= 0 then 30 * SECOND else raw.recoveryTO)
  }

  predicate IsTime(cfg: Settings) { cfg.windowType == "time" }

  /** The closing threshold of the half-open state. */
  function ProbeThreshold(cfg: Settings): (thr: int)
    ensures thr >= 1
  {
    if cfg.hoSuccessThr <= 0 then 1 else cfg.hoSuccessThr
  }

  function Failures(results: seq<bool>): nat {
    if results == [] then 0
    else Failures(results[..|results| - 1]) + (if results[|results| - 1] then 0 else 1)
  }

  function BucketFailures(buckets: seq<Bucket>): nat {
    if buckets == [] then 0
    else BucketFailures(buckets[..|buckets| - 1]) + buckets[|buckets| - 1].failures
  }

  /** Failures the Closed state compares with its threshold. */
  function WindowFailures(e: Entry): nat {
    if IsTime(e.cfg) then BucketFailures(e.buckets) else Failures(e.results)
  }

  function DropExpired(buckets: seq<Bucket>, limit: int): seq<Bucket> {
    if buckets != [] && buckets[0].second * SECOND < limit then DropExpired(buckets[1..], limit)
    else buckets
  }

  function Expire(e: Entry, now: int): Entry {
    if e.cfg.windowSize <= 0 then e
    else e.(buckets := DropExpired(e.buckets, now - e.cfg.windowSize * SECOND))
  }

  /** Starts a new attempt epoch: every permit handed out before is void. */
  function Invalidate(e: Entry): Entry {
    e.(epoch := e.epoch + 1, activeCalls := 0, permitToken := 0)
  }

  function Compute(e: Entry, now: int): Entry {
    var e := if IsTime(e.cfg) then Expire(e, now) else e;
    match e.state
    case Closed =>
      if e.cfg.failThresh > 0 && WindowFailures(e) >= e.cfg.failThresh
      then e.(state := Open, openSince := now) else e
    case Open =>
      if now - e.openSince >= e.cfg.recoveryTO
      then Invalidate(e).(state := HalfOpen, results := [], buckets := []) else e
    case HalfOpen =>
      if Failures(e.results) > 0
      then Invalidate(e).(state := Open, openSince := now, results := [], buckets := [])
      else if |e.results| >= ProbeThreshold(e.cfg)
      then Invalidate(e).(state := Closed) else e
  }

  function Trim(results: seq<bool>, limit: int): seq<bool> {
    if |results| > limit && results != [] then results[1..] else results
  }

  function AddSample(buckets: seq<Bucket>, ok: bool, second: int): seq<Bucket> {
    var n := |buckets|;
    if n > 0 && buckets[n - 1].second == second then
      var b := buckets[n - 1];
      buckets[..n - 1] + [Bucket(second, b.successes + (if ok then 1 else 0), b.failures + (if ok then 0 else 1))]
    else buckets + [Bucket(second, if ok then 1 else 0, if ok then 0 else 1)]
  }

  /** Stores one sample where the current state and window type keep it. */
  function Append(e: Entry, ok: bool, now: int): Entry {
    if e.state == HalfOpen then e.(results := Trim(e.results + [ok], ProbeThreshold(e.cfg)))
    else if IsTime(e.cfg) then Expire(e.(buckets := AddSample(e.buckets, ok, now / SECOND)), now)
    else e.(results := Trim(e.results + [ok], e.cfg.windowSize))
  }

  function Record(e: Entry, ok: bool, now: int, raw: Settings): Entry {
    Compute(Append(Compute(e.(cfg := Normalize(raw)), now), ok, now), now)
  }

  function Reset(e: Entry): Entry {
    Invalidate(e).(state := Closed, results := [], buckets := [], openSince := 0)
  }

  function VersionCheck(e: Entry, version: int): Entry {
    if e.version == 0 then e.(version := version)
    else if e.version != version then Reset(e).(version := version)
    else e
  }

  /** What AcquireAttempt does to one breaker: the new entry, whether the call may
      proceed, and the token of the permit taken (0 when none was needed). */
  function Acquire(e: Entry, enableActive: bool, now: int): (Entry, bool, nat) {
    var e := Compute(e, now);
    if e.state == Closed then (e, true, 0)
    else if e.state == HalfOpen && !enableActive && e.activeCalls < 1 then
      (e.(nextToken := e.nextToken + 1, permitToken := e.nextToken + 1, activeCalls := e.activeCalls + 1),
       true, e.nextToken + 1)
    else (e, false, 0)
  }

  /** What releasePermits does to one breaker for a permit (epoch, token). */
  function ReturnPermit(e: Entry, epoch: nat, token: nat): Entry {
    if token != 0 && e.epoch == epoch && e.permitToken == token
    then e.(activeCalls := e.activeCalls - 1, permitToken := 0) else e
  }

  /** The un-tokened permit API. */
  function LegacyAcquire(e: Entry, enableActive: bool): (Entry, bool) {
    if e.state != HalfOpen then (e, e.state == Closed)
    else if !enableActive && e.activeCalls < 1 then (e.(activeCalls := e.activeCalls + 1), true)
    else (e, false)
  }

  function LegacyReturn(e: Entry): Entry {
    if e.state == HalfOpen && e.activeCalls > 0 && e.permitToken == 0
    then e.(activeCalls := e.activeCalls - 1) else e
  }

  // ----- The entry as an object -----

  lemma {:induction false} FailuresStep(results: seq<bool>, i: nat)
    requires i < |results|
    ensures Failures(results[..i + 1]) == Failures(results[..i]) + (if results[i] then 0 else 1)
  {
    assert results[..i + 1][..i] == results[..i];
  }

  lemma {:induction false} BucketFailuresStep(buckets: seq<Bucket>, i: nat)
    requires i < |buckets|
    ensures BucketFailures(buckets[..i + 1]) == BucketFailures(buckets[..i]) + buckets[i].failures
  {
    assert buckets[..i + 1][..i] == buckets[..i];
  }

  class BreakerEntry {
    var state: CircuitState
    var cfg: Settings
    var results: seq<bool>
    var buckets: seq<Bucket>
    var openSince: int
    var activeCalls: int
    var attemptEpoch: nat
    var nextToken: nat
    var permitToken: nat
    var policyVersion: int

    constructor ()
      ensures Snapshot() == Fresh
    {
      state, cfg, results, buckets, openSince := Closed, Settings("", 0, 0, 0, 0), [], [], 0;
      activeCalls, attemptEpoch, nextToken, permitToken, policyVersion := 0, 0, 0, 0, 0;
    }

    ghost function Snapshot(): Entry
      reads this
    {
      Entry(state, cfg, results, buckets, openSince, activeCalls, attemptEpoch, nextToken, permitToken, policyVersion)
    }

    method ExpireBuckets(now: int)
      modifies this
      ensures Snapshot() == Expire(old(Snapshot()), now)
    {
      if cfg.windowSize <= 0 {
        return;
      }
      var limitTime := now - cfg.windowSize * SECOND;
      var idx := 0;
      while idx < |buckets| && buckets[idx].second * SECOND < limitTime
        invariant 0 <= idx <= |buckets|
        invariant DropExpired(buckets, limitTime) == DropExpired(buckets[idx..], limitTime)
        invariant Snapshot() == old(Snapshot())
      {
        assert buckets[idx..][1..] == buckets[idx + 1..];
        idx := idx + 1;
      }
      if idx > 0 {
        buckets := buckets[idx..];
      }
    }

    method CountFailures() returns (failures: nat)
      ensures failures == WindowFailures(Snapshot())
    {
      failures := 0;
      if IsTime(cfg) {
        for i := 0 to |buckets|
          invariant failures == BucketFailures(buckets[..i])
        {
          BucketFailuresStep(buckets, i);
          failures := failures + buckets[i].failures;
        }
        assert buckets[..|buckets|] == buckets;
      } else {
        failures := CountProbeFailures();
      }
    }

    method CountProbeFailures() returns (failures: nat)
      ensures failures == Failures(results)
    {
      failures := 0;
      for i := 0 to |results|
        invariant failures == Failures(results[..i])
      {
        FailuresStep(results, i);
        if !results[i] {
          failures := failures + 1;
        }
      }
      assert results[..|results|] == results;
    }

    method InvalidateAttempts()
      modifies this
      ensures Snapshot() == Invalidate(old(Snapshot()))
    {
      attemptEpoch := attemptEpoch + 1;
      activeCalls := 0;
      permitToken := 0;
    }

    method ComputeState(now: int)
      modifies this
      ensures Snapshot() == Compute(old(Snapshot()), now)
    {
      if IsTime(cfg) {
        ExpireBuckets(now);
      }
      match state
      case Closed =>
        var failures := CountFailures();
        if cfg.failThresh > 0 && failures >= cfg.failThresh {
          state, openSince := Open, now;
        }
      case Open =>
        if now - openSince >= cfg.recoveryTO {
          InvalidateAttempts();
          state, results, buckets := HalfOpen, [], [];
        }
      case HalfOpen =>
        var failures := CountProbeFailures();
        if failures > 0 {
          InvalidateAttempts();
          state, openSince, results, buckets := Open, now, [], [];
        } else if |results| >= ProbeThreshold(cfg) {
          InvalidateAttempts();
          state := Closed;
        }
    }

    method AppendSample(success: bool, now: int)
      modifies this
      ensures Snapshot() == Append(old(Snapshot()), success, now)
    {
      if state == HalfOpen {
        results := results + [success];
        if |results| > ProbeThreshold(cfg) {
          results := results[1..];
        }
      } else if IsTime(cfg) {
        var sec := now / SECOND;
        if |buckets| > 0 && buckets[|buckets| - 1].second == sec {
          var last := buckets[|buckets| - 1];
          if success {
            last := last.(successes := last.successes + 1);
          } else {
            last := last.(failures := last.failures + 1);
          }
          buckets := buckets[..|buckets| - 1] + [last];
        } else {
          buckets := buckets + [if success then Bucket(sec, 1, 0) else Bucket(sec, 0, 1)];
        }
        ExpireBuckets(now);
      } else {
        results := results + [success];
        if |results| > cfg.windowSize {
          results := results[1..];
        }
      }
    }

    method RecordLocked(success: bool, now: int, raw: Settings) returns (oldState: CircuitState, newState: CircuitState)
      modifies this
      ensures Snapshot() == Record(old(Snapshot()), success, now, raw)
      ensures oldState == old(state) && newState == state
    {
      cfg := Normalize(raw);
      oldState := state;
      ghost var e0 := Snapshot();
      ComputeState(now);
      AppendSample(success, now);
      ComputeState(now);
      assert Snapshot() == Compute(Append(Compute(e0, now), success, now), now);
      newState := state;
    }

    method ResetEntry()
      modifies this
      ensures Snapshot() == Reset(old(Snapshot()))
    {
      state, results, buckets, openSince := Closed, [], [], 0;
      InvalidateAttempts();
    }

    method CheckAndResetOnVersionChange(version: int) returns (changed: bool)
      modifies this
      ensures Snapshot() == VersionCheck(old(Snapshot()), version)
      ensures changed == (old(policyVersion) != 0 && old(policyVersion) != version)
    {
      if policyVersion == 0 {
        policyVersion := version;
        return false;
      }
      if policyVersion != version {
        ResetEntry();
        policyVersion := version;
        return true;
      }
      return false;
    }

    method AcquirePermit(enableActive: bool, now: int) returns (allowed: bool, token: nat)
      modifies this
      ensures (Snapshot(), allowed, token) == Acquire(old(Snapshot()), enableActive, now)
    {
      ComputeState(now);
      allowed := state == Closed || (state == HalfOpen && !enableActive && activeCalls < 1);
      token := 0;
      if allowed && state == HalfOpen {
        nextToken := nextToken + 1;
        token := nextToken;
        permitToken := token;
        activeCalls := activeCalls + 1;
      }
    }

    method ReleasePermit(epoch: nat, token: nat)
      modifies this
      ensures Snapshot() == ReturnPermit(old(Snapshot()), epoch, token)
    {
      if token != 0 && attemptEpoch == epoch && permitToken == token {
        activeCalls := activeCalls - 1;
        permitToken := 0;
      }
    }

    method TryAcquireHalfOpenPermit(enableActive: bool) returns (ok: bool)
      modifies this
      ensures (Snapshot(), ok) == LegacyAcquire(old(Snapshot()), enableActive)
    {
      if state != HalfOpen {
        return state == Closed;
      }
      if enableActive {
        return false;
      }
      if activeCalls < 1 {
        activeCalls := activeCalls + 1;
        return true;
      }
      return false;
    }

    method ReleaseHalfOpenPermit()
      modifies this
      ensures Snapshot() == LegacyReturn(old(Snapshot()))
    {
      if state == HalfOpen && activeCalls > 0 && permitToken == 0 {
        activeCalls := activeCalls - 1;
      }
    }
  }
}
