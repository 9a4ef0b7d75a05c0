/** The lease protocol over many breakers. Every body that runs under one entry
    mutex is one atomic step; a run is any sequence of steps, so all interleavings
    of leases, un-tokened callers, resets, version changes and polls are covered.
    No clock assumption is made: `now` is arbitrary in every step. */
module BreakerLeases {
  import opened Breaker
  import opened Search

  datatype Permit = Permit(key: string, epoch: nat, token: nat, version: int)

  /** Releasing(done): the release loop has handled the first `done` permits. */
  datatype Phase = Acquiring | Active | Recording | Releasing(done: nat) | Ended

  datatype Lease = Lease(keys: seq<string>, permits: seq<Permit>, phase: Phase)

  datatype System = System(entries: map<string, Entry>, leases: seq<Lease>)

  datatype Step =
    | Begin(keys: seq<string>)
    | AcquireNext(lease: nat, enableActive: bool, now: int)
    | StartOutcome(lease: nat)
    | RecordOutcome(lease: nat, key: string, version: int, ok: bool, now: int, settings: Settings)
    | StartRelease(lease: nat)
    | ReleaseNext(lease: nat)
    | LegacyAcquirePermit(key: string, enableActive: bool)
    | LegacyReleasePermit(key: string)
    | LegacyRecord(key: string, ok: bool, now: int, settings: Settings)
    | CheckVersion(key: string, version: int)
    | ResetBreaker(key: string)
    | Poll(key: string, now: int)

  function EntryAt(s: System, key: string): Entry {
    if key in s.entries then s.entries[key] else Fresh
  }

  function SetEntry(s: System, key: string, e: Entry): System {
    s.(entries := s.entries[key := e])
  }

  function SetLease(s: System, l: nat, lease: Lease): System
    requires l < |s.leases|
  {
    s.(leases := s.leases[l := lease])
  }

  /** The permit recordOutcome uses for a key: the first one taken on it. */
  function FirstPermit(permits: seq<Permit>, key: string): (j: nat)
    ensures j <= |permits|
    ensures j < |permits| ==> permits[j].key == key
    ensures forall i :: 0 <= i < j ==> permits[i].key != key
  {
    FirstAt(permits, (p: Permit) => p.key == key)
  }

  function DoAcquire(s: System, l: nat, enableActive: bool, now: int): System
    requires l < |s.leases| && |s.leases[l].permits| < |s.leases[l].keys|
  {
    var lease := s.leases[l];
    var key := lease.keys[|lease.permits|];
    var (e, allowed, token) := Acquire(EntryAt(s, key), enableActive, now);
    var s := SetEntry(s, key, e);
    if !allowed then SetLease(s, l, lease.(phase := Releasing(0)))
    else
      var permits := lease.permits + [Permit(key, e.epoch, token, e.version)];
      SetLease(s, l, Lease(lease.keys, permits, if |permits| == |lease.keys| then Active else Acquiring))
  }

  /** One pass of recordOutcome's inner loop for a lease. A version change resets the
      breaker and ends the step; recording then needs a further step. */
  function DoRecord(s: System, l: nat, j: nat, version: int, ok: bool, now: int, settings: Settings): System
    requires l < |s.leases| && j < |s.leases[l].permits|
  {
    var lease := s.leases[l];
    var p := lease.permits[j];
    var e := EntryAt(s, p.key);
    if e.epoch != p.epoch || e.version != p.version then s
    else
      var checked := VersionCheck(e, version);
      var e' := if e.version != 0 && e.version != version then checked else Record(checked, ok, now, settings);
      var p' := if e'.epoch == p.epoch then p.(version := e'.version) else Permit(p.key, e'.epoch, 0, e'.version);
      SetLease(SetEntry(s, p.key, e'), l, lease.(permits := lease.permits[j := p']))
  }

  function DoRelease(s: System, l: nat): System
    requires l < |s.leases| && s.leases[l].phase.Releasing?
  {
    var lease := s.leases[l];
    var d := lease.phase.done;
    if d >= |lease.permits| then SetLease(s, l, lease.(phase := Ended))
    else
      var p := lease.permits[d];
      SetLease(SetEntry(s, p.key, ReturnPermit(EntryAt(s, p.key), p.epoch, p.token)), l,
               lease.(phase := Releasing(d + 1)))
  }

  /** A step that is not enabled leaves the system as it is. */
  function Apply(s: System, step: Step): System {
    match step
    case Begin(keys) =>
      s.(leases := s.leases + [Lease(keys, [], if keys == [] then Active else Acquiring)])
    case AcquireNext(l, enableActive, now) =>
      if l < |s.leases| && s.leases[l].phase == Acquiring && |s.leases[l].permits| < |s.leases[l].keys|
      then DoAcquire(s, l, enableActive, now) else s
    case StartOutcome(l) =>
      if l < |s.leases| && s.leases[l].phase == Active
      then SetLease(s, l, s.leases[l].(phase := Recording)) else s
    case RecordOutcome(l, key, version, ok, now, settings) =>
      if l < |s.leases| && s.leases[l].phase == Recording
         && FirstPermit(s.leases[l].permits, key) < |s.leases[l].permits|
      then DoRecord(s, l, FirstPermit(s.leases[l].permits, key), version, ok, now, settings) else s
    case StartRelease(l) =>
      if l < |s.leases| && (s.leases[l].phase == Active || s.leases[l].phase == Recording)
      then SetLease(s, l, s.leases[l].(phase := Releasing(0))) else s
    case ReleaseNext(l) =>
      if l < |s.leases| && s.leases[l].phase.Releasing? then DoRelease(s, l) else s
    case LegacyAcquirePermit(key, enableActive) =>
      if key in s.entries then SetEntry(s, key, LegacyAcquire(s.entries[key], enableActive).0) else s
    case LegacyReleasePermit(key) =>
      if key in s.entries then SetEntry(s, key, LegacyReturn(s.entries[key])) else s
    case LegacyRecord(key, ok, now, settings) =>
      SetEntry(s, key, Record(LegacyReturn(EntryAt(s, key)), ok, now, settings))
    case CheckVersion(key, version) => SetEntry(s, key, VersionCheck(EntryAt(s, key), version))
    case ResetBreaker(key) => SetEntry(s, key, Reset(EntryAt(s, key)))
    case Poll(key, now) =>
      if key in s.entries then SetEntry(s, key, Compute(s.entries[key], now)) else s
  }

  function Run(s: System, steps: seq<Step>): System
    decreases |steps|
  {
    if steps == [] then s else Apply(Run(s, steps[..|steps| - 1]), steps[|steps| - 1])
  }

  const Initial := System(map[], [])

  // ----- The invariant -----

  ghost predicate EntryOk(e: Entry) {
    && 0 <= e.activeCalls <= 1
    && (e.permitToken != 0 ==> e.activeCalls == 1 && e.permitToken <= e.nextToken)
    && (e.state != HalfOpen ==> e.activeCalls == 0)
  }

  /** Lease l still has permit j to return. */
  ghost predicate Holds(lease: Lease, j: nat) {
    && j < |lease.permits|
    && lease.phase != Ended
    && (lease.phase.Releasing? ==> lease.phase.done <= j)
  }

  /** Permit j of lease l is the one its breaker waits for. */
  ghost predicate Owns(s: System, l: nat, j: nat, key: string) {
    && l < |s.leases| && Holds(s.leases[l], j) && key in s.entries
    && var p := s.leases[l].permits[j];
       p.key == key && p.token != 0 && p.token == s.entries[key].permitToken && p.epoch == s.entries[key].epoch
  }

  ghost predicate Owned(s: System, key: string) {
    exists l: nat, j: nat :: Owns(s, l, j, key)
  }

  ghost predicate PermitOk(s: System, p: Permit) {
    p.key in s.entries && p.token <= s.entries[p.key].nextToken && p.epoch <= s.entries[p.key].epoch
  }

  /** A permit was taken somewhere in the history of lease l. */
  ghost predicate Taken(s: System, l: nat, j: nat) {
    l < |s.leases| && j < |s.leases[l].permits|
  }

  ghost predicate Inv(s: System) {
    && (forall key :: key in s.entries ==> EntryOk(s.entries[key]))
    && (forall l: nat, j: nat :: Taken(s, l, j) ==> PermitOk(s, s.leases[l].permits[j]))
    && (forall l: nat, j: nat, l': nat, j': nat :: Taken(s, l, j) && Taken(s, l', j') ==>
          SamePermit(s.leases[l].permits[j], s.leases[l'].permits[j']) ==> l == l' && j == j')
    && (forall key :: key in s.entries && s.entries[key].permitToken != 0 ==> Owned(s, key))
  }

  /** Two records of one and the same probe permit. */
  ghost predicate SamePermit(p: Permit, q: Permit) {
    p.key == q.key && p.token == q.token && p.token != 0
  }

  // ----- What the entry operations do to permits -----

  /** e' follows e without handing out a permit: either the outstanding token is
      untouched, or it is void (and then a new epoch has begun, or it was returned). */
  ghost predicate Evolves(e: Entry, e': Entry) {
    && EntryOk(e') && e'.nextToken == e.nextToken && e'.epoch >= e.epoch
    && ((e'.permitToken == e.permitToken && e'.epoch == e.epoch) || e'.permitToken == 0)
  }

  /** No caller without the token can free it: it survives unless the epoch moves on. */
  ghost predicate Guards(e: Entry, e': Entry) {
    e.permitToken != 0 ==>
      (e'.permitToken == e.permitToken && e'.activeCalls == e.activeCalls && e'.epoch == e.epoch) || e'.epoch > e.epoch
  }

  lemma {:induction false} ComputeEvolves(e: Entry, now: int)
    requires EntryOk(e)
    ensures Evolves(e, Compute(e, now)) && Guards(e, Compute(e, now))
    ensures Compute(e, now).epoch == e.epoch ==>
              Compute(e, now).activeCalls == e.activeCalls && Compute(e, now).permitToken == e.permitToken
    ensures Compute(e, now).epoch != e.epoch ==> Compute(e, now).activeCalls == 0
  {}

  lemma {:induction false} AppendKeepsPermits(e: Entry, ok: bool, now: int)
    requires EntryOk(e)
    ensures EntryOk(Append(e, ok, now)) && Evolves(e, Append(e, ok, now)) && Guards(e, Append(e, ok, now))
    ensures Append(e, ok, now).epoch == e.epoch && Append(e, ok, now).activeCalls == e.activeCalls
    ensures Append(e, ok, now).permitToken == e.permitToken
  {}

  lemma {:induction false} RecordEvolves(e: Entry, ok: bool, now: int, raw: Settings)
    requires EntryOk(e)
    ensures Evolves(e, Record(e, ok, now, raw)) && Guards(e, Record(e, ok, now, raw))
    ensures Record(e, ok, now, raw).epoch == e.epoch ==>
              Record(e, ok, now, raw).activeCalls == e.activeCalls
              && Record(e, ok, now, raw).permitToken == e.permitToken
    ensures Record(e, ok, now, raw).epoch != e.epoch ==> Record(e, ok, now, raw).activeCalls == 0
  {
    hide Compute, Append;
    var e0 := e.(cfg := Normalize(raw));
    var e1 := Compute(e0, now);
    var e2 := Append(e1, ok, now);
    ComputeEvolves(e0, now);
    AppendKeepsPermits(e1, ok, now);
    ComputeEvolves(e2, now);
  }

  lemma {:induction false} EntryStepsEvolve(e: Entry, version: int, enableActive: bool)
    requires EntryOk(e)
    ensures Evolves(e, Reset(e)) && Guards(e, Reset(e))
    ensures Evolves(e, VersionCheck(e, version)) && Guards(e, VersionCheck(e, version))
    ensures Evolves(e, LegacyReturn(e)) && Guards(e, LegacyReturn(e))
    ensures Evolves(e, LegacyAcquire(e, enableActive).0) && Guards(e, LegacyAcquire(e, enableActive).0)
  {}

  lemma {:induction false} LegacyRecordEvolves(e: Entry, ok: bool, now: int, raw: Settings)
    requires EntryOk(e)
    ensures Evolves(e, Record(LegacyReturn(e), ok, now, raw)) && Guards(e, Record(LegacyReturn(e), ok, now, raw))
  {
    EntryStepsEvolve(e, 0, false);
    RecordEvolves(LegacyReturn(e), ok, now, raw);
  }

  lemma {:induction false} RecordOutcomeEvolves(e: Entry, version: int, ok: bool, now: int, raw: Settings)
    requires EntryOk(e)
    ensures Evolves(e, VersionCheck(e, version))
    ensures Evolves(e, Record(VersionCheck(e, version), ok, now, raw))
    ensures Guards(e, Record(VersionCheck(e, version), ok, now, raw))
    ensures Record(VersionCheck(e, version), ok, now, raw).epoch == e.epoch ==>
              Record(VersionCheck(e, version), ok, now, raw).permitToken == e.permitToken
  {
    hide Record;
    EntryStepsEvolve(e, version, false);
    RecordEvolves(VersionCheck(e, version), ok, now, raw);
  }

  // ----- The invariant is kept by every step -----

  lemma {:induction false} EntryStepKeeps(s: System, key: string, e': Entry)
    requires Inv(s) && Evolves(EntryAt(s, key), e')
    ensures Inv(SetEntry(s, key, e'))
  {
    var s' := SetEntry(s, key, e');
    forall k | k in s'.entries && s'.entries[k].permitToken != 0
      ensures Owned(s', k)
    {
      assert k in s.entries && s.entries[k].permitToken == s'.entries[k].permitToken;
      var l: nat, j: nat :| Owns(s, l, j, k);
      assert Owns(s', l, j, k);
    }
    forall l: nat, j: nat | Taken(s', l, j)
      ensures PermitOk(s', s'.leases[l].permits[j])
    {
      assert Taken(s, l, j);
    }
    forall l: nat, j: nat, l': nat, j': nat | Taken(s', l, j) && Taken(s', l', j')
      ensures SamePermit(s'.leases[l].permits[j], s'.leases[l'].permits[j']) ==> l == l' && j == j'
    {
      assert Taken(s, l, j) && Taken(s, l', j');
    }
  }

  /** Moving a lease to another phase is safe if the lease keeps what it owns. */
  lemma {:induction false} PhaseStepKeeps(s: System, l: nat, phase: Phase)
    requires Inv(s) && l < |s.leases|
    requires forall j: nat, key :: Owns(s, l, j, key) ==> Holds(s.leases[l].(phase := phase), j)
    ensures Inv(SetLease(s, l, s.leases[l].(phase := phase)))
  {
    var s' := SetLease(s, l, s.leases[l].(phase := phase));
    forall k | k in s'.entries && s'.entries[k].permitToken != 0
      ensures Owned(s', k)
    {
      var m: nat, j: nat :| Owns(s, m, j, k);
      assert Owns(s', m, j, k);
    }
    forall l: nat, j: nat | Taken(s', l, j)
      ensures PermitOk(s', s'.leases[l].permits[j])
    {
      assert Taken(s, l, j);
    }
    forall l: nat, j: nat, l': nat, j': nat | Taken(s', l, j) && Taken(s', l', j')
      ensures SamePermit(s'.leases[l].permits[j], s'.leases[l'].permits[j']) ==> l == l' && j == j'
    {
      assert Taken(s, l, j) && Taken(s, l', j');
    }
  }

  /** Rewriting a permit after a recorded outcome keeps or drops its token. */
  lemma {:induction false} PermitUpdateKeeps(s: System, l: nat, j: nat, p: Permit)
    requires Inv(s) && Taken(s, l, j) && PermitOk(s, p)
    requires var q := s.leases[l].permits[j]; p.key == q.key && (p.token == q.token || p.token == 0)
    requires forall key :: Owns(s, l, j, key) ==>
             p.token == s.leases[l].permits[j].token && p.epoch == s.leases[l].permits[j].epoch
    ensures Inv(SetLease(s, l, s.leases[l].(permits := s.leases[l].permits[j := p])))
  {
    var s' := SetLease(s, l, s.leases[l].(permits := s.leases[l].permits[j := p]));
    forall k | k in s'.entries && s'.entries[k].permitToken != 0
      ensures Owned(s', k)
    {
      var m: nat, i: nat :| Owns(s, m, i, k);
      assert Owns(s', m, i, k);
    }
    forall m: nat, i: nat | Taken(s', m, i)
      ensures PermitOk(s', s'.leases[m].permits[i])
    {
      assert Taken(s, m, i);
    }
    forall m: nat, i: nat, m': nat, i': nat | Taken(s', m, i) && Taken(s', m', i')
      ensures SamePermit(s'.leases[m].permits[i], s'.leases[m'].permits[i']) ==> m == m' && i == i'
    {
      assert Taken(s, m, i) && Taken(s, m', i');
    }
  }

  /** Adding a permit; `granted` is its breaker's entry after the acquisition. */
  lemma {:induction false} GrantKeeps(s: System, l: nat, granted: Entry, p: Permit, phase: Phase)
    requires Inv(s) && l < |s.leases| && p.key in s.entries
    requires s.leases[l].phase == Acquiring && (phase == Acquiring || phase == Active)
    requires EntryOk(granted) && granted.epoch == s.entries[p.key].epoch == p.epoch
    requires granted.nextToken >= s.entries[p.key].nextToken
    requires if p.token == 0 then granted == s.entries[p.key]
             else p.token == granted.permitToken == granted.nextToken > s.entries[p.key].nextToken
    ensures Inv(SetLease(SetEntry(s, p.key, granted), l,
                         Lease(s.leases[l].keys, s.leases[l].permits + [p], phase)))
  {
    var n := |s.leases[l].permits|;
    var s' := SetLease(SetEntry(s, p.key, granted), l, Lease(s.leases[l].keys, s.leases[l].permits + [p], phase));
    forall k | k in s'.entries && s'.entries[k].permitToken != 0
      ensures Owned(s', k)
    {
      if k == p.key && p.token != 0 {
        assert Owns(s', l, n, k);
      } else {
        var m: nat, i: nat :| Owns(s, m, i, k);
        assert Owns(s', m, i, k);
      }
    }
    forall m: nat, i: nat | Taken(s', m, i)
      ensures PermitOk(s', s'.leases[m].permits[i])
    {
      assert (m == l && i == n) || Taken(s, m, i);
    }
    forall m: nat, i: nat, m': nat, i': nat | Taken(s', m, i) && Taken(s', m', i')
      ensures SamePermit(s'.leases[m].permits[i], s'.leases[m'].permits[i']) ==> m == m' && i == i'
    {
      assert (m == l && i == n) || Taken(s, m, i);
      assert (m' == l && i' == n) || Taken(s, m', i');
    }
  }

  lemma {:induction false} BeginKeeps(s: System, keys: seq<string>)
    requires Inv(s)
    ensures Inv(Apply(s, Begin(keys)))
  {
    var s' := Apply(s, Begin(keys));
    forall k | k in s'.entries && s'.entries[k].permitToken != 0
      ensures Owned(s', k)
    {
      var m: nat, i: nat :| Owns(s, m, i, k);
      assert Owns(s', m, i, k);
    }
    forall m: nat, i: nat | Taken(s', m, i)
      ensures PermitOk(s', s'.leases[m].permits[i])
    {
      assert Taken(s, m, i);
    }
    forall m: nat, i: nat, m': nat, i': nat | Taken(s', m, i) && Taken(s', m', i')
      ensures SamePermit(s'.leases[m].permits[i], s'.leases[m'].permits[i']) ==> m == m' && i == i'
    {
      assert Taken(s, m, i) && Taken(s, m', i');
    }
  }

  lemma {:induction false} EntryAtOk(s: System, key: string)
    requires Inv(s)
    ensures EntryOk(EntryAt(s, key))
  {}

  /** A refused acquisition turns the lease to releasing what it took before. */
  lemma {:induction false} RefusalKeeps(s: System, l: nat)
    requires Inv(s) && l < |s.leases| && s.leases[l].phase == Acquiring
    ensures Inv(SetLease(s, l, s.leases[l].(phase := Releasing(0))))
  {
    PhaseStepKeeps(s, l, Releasing(0));
  }

  lemma {:induction false} AcquireKeeps(s: System, l: nat, enableActive: bool, now: int)
    requires Inv(s) && l < |s.leases| && s.leases[l].phase == Acquiring
    requires |s.leases[l].permits| < |s.leases[l].keys|
    ensures Inv(DoAcquire(s, l, enableActive, now))
  {
    hide Compute, Inv;
    var lease := s.leases[l];
    var key := lease.keys[|lease.permits|];
    var e := EntryAt(s, key);
    var computed := Compute(e, now);
    var (granted, allowed, token) := Acquire(e, enableActive, now);
    EntryAtOk(s, key);
    ComputeEvolves(e, now);
    EntryStepKeeps(s, key, computed);
    var s1 := SetEntry(s, key, computed);
    if !allowed {
      RefusalKeeps(s1, l);
    } else {
      var permits := lease.permits + [Permit(key, granted.epoch, token, granted.version)];
      GrantKeeps(s1, l, granted, permits[|lease.permits|], if |permits| == |lease.keys| then Active else Acquiring);
      assert SetEntry(s1, key, granted) == SetEntry(s, key, granted);
    }
  }

  lemma {:induction false} RecordKeeps(s: System, l: nat, j: nat, version: int, ok: bool, now: int, settings: Settings)
    requires Inv(s) && Taken(s, l, j)
    ensures Inv(DoRecord(s, l, j, version, ok, now, settings))
  {
    hide Record;
    var lease := s.leases[l];
    var p := lease.permits[j];
    var e := EntryAt(s, p.key);
    if e.epoch == p.epoch && e.version == p.version {
      var checked := VersionCheck(e, version);
      var e' := if e.version != 0 && e.version != version then checked else Record(checked, ok, now, settings);
      assert PermitOk(s, p);
      RecordOutcomeEvolves(e, version, ok, now, settings);
      EntryStepKeeps(s, p.key, e');
      var p' := if e'.epoch == p.epoch then p.(version := e'.version) else Permit(p.key, e'.epoch, 0, e'.version);
      PermitUpdateKeeps(SetEntry(s, p.key, e'), l, j, p');
    }
  }

  lemma {:induction false} ReleaseKeeps(s: System, l: nat)
    requires Inv(s) && l < |s.leases| && s.leases[l].phase.Releasing?
    ensures Inv(DoRelease(s, l))
  {
    var lease := s.leases[l];
    var d := lease.phase.done;
    if d >= |lease.permits| {
      hide Inv;
      PhaseStepKeeps(s, l, Ended);
    } else {
      ReturnKeeps(s, l, d);
    }
  }

  lemma {:induction false} ReturnKeeps(s: System, l: nat, d: nat)
    requires Inv(s) && l < |s.leases| && s.leases[l].phase == Releasing(d) && d < |s.leases[l].permits|
    ensures Inv(DoRelease(s, l))
  {
    var p := s.leases[l].permits[d];
    var s1 := SetEntry(s, p.key, ReturnPermit(EntryAt(s, p.key), p.epoch, p.token));
    assert Taken(s, l, d);
    PermitReturns(s, p);
    Returned(s, l, d);
    hide Inv, Owns, Holds, ReturnPermit, EntryAt;
    PhaseStepKeeps(s1, l, Releasing(d + 1));
  }

  lemma {:induction false} PermitReturns(s: System, p: Permit)
    requires Inv(s) && PermitOk(s, p)
    ensures Inv(SetEntry(s, p.key, ReturnPermit(EntryAt(s, p.key), p.epoch, p.token)))
  {
    var e := s.entries[p.key];
    assert EntryOk(e);
    hide Inv;
    EntryStepKeeps(s, p.key, ReturnPermit(e, p.epoch, p.token));
  }

  /** A permit that has been returned is not owned any more. */
  lemma {:induction false} Returned(s: System, l: nat, d: nat)
    requires l < |s.leases| && s.leases[l].phase == Releasing(d) && d < |s.leases[l].permits|
    ensures var p := s.leases[l].permits[d];
            var s1 := SetEntry(s, p.key, ReturnPermit(EntryAt(s, p.key), p.epoch, p.token));
            forall j: nat, key :: Owns(s1, l, j, key) ==> Holds(s.leases[l].(phase := Releasing(d + 1)), j)
  {}

  lemma {:induction false} StepKeepsInv(s: System, step: Step)
    requires Inv(s)
    ensures Inv(Apply(s, step))
  {
    match step
    case Begin(keys) => BeginKeeps(s, keys);
    case AcquireNext(l, enableActive, now) =>
      if Apply(s, step) != s { AcquireKeeps(s, l, enableActive, now); }
    case StartOutcome(l) =>
      if Apply(s, step) != s { PhaseStepKeeps(s, l, Recording); }
    case RecordOutcome(l, key, version, ok, now, settings) =>
      if Apply(s, step) != s {
        RecordKeeps(s, l, FirstPermit(s.leases[l].permits, key), version, ok, now, settings);
      }
    case StartRelease(l) =>
      if Apply(s, step) != s { PhaseStepKeeps(s, l, Releasing(0)); }
    case ReleaseNext(l) =>
      if Apply(s, step) != s { ReleaseKeeps(s, l); }
    case _ => BystanderKeeps(s, step);
  }

  /** The breaker a step of an un-tokened caller, a reset or a poll works on. */
  ghost predicate IsBystander(step: Step) {
    step.LegacyAcquirePermit? || step.LegacyReleasePermit? || step.LegacyRecord? || step.CheckVersion?
    || step.ResetBreaker? || step.Poll?
  }

  lemma {:induction false} BystanderEvolves(s: System, step: Step)
    requires Inv(s) && IsBystander(step)
    ensures Apply(s, step).leases == s.leases
    ensures Apply(s, step) == s || (step.key in Apply(s, step).entries
              && Apply(s, step) == SetEntry(s, step.key, Apply(s, step).entries[step.key])
              && Evolves(EntryAt(s, step.key), Apply(s, step).entries[step.key])
              && Guards(EntryAt(s, step.key), Apply(s, step).entries[step.key]))
  {
    hide Compute, Record;
    var e := EntryAt(s, step.key);
    assert EntryOk(e);
    match step
    case LegacyRecord(key, ok, now, settings) => LegacyRecordEvolves(e, ok, now, settings);
    case CheckVersion(key, version) => EntryStepsEvolve(e, version, false);
    case LegacyAcquirePermit(key, enableActive) => EntryStepsEvolve(e, 0, enableActive);
    case Poll(key, now) => ComputeEvolves(e, now);
    case _ => EntryStepsEvolve(e, 0, false);
  }

  lemma {:induction false} BystanderKeeps(s: System, step: Step)
    requires Inv(s) && IsBystander(step)
    ensures Inv(Apply(s, step))
  {
    BystanderEvolves(s, step);
    if Apply(s, step) != s {
      EntryStepKeeps(s, step.key, Apply(s, step).entries[step.key]);
    }
  }

  lemma {:induction false} RunKeepsInv(steps: seq<Step>)
    ensures Inv(Run(Initial, steps))
    decreases |steps|
  {
    if steps != [] {
      RunKeepsInv(steps[..|steps| - 1]);
      StepKeepsInv(Run(Initial, steps[..|steps| - 1]), steps[|steps| - 1]);
    }
  }

  // ----- What the protocol promises -----

  /** In every reachable state each breaker has at most one probe in flight, a tokened
      probe exists only in the half-open state, and exactly one un-ended lease owns it. */
  lemma {:induction false} AtMostOneProbe(steps: seq<Step>, key: string)
    requires key in Run(Initial, steps).entries
    ensures 0 <= Run(Initial, steps).entries[key].activeCalls <= 1
    ensures Run(Initial, steps).entries[key].permitToken != 0 ==>
              && Run(Initial, steps).entries[key].activeCalls == 1
              && Run(Initial, steps).entries[key].state == HalfOpen
              && exists l: nat, j: nat :: Owns(Run(Initial, steps), l, j, key)
                   && (forall l': nat, j': nat :: Owns(Run(Initial, steps), l', j', key) ==> l' == l && j' == j)
  {
    var s := Run(Initial, steps);
    RunKeepsInv(steps);
    if s.entries[key].permitToken != 0 {
      assert Owned(s, key);
      var l: nat, j: nat :| Owns(s, l, j, key);
      forall l': nat, j': nat | Owns(s, l', j', key)
        ensures l' == l && j' == j
      {
        assert Taken(s, l, j) && Taken(s, l', j');
        assert SamePermit(s.leases[l].permits[j], s.leases[l'].permits[j']);
      }
    }
  }

  /** An ended lease (finished, cancelled, or rolled back after its second breaker
      refused) has nothing outstanding on any breaker. */
  lemma {:induction false} EndedLeaseHoldsNothing(steps: seq<Step>, l: nat, j: nat)
    requires Taken(Run(Initial, steps), l, j) && Run(Initial, steps).leases[l].phase == Ended
    ensures var s := Run(Initial, steps); var p := s.leases[l].permits[j];
            p.key in s.entries
            && !(p.token != 0 && s.entries[p.key].permitToken == p.token)
  {
    var s := Run(Initial, steps);
    RunKeepsInv(steps);
    var p := s.leases[l].permits[j];
    if p.token != 0 && s.entries[p.key].permitToken == p.token {
      assert Owned(s, p.key);
      var m: nat, i: nat :| Owns(s, m, i, p.key);
      assert Taken(s, m, i) && SamePermit(s.leases[m].permits[i], p);
      assert false;
    }
  }

  /** Only the owner's own release frees a probe permit: after any other step the
      permit is still outstanding and still owned, or its whole epoch is over. */
  lemma {:induction false} OnlyOwnerReturnsPermit(s: System, step: Step, l: nat, j: nat, key: string)
    requires Inv(s) && Owns(s, l, j, key) && step != ReleaseNext(l)
    ensures var s' := Apply(s, step);
            key in s'.entries
            && (s'.entries[key].epoch > s.entries[key].epoch
                || (Owns(s', l, j, key) && s'.entries[key].permitToken == s.entries[key].permitToken
                    && s'.entries[key].activeCalls == 1))
  {
    assert Taken(s, l, j);
    match step
    case AcquireNext(m, enableActive, now) => AcquireSparesOwner(s, step, l, j, key);
    case RecordOutcome(m, k, version, ok, now, settings) => RecordSparesOwner(s, step, l, j, key);
    case ReleaseNext(m) => ReleaseSparesOwner(s, m, l, j, key);
    case Begin(keys) =>
    case StartOutcome(m) =>
    case StartRelease(m) =>
    case _ =>
      BystanderEvolves(s, step);
  }

  lemma {:induction false} AcquireSparesOwner(s: System, step: Step, l: nat, j: nat, key: string)
    requires Inv(s) && Owns(s, l, j, key) && step.AcquireNext?
    ensures var s' := Apply(s, step);
            key in s'.entries
            && (s'.entries[key].epoch > s.entries[key].epoch
                || (Owns(s', l, j, key) && s'.entries[key].permitToken == s.entries[key].permitToken
                    && s'.entries[key].activeCalls == 1))
  {
    hide Compute;
    var m := step.lease;
    if m < |s.leases| && s.leases[m].phase == Acquiring && |s.leases[m].permits| < |s.leases[m].keys| {
      var k := s.leases[m].keys[|s.leases[m].permits|];
      ComputeEvolves(EntryAt(s, k), step.now);
    }
  }

  lemma {:induction false} RecordSparesOwner(s: System, step: Step, l: nat, j: nat, key: string)
    requires Inv(s) && Owns(s, l, j, key) && step.RecordOutcome?
    ensures var s' := Apply(s, step);
            key in s'.entries
            && (s'.entries[key].epoch > s.entries[key].epoch
                || (Owns(s', l, j, key) && s'.entries[key].permitToken == s.entries[key].permitToken
                    && s'.entries[key].activeCalls == 1))
  {
    hide Compute, Record;
    var m := step.lease;
    if m < |s.leases| && s.leases[m].phase == Recording
       && FirstPermit(s.leases[m].permits, step.key) < |s.leases[m].permits| {
      var i := FirstPermit(s.leases[m].permits, step.key);
      var e := EntryAt(s, s.leases[m].permits[i].key);
      assert Taken(s, m, i) && PermitOk(s, s.leases[m].permits[i]) && EntryOk(s.entries[key]);
      hide Inv, VersionCheck, FirstPermit;
      RecordOutcomeEvolves(e, step.version, step.ok, step.now, step.settings);
    }
  }

  lemma {:induction false} ReleaseSparesOwner(s: System, m: nat, l: nat, j: nat, key: string)
    requires Inv(s) && Owns(s, l, j, key) && m != l
    ensures var s' := Apply(s, ReleaseNext(m));
            key in s'.entries && Owns(s', l, j, key)
            && s'.entries[key].permitToken == s.entries[key].permitToken && s'.entries[key].activeCalls == 1
  {
    if m < |s.leases| && s.leases[m].phase.Releasing? && s.leases[m].phase.done < |s.leases[m].permits| {
      var p := s.leases[m].permits[s.leases[m].phase.done];
      assert Taken(s, m, s.leases[m].phase.done) && Taken(s, l, j);
      assert !SamePermit(p, s.leases[l].permits[j]);
    }
  }

  // ----- When a lease is admitted -----

  /** The lease has a further breaker to ask. */
  predicate Asks(s: System, l: nat) {
    l < |s.leases| && s.leases[l].phase == Acquiring && |s.leases[l].permits| < |s.leases[l].keys|
  }

  function AskedKey(s: System, l: nat): string
    requires Asks(s, l)
  {
    s.leases[l].keys[|s.leases[l].permits|]
  }

  /** The lease got a permit of its breaker as that is after the step: in the half-open state
      the one probe there is, otherwise one without a token. */
  ghost predicate Admitted(s: System, s': System, l: nat)
    requires Asks(s, l) && AskedKey(s, l) in s'.entries
  {
    var lease, e := s.leases[l], s'.entries[AskedKey(s, l)];
    var token := if e.state == HalfOpen then e.permitToken else 0;
    var permits := lease.permits + [Permit(AskedKey(s, l), e.epoch, token, e.version)];
    && s'.leases == s.leases[l := Lease(lease.keys, permits, if |permits| == |lease.keys| then Active else Acquiring)]
    && (e.state == HalfOpen ==> token != 0 && e.activeCalls == 1)
  }

  /** The lease gives up and goes on to return what it has. */
  ghost predicate TurnedAway(s: System, s': System, l: nat)
    requires Asks(s, l)
  {
    s'.leases == s.leases[l := s.leases[l].(phase := Releasing(0))]
  }

  /** In every run a lease that asks a breaker is admitted if and only if the breaker is then
      closed, or half-open with no probe in flight and without an active prober; otherwise it
      is turned away. In particular an open breaker admits nobody. */
  lemma {:induction false} AdmittedIff(steps: seq<Step>, l: nat, enableActive: bool, now: int)
    requires Asks(Run(Initial, steps), l)
    ensures var s := Run(Initial, steps); var key := AskedKey(s, l);
            var s' := Apply(s, AcquireNext(l, enableActive, now));
            && key in s'.entries
            && var e' := s'.entries[key];
               if e'.state == Closed || (e'.state == HalfOpen && !enableActive && EntryAt(s, key).activeCalls == 0)
               then Admitted(s, s', l)
               else TurnedAway(s, s', l) && e'.activeCalls <= EntryAt(s, key).activeCalls
  {
    var s := Run(Initial, steps);
    RunKeepsInv(steps);
    var e := EntryAt(s, AskedKey(s, l));
    assert EntryOk(e);
    ComputeAdmits(e, now);
    hide Compute;
  }

  lemma {:induction false} ComputeAdmits(e: Entry, now: int)
    requires EntryOk(e)
    ensures Compute(e, now).state == HalfOpen ==> Compute(e, now).activeCalls == e.activeCalls
    ensures Compute(e, now).state == Open ==> Compute(e, now).activeCalls == 0
  {}

  /** The only way to gain a permit, and never on a breaker that is open. */
  lemma {:induction false} NoPermitWhileOpen(steps: seq<Step>, step: Step, l: nat)
    requires l < |Apply(Run(Initial, steps), step).leases|
    requires var s := Run(Initial, steps); var before := if l < |s.leases| then |s.leases[l].permits| else 0;
             |Apply(s, step).leases[l].permits| > before
    ensures var s, s' := Run(Initial, steps), Apply(Run(Initial, steps), step);
            && step.AcquireNext? && step.lease == l && Asks(s, l) && Admitted(s, s', l)
            && s'.entries[AskedKey(s, l)].state != Open
  {
    hide Run, Compute, Record;
    OnlyAsking(Run(Initial, steps), step, l);
    AdmittedIff(steps, l, step.enableActive, step.now);
  }

  lemma {:induction false} OnlyAsking(s: System, step: Step, l: nat)
    requires l < |Apply(s, step).leases|
    requires |Apply(s, step).leases[l].permits| > if l < |s.leases| then |s.leases[l].permits| else 0
    ensures step.AcquireNext? && step.lease == l && Asks(s, l)
  {
    hide Compute, Record;
  }

  // ----- The lease API alone leaks nothing -----

  ghost predicate AllProbesTokened(s: System) {
    forall key :: key in s.entries ==> Tokened(s.entries[key])
  }

  ghost predicate Tokened(e: Entry) {
    e.activeCalls != 0 ==> e.permitToken != 0
  }

  lemma {:induction false} RecordOutcomeTokened(s: System, l: nat, j: nat, version: int, ok: bool, now: int,
                                                settings: Settings)
    requires Inv(s) && AllProbesTokened(s) && Taken(s, l, j)
    ensures AllProbesTokened(DoRecord(s, l, j, version, ok, now, settings))
  {
    var e := EntryAt(s, s.leases[l].permits[j].key);
    assert PermitOk(s, s.leases[l].permits[j]);
    EntryStepsEvolve(e, version, false);
    RecordTokened(VersionCheck(e, version), ok, now, settings);
  }

  lemma {:induction false} LeaseStepKeepsTokened(s: System, step: Step)
    requires Inv(s) && AllProbesTokened(s) && !step.LegacyAcquirePermit?
    ensures AllProbesTokened(Apply(s, step))
  {
    hide Compute, Record, FirstPermit, DoRecord;
    match step
    case AcquireNext(l, enableActive, now) =>
      if Apply(s, step) != s {
        ComputeEvolves(EntryAt(s, s.leases[l].keys[|s.leases[l].permits|]), now);
      }
    case RecordOutcome(l, k, version, ok, now, settings) =>
      if Apply(s, step) != s {
        RecordOutcomeTokened(s, l, FirstPermit(s.leases[l].permits, k), version, ok, now, settings);
      }
    case LegacyRecord(key, ok, now, settings) =>
      RecordTokened(LegacyReturn(EntryAt(s, key)), ok, now, settings);
    case Poll(key, now) => ComputeEvolves(EntryAt(s, key), now);
    case _ =>
  }

  lemma {:induction false} RecordTokened(e: Entry, ok: bool, now: int, raw: Settings)
    requires EntryOk(e) && Tokened(e)
    ensures Tokened(Record(e, ok, now, raw))
  {
    hide Compute, Append;
    var e0 := e.(cfg := Normalize(raw));
    ComputeEvolves(e0, now);
    AppendKeepsPermits(Compute(e0, now), ok, now);
    ComputeEvolves(Append(Compute(e0, now), ok, now), now);
  }

  lemma {:induction false} LeaseRunsAreTokened(steps: seq<Step>)
    requires forall i :: 0 <= i < |steps| ==> !steps[i].LegacyAcquirePermit?
    ensures AllProbesTokened(Run(Initial, steps))
    decreases |steps|
  {
    if steps != [] {
      var before := steps[..|steps| - 1];
      LeaseRunsAreTokened(before);
      RunKeepsInv(before);
      LeaseStepKeepsTokened(Run(Initial, before), steps[|steps| - 1]);
    }
  }

  /** Without un-tokened acquisitions, once every lease has ended no breaker counts a
      probe in flight, so no breaker can be stuck half-open on a leaked permit. */
  lemma {:induction false} LeasesLeakNothing(steps: seq<Step>, key: string)
    requires forall i :: 0 <= i < |steps| ==> !steps[i].LegacyAcquirePermit?
    requires forall l :: 0 <= l < |Run(Initial, steps).leases| ==> Run(Initial, steps).leases[l].phase == Ended
    requires key in Run(Initial, steps).entries
    ensures Run(Initial, steps).entries[key].activeCalls == 0
  {
    var s := Run(Initial, steps);
    RunKeepsInv(steps);
    LeaseRunsAreTokened(steps);
    assert Tokened(s.entries[key]);
  }
}
