/** Speculative quota charges over fixed windows: charge, roll back, record, settle.
    Counters live within one window epoch. A burst window is charged in a token bucket
    instead, so here only the bucket's answer matters; it is part of the step, as are
    the errors of the store. */
module Quota {
  import opened Options

  datatype Kind = Tokens | Cost

  datatype Window = Window(span: string, threshold: int, burst: bool)

  /** waits: the policy allows queueing for capacity (a positive maximum wait). */
  datatype Policy = Policy(kind: Kind, limitKey: string, windows: seq<Window>, waits: bool)

  /** settled holds the amount a settled reservation stands for. */
  datatype Reservation = Reservation(key: string, kind: Kind, estimate: nat, burst: bool, settled: Option<nat>)

  datatype Answer = StoreError | Answer(allowed: bool)

  function WindowKey(p: Policy, w: Window): string { p.limitKey + ":" + w.span }

  // ----- Counters -----

  type Counts = map<string, int>

  function CountAt(c: Counts, key: string): int { if key in c then c[key] else 0 }

  function Incr(c: Counts, key: string, tokens: int): Counts { c[key := CountAt(c, key) + tokens] }

  /** A refund never takes a counter below 0. */
  function Refund(c: Counts, key: string, tokens: int): Counts {
    c[key := if CountAt(c, key) - tokens < 0 then 0 else CountAt(c, key) - tokens]
  }

  // ----- What a request has charged -----

  /** Charges of windows lo..hi of a policy that went to the counter of `key`. */
  function ChargedOn(p: Policy, lo: nat, hi: nat, estimate: nat, key: string): nat
    requires hi <= |p.windows|
    decreases hi
  {
    if hi <= lo then 0
    else
      var w := p.windows[hi - 1];
      ChargedOn(p, lo, hi - 1, estimate, key) + (if !w.burst && WindowKey(p, w) == key then estimate else 0)
  }

  /** What a reservation stands for on the counter of `key`. */
  function Stands(r: Reservation, key: string): nat {
    if r.burst || r.key != key then 0 else if r.settled.Some? then r.settled.value else r.estimate
  }

  /** What the reservations stand for on the counter of `key`. */
  function ReservedOn(rs: seq<Reservation>, key: string): nat
    decreases |rs|
  {
    if rs == [] then 0 else ReservedOn(rs[..|rs| - 1], key) + Stands(rs[|rs| - 1], key)
  }

  function RecordFor(p: Policy, w: Window, estimate: nat): Reservation {
    Reservation(WindowKey(p, w), p.kind, estimate, w.burst, None)
  }

  function Records(p: Policy, n: nat, estimate: nat): seq<Reservation>
    requires n <= |p.windows|
  {
    seq(n, i requires 0 <= i < n => RecordFor(p, p.windows[i], estimate))
  }

  // ----- Small facts about sums -----

  lemma {:induction false} ReservedAppend(rs: seq<Reservation>, more: seq<Reservation>, key: string)
    ensures ReservedOn(rs + more, key) == ReservedOn(rs, key) + ReservedOn(more, key)
    decreases |more|
  {
    if more == [] {
      assert rs + more == rs;
    } else {
      assert (rs + more)[..|rs + more| - 1] == rs + more[..|more| - 1];
      ReservedAppend(rs, more[..|more| - 1], key);
    }
  }

  /** Recording turns the charges of a policy into reservations of the same total. */
  lemma {:induction false} RecordsStandForCharges(p: Policy, n: nat, estimate: nat, key: string)
    requires n <= |p.windows|
    ensures ReservedOn(Records(p, n, estimate), key) == ChargedOn(p, 0, n, estimate, key)
  {
    if n > 0 {
      assert Records(p, n, estimate)[..n - 1] == Records(p, n - 1, estimate);
      RecordsStandForCharges(p, n - 1, estimate, key);
    }
  }

  /** Dropping the first charge of a range. */
  lemma {:induction false} ChargedFirst(p: Policy, lo: nat, hi: nat, estimate: nat, key: string)
    requires lo < hi <= |p.windows|
    ensures ChargedOn(p, lo, hi, estimate, key)
            == ChargedOn(p, lo + 1, hi, estimate, key)
               + (if !p.windows[lo].burst && WindowKey(p, p.windows[lo]) == key then estimate else 0)
    decreases hi
  {
    if lo < hi - 1 { ChargedFirst(p, lo, hi - 1, estimate, key); }
  }

  lemma {:induction false} ReservedUpdate(rs: seq<Reservation>, i: nat, r: Reservation, key: string)
    requires i < |rs|
    ensures ReservedOn(rs[i := r], key) == ReservedOn(rs, key) - Stands(rs[i], key) + Stands(r, key)
    ensures ReservedOn(rs, key) >= Stands(rs[i], key)
    decreases |rs|
  {
    var n := |rs| - 1;
    if i == n {
      assert rs[i := r][..n] == rs[..n];
    } else {
      assert rs[i := r][..n] == rs[..n][i := r];
      ReservedUpdate(rs[..n], i, r, key);
    }
  }

  /** What a reservation is settled at: the usage if the call succeeded or the client
      disconnected, nothing otherwise. */
  function Actual(kind: Kind, tokens: nat, cost: nat, charged: bool): nat {
    if !charged then 0 else if kind == Tokens then tokens else cost
  }

  function Settle(r: Reservation, actual: nat): Reservation { r.(settled := Some(actual)) }

  /** The counters after one unsettled reservation is settled. */
  function SettleCounts(c: Counts, r: Reservation, actual: nat): Counts {
    var diff := actual - r.estimate;
    if r.burst || diff == 0 then c
    else if diff < 0 then Refund(c, r.key, -diff)
    else Incr(c, r.key, diff)
  }

  /** A counter that still holds the estimate moves exactly to the actual usage. */
  lemma {:induction false} SettleMoves(c: Counts, r: Reservation, actual: nat)
    requires r.settled == None && (!r.burst ==> CountAt(c, r.key) >= r.estimate)
    ensures forall key :: CountAt(SettleCounts(c, r, actual), key)
              == CountAt(c, key) - Stands(r, key) + Stands(Settle(r, actual), key)
  {}

  // ----- The limiter run without interference -----

  datatype Outcome = Charged | Limited | Failed

  ghost predicate NonNegative(c: Counts) {
    forall key :: CountAt(c, key) >= 0
  }

  ghost predicate SameCounts(c: Counts, d: Counts) {
    forall key :: CountAt(c, key) == CountAt(d, key)
  }

  /** r' is r left as it was, or r settled: a token reservation at the tokens used, a cost
      reservation at the cost, either at nothing if the call is not charged. */
  ghost predicate SettledOrKept(r: Reservation, r': Reservation, tokens: nat, cost: nat, charged: bool) {
    || r' == r
    || (&& r.settled == None && r'.settled.Some? && r' == r.(settled := r'.settled)
        && (charged && r.kind == Tokens ==> r'.settled.value == tokens)
        && (charged && r.kind == Cost ==> r'.settled.value == cost)
        && (!charged ==> r'.settled.value == 0))
  }

  lemma {:induction false} KeptOrUsed(r: Reservation, tokens: nat, cost: nat, charged: bool)
    ensures SettledOrKept(r, r, tokens, cost, charged)
    ensures r.settled == None ==>
              SettledOrKept(r, Settle(r, Actual(r.kind, tokens, cost, charged)), tokens, cost, charged)
  {}

  /** Window i lets the charge through: its bucket allows it, or its counter stays within
      the threshold with this charge and those of the earlier windows. */
  ghost predicate Passes(c: Counts, p: Policy, estimate: nat, i: nat, answer: Answer)
    requires i < |p.windows|
  {
    var w := p.windows[i];
    answer != StoreError
    && if w.burst then answer.allowed
       else CountAt(c, WindowKey(p, w)) + ChargedOn(p, 0, i + 1, estimate, WindowKey(p, w)) <= w.threshold
  }

  class Limiter {
    var counts: Counts

    constructor ()
      ensures counts == map[]
    {
      counts := map[];
    }

    /** Charges every window of a policy, or none: a refusal or a store error at any
        window leaves every counter where it was. */
    method Execute(p: Policy, estimate: nat, answers: seq<Answer>) returns (outcome: Outcome, records: seq<Reservation>)
      requires NonNegative(counts) && |answers| == |p.windows|
      modifies this
      ensures outcome != Charged ==> SameCounts(counts, old(counts)) && records == []
      ensures outcome == Charged ==>
                (forall key :: CountAt(counts, key)
                    == CountAt(old(counts), key) + ChargedOn(p, 0, |p.windows|, estimate, key))
                && records == Records(p, |p.windows|, estimate)
      ensures outcome == Charged <==>
                forall i :: 0 <= i < |p.windows| ==> Passes(old(counts), p, estimate, i, answers[i])
      ensures outcome == Failed ==> StoreError in answers
    {
      records := [];
      for i := 0 to |p.windows|
        invariant forall key :: CountAt(counts, key) == CountAt(old(counts), key) + ChargedOn(p, 0, i, estimate, key)
        invariant forall j :: 0 <= j < i ==> Passes(old(counts), p, estimate, j, answers[j])
      {
        ghost var passes := Passes(old(counts), p, estimate, i, answers[i]);
        var w := p.windows[i];
        if answers[i] == StoreError {
          assert !passes;
          Rollback(p, i, estimate, old(counts));
          return Failed, [];
        }
        if w.burst {
          if !answers[i].allowed {
            assert !passes;
            Rollback(p, i, estimate, old(counts));
            return Limited, [];
          }
        } else {
          var key := WindowKey(p, w);
          counts := Incr(counts, key, estimate);
          if counts[key] > w.threshold {
            assert !passes;
            Rollback(p, i + 1, estimate, old(counts));
            return Limited, [];
          }
        }
      }
      records := RecordReservations(p, estimate);
      outcome := Charged;
    }

    method Rollback(p: Policy, count: nat, tokens: nat, ghost base: Counts)
      requires count <= |p.windows| && NonNegative(base)
      requires forall key :: CountAt(counts, key) == CountAt(base, key) + ChargedOn(p, 0, count, tokens, key)
      modifies this
      ensures SameCounts(counts, base)
    {
      for j := 0 to count
        invariant forall key :: CountAt(counts, key) == CountAt(base, key) + ChargedOn(p, j, count, tokens, key)
      {
        forall key {
          ChargedFirst(p, j, count, tokens, key);
        }
        var w := p.windows[j];
        if !w.burst {
          counts := Refund(counts, WindowKey(p, w), tokens);
        }
      }
    }

    method RecordReservations(p: Policy, estimate: nat) returns (records: seq<Reservation>)
      ensures records == Records(p, |p.windows|, estimate)
    {
      records := [];
      for i := 0 to |p.windows|
        invariant records == Records(p, i, estimate)
      {
        records := records + [RecordFor(p, p.windows[i], estimate)];
      }
    }

    /** Moves every unsettled reservation from its estimate to the actual usage; stops at
        the first store error, and can then be called again. */
    method SettleLimits(rs: seq<Reservation>, tokens: nat, cost: nat, charged: bool, errors: seq<bool>)
      returns (rs': seq<Reservation>, ok: bool)
      requires |errors| == |rs|
      requires forall key :: CountAt(counts, key) >= ReservedOn(rs, key)
      modifies this
      ensures |rs'| == |rs|
      ensures forall key ::
                CountAt(counts, key) - CountAt(old(counts), key) == ReservedOn(rs', key) - ReservedOn(rs, key)
      ensures forall i :: 0 <= i < |rs| ==> SettledOrKept(rs[i], rs'[i], tokens, cost, charged)
      ensures if ok then forall i :: 0 <= i < |rs| ==> rs'[i].settled.Some? else true in errors
    {
      hide ReservedOn, Actual, SettledOrKept;
      rs' := rs;
      forall r: Reservation ensures SettledOrKept(r, r, tokens, cost, charged) {
        KeptOrUsed(r, tokens, cost, charged);
      }
      for i := 0 to |rs|
        invariant |rs'| == |rs| && forall j :: i <= j < |rs| ==> rs'[j] == rs[j]
        invariant forall j :: 0 <= j < i ==> rs'[j].settled.Some?
        invariant forall j :: 0 <= j < i ==> SettledOrKept(rs[j], rs'[j], tokens, cost, charged)
        invariant forall key :: CountAt(counts, key) >= ReservedOn(rs', key)
        invariant forall key ::
                    CountAt(counts, key) - CountAt(old(counts), key) == ReservedOn(rs', key) - ReservedOn(rs, key)
      {
        if rs'[i].settled == None {
          var actual := Actual(rs'[i].kind, tokens, cost, charged);
          var diff := actual - rs'[i].estimate;
          if diff != 0 && errors[i] {
            return rs', false;
          }
          forall key {
            ReservedUpdate(rs', i, Settle(rs'[i], actual), key);
          }
          SettleMoves(counts, rs'[i], actual);
          KeptOrUsed(rs'[i], tokens, cost, charged);
          if !rs'[i].burst {
            if diff < 0 {
              counts := Refund(counts, rs'[i].key, -diff);
            } else if diff > 0 {
              counts := Incr(counts, rs'[i].key, diff);
            }
          }
          rs' := rs'[i := Settle(rs'[i], actual)];
        }
      }
      ok := true;
    }
  }
}
