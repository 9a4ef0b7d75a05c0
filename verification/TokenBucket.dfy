/** The token bucket of the state store. Balances are real numbers; clocks are integers
    and need not advance. */
module TokenBucket {

  /** Unused: lastUpdated is still the zero time. */
  datatype Bucket = Unused | Bucket(tokens: real, lastUpdated: int)

  /** rate tokens per window, at most capacity stored. */
  datatype Limits = Limits(rate: int, capacity: int, window: int)

  function Min(x: real, y: real): real { if x <= y then x else y }

  /** Tokens generated in `delta` time units. */
  function Generated(lim: Limits, delta: int): real
    requires lim.window > 0
  {
    ((delta as real) / (lim.window as real)) * (lim.rate as real)
  }

  function Refill(b: Bucket, lim: Limits, now: int): (b': Bucket)
    requires lim.window > 0
    ensures b'.Bucket?
  {
    if b.Unused? then Bucket(lim.capacity as real, now)
    else if now - b.lastUpdated > 0 then
      Bucket(Min(b.tokens + Generated(lim, now - b.lastUpdated), lim.capacity as real), now)
    else b
  }

  predicate Accepts(b: Bucket, requested: int, adjustment: bool)
    requires b.Bucket?
  {
    adjustment || requested < 0 || b.tokens >= requested as real
  }

  function Apply(b: Bucket, requested: int, lim: Limits, now: int, adjustment: bool): (b': Bucket)
    requires lim.window > 0
    ensures b'.Bucket?
  {
    var r := Refill(b, lim, now);
    if Accepts(r, requested, adjustment)
    then r.(tokens := Min(r.tokens - requested as real, lim.capacity as real)) else r
  }

  class BucketEntry {
    var used: bool
    var tokens: real
    var lastUpdated: int

    constructor ()
      ensures Value() == Unused
    {
      used, tokens, lastUpdated := false, 0.0, 0;
    }

    ghost function Value(): Bucket
      reads this
    {
      if used then Bucket(tokens, lastUpdated) else Unused
    }

    method ApplyRequest(requested: int, lim: Limits, now: int, adjustment: bool) returns (ok: bool)
      requires lim.window > 0
      modifies this
      ensures Value() == Apply(old(Value()), requested, lim, now, adjustment)
      ensures ok == Accepts(Refill(old(Value()), lim, now), requested, adjustment)
    {
      var limitCap := lim.capacity as real;
      if !used {
        used, tokens, lastUpdated := true, limitCap, now;
      } else {
        var delta := now - lastUpdated;
        if delta > 0 {
          tokens := tokens + ((delta as real) / (lim.window as real)) * (lim.rate as real);
          if tokens > limitCap {
            tokens := limitCap;
          }
          lastUpdated := now;
        }
      }
      var reqFloat := requested as real;
      if adjustment || requested < 0 || tokens >= reqFloat {
        tokens := tokens - reqFloat;
        if tokens > limitCap {
          tokens := limitCap;
        }
        return true;
      }
      return false;
    }
  }

  // ----- Runs -----

  datatype Op = Op(requested: int, now: int, adjustment: bool)

  function Run(lim: Limits, ops: seq<Op>): Bucket
    requires lim.window > 0
    decreases |ops|
  {
    if ops == [] then Unused
    else
      var op := ops[|ops| - 1];
      Apply(Run(lim, ops[..|ops| - 1]), op.requested, lim, op.now, op.adjustment)
  }

  /** Tokens taken and adjusted, less tokens refunded, by the accepted operations. */
  function Net(lim: Limits, ops: seq<Op>): int
    requires lim.window > 0
    decreases |ops|
  {
    if ops == [] then 0
    else
      var before := ops[..|ops| - 1];
      var op := ops[|ops| - 1];
      Net(lim, before) + (if Accepts(Refill(Run(lim, before), lim, op.now), op.requested, op.adjustment)
          then op.requested else 0)
  }

  /** The latest clock of a run, which is the bucket's lastUpdated. */
  function Latest(ops: seq<Op>): int
    requires ops != []
    decreases |ops|
  {
    var now := ops[|ops| - 1].now;
    if |ops| == 1 then now
    else var t := Latest(ops[..|ops| - 1]); if now > t then now else t
  }

  lemma {:induction false} GeneratedAdds(lim: Limits, a: int, b: int)
    requires lim.window > 0
    ensures Generated(lim, a + b) == Generated(lim, a) + Generated(lim, b)
    ensures Generated(lim, 0) == 0.0
  {
    var w := lim.window as real;
    assert ((a + b) as real) / w == (a as real) / w + (b as real) / w;
  }

  /** The balance never exceeds the capacity, and what was used plus what is left never
      exceeds the capacity plus what time has generated: for every run of takes, refunds
      and adjustments, whatever the clocks do, and for every rate. */
  lemma {:induction false} NeverOverspends(lim: Limits, ops: seq<Op>)
    requires lim.window > 0 && ops != []
    ensures Run(lim, ops).tokens <= lim.capacity as real
    ensures Run(lim, ops).lastUpdated == Latest(ops)
    ensures Net(lim, ops) as real + Run(lim, ops).tokens
            <= lim.capacity as real + Generated(lim, Latest(ops) - ops[0].now)
    decreases |ops|
  {
    var before, op := ops[..|ops| - 1], ops[|ops| - 1];
    GeneratedAdds(lim, 0, 0);
    if before == [] {
      assert Run(lim, before) == Unused;
      assert Net(lim, before) == 0;
    } else {
      NeverOverspends(lim, before);
      assert before[0] == ops[0];
      var t := Latest(before);
      GeneratedAdds(lim, t - ops[0].now, op.now - t);
    }
  }

  ghost predicate TakesOnly(ops: seq<Op>) {
    forall i :: 0 <= i < |ops| ==> !ops[i].adjustment
  }

  lemma {:induction false} GeneratedIsPositive(lim: Limits, delta: int)
    requires lim.window > 0 && lim.rate >= 0 && delta >= 0
    ensures Generated(lim, delta) >= 0.0
  {
    assert (delta as real) / (lim.window as real) >= 0.0;
  }

  lemma {:induction false} TakesKeepBalance(lim: Limits, ops: seq<Op>)
    requires lim.window > 0 && lim.rate >= 0 && lim.capacity >= 0 && ops != [] && TakesOnly(ops)
    ensures Run(lim, ops).tokens >= 0.0
    decreases |ops|
  {
    var before, op := ops[..|ops| - 1], ops[|ops| - 1];
    if before == [] {
      assert Run(lim, before) == Unused;
    } else {
      TakesKeepBalance(lim, before);
      var b := Run(lim, before);
      if op.now > b.lastUpdated { GeneratedIsPositive(lim, op.now - b.lastUpdated); }
    }
  }

  /** Without adjustments no run drives the balance below 0, if and only if neither the
      capacity nor the rate is negative. */
  lemma {:induction false} NoDebtIff(lim: Limits)
    requires lim.window > 0
    ensures (forall ops: seq<Op> :: ops != [] && TakesOnly(ops) ==> Run(lim, ops).tokens >= 0.0)
            <==> lim.capacity >= 0 && lim.rate >= 0
  {
    if lim.capacity >= 0 && lim.rate >= 0 {
      forall ops: seq<Op> | ops != [] && TakesOnly(ops)
        ensures Run(lim, ops).tokens >= 0.0
      {
        TakesKeepBalance(lim, ops);
      }
    } else {
      DebtWitness(lim);
    }
  }

  lemma {:induction false} DebtWitness(lim: Limits)
    requires lim.window > 0 && (lim.capacity < 0 || lim.rate < 0)
    ensures exists ops: seq<Op> :: ops != [] && TakesOnly(ops) && Run(lim, ops).tokens < 0.0
  {
    var first := Op(0, 0, false);
    assert [first][..0] == [];
    assert Run(lim, []) == Unused;
    var one := Run(lim, [first]);
    assert one == Bucket(lim.capacity as real, 0);
    if lim.capacity < 0 {
      assert TakesOnly([first]) && one.tokens < 0.0;
    } else {
      var later := (lim.capacity + 1) * lim.window;
      var ops := [first, Op(0, later, false)];
      assert ops[..1] == [first];
      assert later > 0;
      GeneratedWhole(lim, lim.capacity + 1);
      assert ((lim.capacity + 1) * lim.rate) <= -(lim.capacity + 1);
      assert Run(lim, ops).tokens < 0.0;
      assert TakesOnly(ops);
    }
  }

  lemma {:induction false} GeneratedWhole(lim: Limits, n: nat)
    requires lim.window > 0
    ensures Generated(lim, n * lim.window) == (n * lim.rate) as real
  {
    var w := lim.window as real;
    assert (n * lim.window) as real == (n as real) * w;
    assert ((n as real) * w) / w == n as real;
    assert (n * lim.rate) as real == (n as real) * (lim.rate as real);
  }

  /** So what was admitted by takes alone, less refunds, is bounded by capacity plus
      rate, and every token a caller gets was there. */
  lemma {:induction false} AdmittedIsBounded(lim: Limits, ops: seq<Op>)
    requires lim.window > 0 && lim.rate >= 0 && lim.capacity >= 0 && ops != [] && TakesOnly(ops)
    ensures Net(lim, ops) as real <= lim.capacity as real + Generated(lim, Latest(ops) - ops[0].now)
  {
    NeverOverspends(lim, ops);
    TakesKeepBalance(lim, ops);
  }

  // ----- What each request gets -----

  /** What a bucket has at `now`, before its capacity is minded. */
  function Filled(b: Bucket, lim: Limits, now: int): real
    requires lim.window > 0
  {
    if b.Unused? then lim.capacity as real
    else if now <= b.lastUpdated then b.tokens
    else b.tokens + (((now - b.lastUpdated) as real) / (lim.window as real)) * (lim.rate as real)
  }

  function Excess(x: real, capacity: int): real { if x > capacity as real then x - capacity as real else 0.0 }

  /** What there is to take: all of it, up to the capacity. */
  function Level(b: Bucket, lim: Limits, now: int): real
    requires lim.window > 0
  {
    Filled(b, lim, now) - Excess(Filled(b, lim, now), lim.capacity)
  }

  lemma {:induction false} RunGrows(lim: Limits, ops: seq<Op>, op: Op)
    requires lim.window > 0
    ensures Run(lim, ops + [op]) == Apply(Run(lim, ops), op.requested, lim, op.now, op.adjustment)
    ensures Net(lim, ops + [op])
            == Net(lim, ops) + (if Accepts(Refill(Run(lim, ops), lim, op.now), op.requested, op.adjustment)
                                then op.requested else 0)
  {
    assert (ops + [op])[..|ops|] == ops;
  }

  lemma {:induction false} RefillIsLevel(lim: Limits, ops: seq<Op>, now: int)
    requires lim.window > 0
    ensures Refill(Run(lim, ops), lim, now).tokens == Level(Run(lim, ops), lim, now)
  {
    hide Generated, Filled, Run;
    var b := Run(lim, ops);
    if ops == [] { NothingRun(lim); } else { NeverOverspends(lim, ops); }
    FilledIs(b, lim, now);
  }

  lemma {:induction false} FilledIs(b: Bucket, lim: Limits, now: int)
    requires lim.window > 0
    ensures Filled(b, lim, now)
            == if b.Unused? then lim.capacity as real
               else if now > b.lastUpdated then b.tokens + Generated(lim, now - b.lastUpdated) else b.tokens
  {}

  /** After any run, what becomes of a further request: a take is admitted if and only if there
      is as much to take, and then lowers the balance by just that; a take that is refused
      costs nothing; a refund or an adjustment always counts, up to the capacity. */
  lemma {:induction false} RequestGets(lim: Limits, ops: seq<Op>, op: Op)
    requires lim.window > 0
    ensures var level := Level(Run(lim, ops), lim, op.now); var after := Run(lim, ops + [op]);
            && after.Bucket?
            && (if op.adjustment || op.requested < 0 then
                  && Net(lim, ops + [op]) == Net(lim, ops) + op.requested
                  && after.tokens == level - op.requested as real - Excess(level - op.requested as real, lim.capacity)
                else if level >= op.requested as real then
                  && Net(lim, ops + [op]) == Net(lim, ops) + op.requested
                  && after.tokens == level - op.requested as real
                else Net(lim, ops + [op]) == Net(lim, ops) && after.tokens == level)
  {
    hide Refill, Run, Level, Net;
    RunGrows(lim, ops, op);
    RefillIsLevel(lim, ops, op.now);
    LevelIsWithin(lim, ops, op.now);
  }

  lemma {:induction false} LevelIsWithin(lim: Limits, ops: seq<Op>, now: int)
    requires lim.window > 0
    ensures Level(Run(lim, ops), lim, now) <= lim.capacity as real
  {}

  /** Tokens that did not fit into the bucket. */
  function Spilled(lim: Limits, ops: seq<Op>): real
    requires lim.window > 0
    decreases |ops|
  {
    if ops == [] then 0.0
    else
      var before, op := ops[..|ops| - 1], ops[|ops| - 1];
      var b := Run(lim, before);
      Spilled(lim, before) + Excess(Filled(b, lim, op.now), lim.capacity)
      + (if op.adjustment || op.requested < 0
         then Excess(Level(b, lim, op.now) - op.requested as real, lim.capacity) else 0.0)
  }

  /** Every token is accounted for: used, left, or spilled, they are the capacity the bucket
      started with and what time has generated since. */
  lemma {:induction false} TokensAreConserved(lim: Limits, ops: seq<Op>)
    requires lim.window > 0 && ops != []
    ensures Net(lim, ops) as real + Run(lim, ops).tokens + Spilled(lim, ops)
            == lim.capacity as real + Generated(lim, Latest(ops) - ops[0].now)
    decreases |ops|
  {
    hide Run, Net, Generated, Filled;
    var before, op := ops[..|ops| - 1], ops[|ops| - 1];
    assert ops == before + [op];
    RequestGets(lim, before, op);
    FilledIs(Run(lim, before), lim, op.now);
    GeneratedAdds(lim, 0, 0);
    if before == [] {
      NothingRun(lim);
    } else {
      TokensAreConserved(lim, before);
      NeverOverspends(lim, before);
      assert before[0] == ops[0];
      var t := Latest(before);
      GeneratedAdds(lim, t - ops[0].now, op.now - t);
      assert (t - ops[0].now) + (op.now - t) == op.now - ops[0].now;
      SomethingRun(lim, before);
    }
  }

  lemma {:induction false} SomethingRun(lim: Limits, ops: seq<Op>)
    requires lim.window > 0 && ops != []
    ensures Run(lim, ops).Bucket?
  {}

  lemma {:induction false} NothingRun(lim: Limits)
    requires lim.window > 0
    ensures Run(lim, []) == Unused && Net(lim, []) == 0
  {}
}
