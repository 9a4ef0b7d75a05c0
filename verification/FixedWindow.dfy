/** The fixed-window counter of the state store, which starts a new window when the
    clock passes the end of the current one. */
module FixedWindow {
  import opened Options
  import Q = Quota

  datatype Entry = Entry(count: int, window: int, resetAt: Option<int>)

  predicate Expired(e: Entry, now: int) { e.resetAt == None || now > e.resetAt.value }

  function Incr(e: Entry, tokens: int, now: int): Entry {
    if Expired(e, now) then Entry(tokens, e.window, Some(now + e.window)) else e.(count := e.count + tokens)
  }

  function Refund(e: Entry, tokens: int): Entry {
    e.(count := if e.count - tokens < 0 then 0 else e.count - tokens)
  }

  class RateLimitEntry {
    var count: int
    var window: int
    var resetAt: Option<int>

    constructor (window: int)
      ensures Value() == Entry(0, window, None)
    {
      this.window, count, resetAt := window, 0, None;
    }

    ghost function Value(): Entry
      reads this
    {
      Entry(count, window, resetAt)
    }

    method IncrBy(tokens: int, now: int) returns (current: int)
      modifies this
      ensures Value() == Incr(old(Value()), tokens, now) && current == count
    {
      if resetAt == None || now > resetAt.value {
        count := 0;
        resetAt := Some(now + window);
      }
      count := count + tokens;
      current := count;
    }

    method RefundBy(tokens: int)
      modifies this
      ensures Value() == Refund(old(Value()), tokens)
    {
      count := count - tokens;
      if count < 0 {
        count := 0;
      }
    }
  }

  // ----- Within one window the entry is a plain counter -----

  datatype Op = Charge(tokens: nat, now: int) | GiveBack(tokens: nat)

  function Run(window: int, ops: seq<Op>): Entry
    decreases |ops|
  {
    if ops == [] then Entry(0, window, None)
    else
      var e := Run(window, ops[..|ops| - 1]);
      match ops[|ops| - 1]
      case Charge(tokens, now) => Incr(e, tokens, now)
      case GiveBack(tokens) => Refund(e, tokens)
  }

  /** The same operations on a counter that never expires. */
  function Plain(ops: seq<Op>): Q.Counts
    decreases |ops|
  {
    if ops == [] then map[]
    else
      var c := Plain(ops[..|ops| - 1]);
      match ops[|ops| - 1]
      case Charge(tokens, _) => Q.Incr(c, "k", tokens)
      case GiveBack(tokens) => Q.Refund(c, "k", tokens)
  }

  /** No charge comes after the end of the window the first charge opened. */
  ghost predicate OneEpoch(window: int, ops: seq<Op>) {
    forall i: nat, j: nat :: FirstCharge(ops, i) && i < j < |ops| && ops[j].Charge? ==>
      ops[j].now <= ops[i].now + window
  }

  ghost predicate FirstCharge(ops: seq<Op>, i: nat) {
    i < |ops| && ops[i].Charge? && forall j :: 0 <= j < i ==> !ops[j].Charge?
  }

  lemma {:induction false} EpochCounts(window: int, ops: seq<Op>)
    requires OneEpoch(window, ops)
    ensures Run(window, ops).count == Q.CountAt(Plain(ops), "k") && Run(window, ops).window == window
    ensures Run(window, ops).resetAt == None ==>
              Run(window, ops).count == 0 && forall i :: 0 <= i < |ops| ==> !ops[i].Charge?
    ensures Run(window, ops).resetAt.Some? ==>
              exists i: nat :: FirstCharge(ops, i) && Run(window, ops).resetAt.value == ops[i].now + window
    decreases |ops|
  {
    if ops != [] {
      var n := |ops| - 1;
      assert forall i :: 0 <= i < n ==> ops[..n][i] == ops[i];
      assert forall i: nat :: FirstCharge(ops[..n], i) ==> FirstCharge(ops, i);
      EpochCounts(window, ops[..n]);
      var before := Run(window, ops[..n]);
      if before.resetAt.Some? {
        var i: nat :| FirstCharge(ops[..n], i) && before.resetAt.value == ops[i].now + window;
        assert FirstCharge(ops, i);
      } else if ops[n].Charge? {
        assert FirstCharge(ops, n);
      }
    }
  }

  /** Within one window the stored count is the plain counter the quota accounting uses. */
  lemma {:induction false} OneEpochIsPlainCounter(window: int, ops: seq<Op>)
    requires OneEpoch(window, ops)
    ensures Run(window, ops).count == Q.CountAt(Plain(ops), "k")
  {
    EpochCounts(window, ops);
  }

  // ----- Any sequence of operations -----

  /** The charge that opened the latest window: the first charge, or the first one after
      the end of the window before. */
  function LatestOpening(window: int, ops: seq<Op>): (i: Option<nat>)
    ensures i.Some? ==> i.value < |ops| && ops[i.value].Charge?
    decreases |ops|
  {
    if ops == [] then None
    else
      var n := |ops| - 1;
      var before := LatestOpening(window, ops[..n]);
      if ops[n].Charge? && (before == None || ops[n].now > ops[before.value].now + window) then Some(n) else before
  }

  /** In any order of charges and refunds, at any clock, the count is the plain counter over the operations since the
      charge that opened the latest window, and that window ends its length after that charge. */
  lemma {:induction false} CountsSinceLatestOpening(window: int, ops: seq<Op>)
    ensures var i := LatestOpening(window, ops);
            var e := Run(window, ops);
            && e.window == window
            && (i == None ==> e.count == 0 && e.resetAt == None)
            && (i.Some? ==> e.count == Q.CountAt(Plain(ops[i.value..]), "k")
                            && e.resetAt == Some(ops[i.value].now + window))
    decreases |ops|
  {
    if ops == [] {
    } else {
      var n := |ops| - 1;
      CountsSinceLatestOpening(window, ops[..n]);
      var before := LatestOpening(window, ops[..n]);
      var i := LatestOpening(window, ops);
      if i.Some? {
        var since := ops[i.value..];
        assert since[|since| - 1] == ops[n];
        if i == before {
          assert since[..|since| - 1] == ops[..n][i.value..];
        } else {
          assert since[..|since| - 1] == [];
        }
      }
    }
  }
}
