/** Smooth weighted round-robin: every selection raises each endpoint's stored weight
    by its own weight, picks one endpoint and lowers it by the total. */
module WeightedRoundRobin {

  datatype Endpoint = Endpoint(id: string, weight: int)

  function Weight(ep: Endpoint): (w: int)
    ensures w >= 1
  {
    if ep.weight <= 0 then 1 else ep.weight
  }

  /** Total weight of the first n endpoints. */
  function Total(eps: seq<Endpoint>, n: nat): (w: int)
    requires n <= |eps|
    ensures w >= n
  {
    if n == 0 then 0 else Total(eps, n - 1) + Weight(eps[n - 1])
  }

  /** Unknown endpoints start at weight 0. */
  function Known(weights: map<string, int>, eps: seq<Endpoint>, n: nat): map<string, int>
    requires n <= |eps|
  {
    if n == 0 then weights
    else
      var w := Known(weights, eps, n - 1);
      if eps[n - 1].id in w then w else w[eps[n - 1].id := 0]
  }

  datatype Scan = Scan(weights: map<string, int>, best: int, selected: int)

  /** The raising loop after n endpoints, with its running maximum. The maximum starts
      at -1, and a negative running maximum is always replaced. */
  function ScanTo(weights: map<string, int>, eps: seq<Endpoint>, n: nat): Scan
    requires n <= |eps|
  {
    if n == 0 then Scan(weights, -1, -1)
    else
      var sc := ScanTo(weights, eps, n - 1);
      var id := eps[n - 1].id;
      var raised := (if id in sc.weights then sc.weights[id] else 0) + Weight(eps[n - 1]);
      var w := sc.weights[id := raised];
      if sc.best < 0 || raised > sc.best then Scan(w, raised, n - 1) else Scan(w, sc.best, sc.selected)
  }

  function Pick(weights: map<string, int>, eps: seq<Endpoint>): (r: (map<string, int>, int))
    ensures eps == [] <==> r.1 == -1
    ensures eps != [] ==> 0 <= r.1 < |eps|
  {
    if eps == [] then (weights, -1)
    else
      var sc := ScanTo(Known(weights, eps, |eps|), eps, |eps|);
      ScanSelects(Known(weights, eps, |eps|), eps, |eps|);
      var id := eps[sc.selected].id;
      (sc.weights[id := sc.weights[id] - Total(eps, |eps|)], sc.selected)
  }

  lemma {:induction false} ScanSelects(weights: map<string, int>, eps: seq<Endpoint>, n: nat)
    requires n <= |eps|
    ensures var sc := ScanTo(weights, eps, n);
            (n == 0 ==> sc.best == -1 && sc.selected == -1)
            && (n > 0 ==> 0 <= sc.selected < n)
            && (forall i :: 0 <= i < n ==> eps[i].id in sc.weights)
            && (forall id :: id in weights ==> id in sc.weights)
  {
    if n > 0 { ScanSelects(weights, eps, n - 1); }
  }

  // ----- The load balancer -----

  class LoadBalancer {
    var weights: map<string, int>

    constructor ()
      ensures weights == map[]
    {
      weights := map[];
    }

    /** Returns the index of the selected endpoint, or -1 for an empty list. */
    method Select(endpoints: seq<Endpoint>) returns (selected: int)
      modifies this
      ensures (weights, selected) == Pick(old(weights), endpoints)
    {
      if |endpoints| == 0 {
        return -1;
      }
      var totalWeight := 0;
      for i := 0 to |endpoints|
        invariant totalWeight == Total(endpoints, i)
        invariant weights == Known(old(weights), endpoints, i)
        invariant forall j :: 0 <= j < i ==> endpoints[j].id in weights
      {
        totalWeight := totalWeight + Weight(endpoints[i]);
        if endpoints[i].id !in weights {
          weights := weights[endpoints[i].id := 0];
        }
      }
      ghost var known := weights;
      selected := -1;
      var maxWeight := -1;
      for i := 0 to |endpoints|
        invariant ScanTo(known, endpoints, i) == Scan(weights, maxWeight, selected)
        invariant forall j :: 0 <= j < |endpoints| ==> endpoints[j].id in weights
        invariant i > 0 ==> 0 <= selected < i
        invariant i == 0 ==> maxWeight == -1
      {
        var id := endpoints[i].id;
        weights := weights[id := weights[id] + Weight(endpoints[i])];
        if maxWeight < 0 || weights[id] > maxWeight {
          maxWeight := weights[id];
          selected := i;
        }
      }
      var id := endpoints[selected].id;
      weights := weights[id := weights[id] - totalWeight];
    }
  }

  // ----- The sum of all stored weights -----

  ghost function Sum(m: map<string, int>): int
    decreases |m|
  {
    if m == map[] then 0 else var id :| id in m; m[id] + Sum(m - {id})
  }

  lemma {:induction false} SumRemove(m: map<string, int>, id: string)
    requires id in m
    ensures Sum(m) == m[id] + Sum(m - {id})
    decreases |m|
  {
    var first :| first in m && Sum(m) == m[first] + Sum(m - {first});
    if first != id {
      SumRemove(m - {first}, id);
      SumRemove(m - {id}, first);
      assert m - {first} - {id} == m - {id} - {first};
    }
  }

  lemma {:induction false} SumUpdate(m: map<string, int>, id: string, v: int)
    ensures Sum(m[id := v]) == Sum(m) + v - (if id in m then m[id] else 0)
  {
    SumRemove(m[id := v], id);
    if id in m {
      SumRemove(m, id);
      assert m[id := v] - {id} == m - {id};
    } else {
      assert m[id := v] - {id} == m;
    }
  }

  lemma {:induction false} SumKnown(weights: map<string, int>, eps: seq<Endpoint>, n: nat)
    requires n <= |eps|
    ensures Sum(Known(weights, eps, n)) == Sum(weights)
  {
    if n > 0 {
      SumKnown(weights, eps, n - 1);
      SumUpdate(Known(weights, eps, n - 1), eps[n - 1].id, 0);
    }
  }

  lemma {:induction false} SumScan(weights: map<string, int>, eps: seq<Endpoint>, n: nat)
    requires n <= |eps|
    ensures Sum(ScanTo(weights, eps, n).weights) == Sum(weights) + Total(eps, n)
  {
    if n > 0 {
      SumScan(weights, eps, n - 1);
      var sc := ScanTo(weights, eps, n - 1);
      var id := eps[n - 1].id;
      SumUpdate(sc.weights, id, (if id in sc.weights then sc.weights[id] else 0) + Weight(eps[n - 1]));
    }
  }

  lemma {:induction false} PickKeepsSum(weights: map<string, int>, eps: seq<Endpoint>)
    ensures Sum(Pick(weights, eps).0) == Sum(weights)
  {
    if eps != [] {
      var known := Known(weights, eps, |eps|);
      var sc := ScanTo(known, eps, |eps|);
      SumKnown(weights, eps, |eps|);
      SumScan(known, eps, |eps|);
      ScanSelects(known, eps, |eps|);
      var id := eps[sc.selected].id;
      SumUpdate(sc.weights, id, sc.weights[id] - Total(eps, |eps|));
    }
  }

  function PickAll(sets: seq<seq<Endpoint>>): map<string, int>
    decreases |sets|
  {
    if sets == [] then map[] else Pick(PickAll(sets[..|sets| - 1]), sets[|sets| - 1]).0
  }

  /** Whatever endpoint lists are presented, in whatever order (repeated identifiers and
      changing weights included), the stored weights always sum to 0. */
  lemma {:induction false} StoredWeightsSumToZero(sets: seq<seq<Endpoint>>)
    ensures Sum(PickAll(sets)) == 0
    decreases |sets|
  {
    if sets != [] {
      StoredWeightsSumToZero(sets[..|sets| - 1]);
      PickKeepsSum(PickAll(sets[..|sets| - 1]), sets[|sets| - 1]);
    }
  }

  // ----- What the maximum search finds -----

  ghost predicate Distinct(eps: seq<Endpoint>) {
    forall i, j :: 0 <= i < j < |eps| ==> eps[i].id != eps[j].id
  }

  function Stored(weights: map<string, int>, ep: Endpoint): int {
    if ep.id in weights then weights[ep.id] else 0
  }

  /** The weight endpoint i has when the maximum is taken. */
  function Raised(weights: map<string, int>, ep: Endpoint): int {
    Stored(weights, ep) + Weight(ep)
  }

  lemma {:induction false} KnownStores(weights: map<string, int>, eps: seq<Endpoint>, n: nat, ep: Endpoint)
    requires n <= |eps|
    ensures Stored(Known(weights, eps, n), ep) == Stored(weights, ep)
  {
    if n > 0 { KnownStores(weights, eps, n - 1, ep); }
  }

  ghost predicate FirstMaximum(weights: map<string, int>, eps: seq<Endpoint>, n: nat, k: int)
    requires n <= |eps|
  {
    && 0 <= k < n
    && (forall i :: 0 <= i < n ==> Raised(weights, eps[i]) <= Raised(weights, eps[k]))
    && (forall i :: 0 <= i < k ==> Raised(weights, eps[i]) < Raised(weights, eps[k]))
  }

  ghost predicate SomeNonNegative(weights: map<string, int>, eps: seq<Endpoint>, n: nat)
    requires n <= |eps|
  {
    exists i :: 0 <= i < n && Raised(weights, eps[i]) >= 0
  }

  lemma {:induction false} ScanStores(weights: map<string, int>, eps: seq<Endpoint>, n: nat)
    requires n <= |eps| && Distinct(eps)
    ensures forall i :: 0 <= i < |eps| ==>
              Stored(ScanTo(weights, eps, n).weights, eps[i])
              == if i < n then Raised(weights, eps[i]) else Stored(weights, eps[i])
  {
    if n > 0 {
      ScanStores(weights, eps, n - 1);
      var sc := ScanTo(weights, eps, n - 1);
      assert Raised(weights, eps[n - 1]) == Stored(sc.weights, eps[n - 1]) + Weight(eps[n - 1]);
    }
  }

  /** The running maximum after n endpoints: the first maximum, or the last endpoint as
      long as all raised weights are negative. */
  ghost predicate Found(weights: map<string, int>, eps: seq<Endpoint>, n: nat, best: int, selected: int)
    requires n <= |eps|
  {
    && (n > 0 ==> 0 <= selected < n && best == Raised(weights, eps[selected]))
    && (SomeNonNegative(weights, eps, n) ==> FirstMaximum(weights, eps, n, selected))
    && (n > 0 && !SomeNonNegative(weights, eps, n) ==> selected == n - 1)
  }

  lemma {:induction false} FoundNext(weights: map<string, int>, eps: seq<Endpoint>, n: nat, best: int, selected: int)
    requires n < |eps| && Found(weights, eps, n, best, selected) && (n == 0 ==> best < 0)
    ensures var raised := Raised(weights, eps[n]);
            if best < 0 || raised > best then Found(weights, eps, n + 1, raised, n)
            else Found(weights, eps, n + 1, best, selected)
  {
    hide Raised;
    if best < 0 {
      assert !SomeNonNegative(weights, eps, n);
    } else {
      assert Raised(weights, eps[selected]) >= 0;
      assert SomeNonNegative(weights, eps, n);
    }
  }

  lemma {:induction false} ScanFinds(weights: map<string, int>, eps: seq<Endpoint>, n: nat)
    requires n <= |eps| && Distinct(eps)
    ensures var sc := ScanTo(weights, eps, n); Found(weights, eps, n, sc.best, sc.selected)
  {
    hide Found, Distinct;
    if n == 0 {
      assert Found(weights, eps, 0, -1, -1) by { NothingFound(weights, eps); }
    } else {
      ScanFinds(weights, eps, n - 1);
      ScanStores(weights, eps, n - 1);
      var sc := ScanTo(weights, eps, n - 1);
      assert Raised(weights, eps[n - 1]) == Stored(sc.weights, eps[n - 1]) + Weight(eps[n - 1]);
      FoundNext(weights, eps, n - 1, sc.best, sc.selected);
    }
  }

  lemma {:induction false} NothingFound(weights: map<string, int>, eps: seq<Endpoint>)
    ensures Found(weights, eps, 0, -1, -1)
  {}

  lemma {:induction false} KnownRaises(weights: map<string, int>, eps: seq<Endpoint>, n: nat)
    requires n <= |eps|
    ensures forall ep :: Raised(Known(weights, eps, n), ep) == Raised(weights, ep)
  {
    forall ep ensures Raised(Known(weights, eps, n), ep) == Raised(weights, ep) { KnownStores(weights, eps, n, ep); }
  }

  /** The selection is the first endpoint of greatest raised weight, if some raised
      weight is not negative; if all are negative it is the last endpoint. */
  lemma {:induction false} PickFinds(weights: map<string, int>, eps: seq<Endpoint>)
    requires eps != [] && Distinct(eps)
    ensures if SomeNonNegative(weights, eps, |eps|) then FirstMaximum(weights, eps, |eps|, Pick(weights, eps).1)
            else Pick(weights, eps).1 == |eps| - 1
  {
    var known := Known(weights, eps, |eps|);
    KnownRaises(weights, eps, |eps|);
    ScanFinds(known, eps, |eps|);
    assert SomeNonNegative(known, eps, |eps|) == SomeNonNegative(weights, eps, |eps|);
  }

  /** Every endpoint is raised by its weight, the selected one is lowered by the total. */
  lemma {:induction false} PickLeaves(weights: map<string, int>, eps: seq<Endpoint>, i: nat)
    requires Distinct(eps) && i < |eps|
    ensures Stored(Pick(weights, eps).0, eps[i])
            == Raised(weights, eps[i]) - (if i == Pick(weights, eps).1 then Total(eps, |eps|) else 0)
  {
    var known := Known(weights, eps, |eps|);
    KnownStores(weights, eps, |eps|, eps[i]);
    ScanStores(known, eps, |eps|);
    ScanSelects(known, eps, |eps|);
    var sc := ScanTo(known, eps, |eps|);
    assert Stored(sc.weights, eps[i]) == Raised(known, eps[i]);
  }

  /** So the selection is a maximum exactly when some raised weight is not negative or
      the last endpoint happens to be a maximum. */
  lemma {:induction false} PickIsMaximumIff(weights: map<string, int>, eps: seq<Endpoint>)
    requires eps != [] && Distinct(eps)
    ensures (forall i :: 0 <= i < |eps| ==> Raised(weights, eps[i]) <= Raised(weights, eps[Pick(weights, eps).1]))
            <==> (SomeNonNegative(weights, eps, |eps|)
                  || forall i :: 0 <= i < |eps| ==> Raised(weights, eps[i]) <= Raised(weights, eps[|eps| - 1]))
  {
    PickFinds(weights, eps);
  }

  // ----- Changing endpoint lists -----

  ghost predicate Absent(eps: seq<Endpoint>, ep: Endpoint) { forall i :: 0 <= i < |eps| ==> eps[i].id != ep.id }

  lemma {:induction false} ScanSpares(weights: map<string, int>, eps: seq<Endpoint>, n: nat, ep: Endpoint)
    requires n <= |eps| && Absent(eps, ep)
    ensures Stored(ScanTo(weights, eps, n).weights, ep) == Stored(weights, ep)
  {
    if n > 0 { ScanSpares(weights, eps, n - 1, ep); }
  }

  /** An endpoint that is not on the list keeps its weight. */
  lemma {:induction false} PickSpares(weights: map<string, int>, eps: seq<Endpoint>, ep: Endpoint)
    requires Absent(eps, ep)
    ensures Stored(Pick(weights, eps).0, ep) == Stored(weights, ep)
  {
    if eps != [] {
      var known := Known(weights, eps, |eps|);
      KnownStores(weights, eps, |eps|, ep);
      ScanSpares(known, eps, |eps|, ep);
      ScanSelects(known, eps, |eps|);
    }
  }

  /** Among equals the first is selected, and pays for all. */
  lemma {:induction false} FirstPays(weights: map<string, int>, eps: seq<Endpoint>)
    requires eps != [] && Distinct(eps)
    requires forall i :: 0 <= i < |eps| ==> eps[i].weight == 1 && Stored(weights, eps[i]) == 0
    ensures Stored(Pick(weights, eps).0, eps[0]) == 1 - |eps|
  {
    assert Raised(weights, eps[0]) == 1;
    PickFinds(weights, eps);
    PickLeaves(weights, eps, 0);
    TotalOfOnes(eps, |eps|);
  }

  lemma {:induction false} TotalOfOnes(eps: seq<Endpoint>, n: nat)
    requires n <= |eps| && forall i :: 0 <= i < |eps| ==> eps[i].weight == 1
    ensures Total(eps, n) == n
  {
    if n > 0 { TotalOfOnes(eps, n - 1); }
  }

  const X := Endpoint("x", 1)
  const Y := Endpoint("y", 1)

  /** Three endpoints with x and four with y, all of weight 1. */
  const WithX := [X, Endpoint("a", 1), Endpoint("b", 1)]
  const WithY := [Y, Endpoint("c", 1), Endpoint("d", 1), Endpoint("e", 1)]

  /** Endpoint lists that change do reach weights where the search misses the maximum: one
      selection from each of the two lists, and then x and y alone are both negative, and y is
      selected though x is greater. */
  lemma {:induction false} ChangingListsMissMaximum()
    ensures var weights := PickAll([WithX, WithY]);
            Pick(weights, [X, Y]).1 == 1 && Raised(weights, Y) < Raised(weights, X) < 0
  {
    hide Pick;
    var w1 := Pick(map[], WithX).0;
    var w2 := Pick(w1, WithY).0;
    PickedTwice();
    FirstPays(map[], WithX);
    forall i | 0 <= i < |WithY| ensures Stored(w1, WithY[i]) == 0 { PickSpares(map[], WithX, WithY[i]); }
    FirstPays(w1, WithY);
    PickSpares(w1, WithY, X);
    PickFinds(w2, [X, Y]);
  }

  lemma {:induction false} PickedTwice()
    ensures PickAll([WithX, WithY]) == Pick(Pick(map[], WithX).0, WithY).0
  {
    hide Pick;
    var one := [WithX];
    assert [WithX, WithY][..1] == one && one[..0] == [];
    assert PickAll(one) == Pick(map[], WithX).0;
  }

  // ----- Fairness for a fixed set of endpoints -----

  /** Stored weights of the first n endpoints, added up. */
  function SetSum(weights: map<string, int>, eps: seq<Endpoint>, n: nat): int
    requires n <= |eps|
  {
    if n == 0 then 0 else SetSum(weights, eps, n - 1) + Stored(weights, eps[n - 1])
  }

  /** When the stored weights of the set sum to 0, some raised weight is positive, so
      the negative sentinel does no harm. */
  lemma {:induction false} RaisedSum(weights: map<string, int>, eps: seq<Endpoint>, n: nat)
    requires n <= |eps|
    ensures SetSum(weights, eps, n) + Total(eps, n) > 0 ==> exists i :: 0 <= i < n && Raised(weights, eps[i]) > 0
  {
    if n > 0 {
      RaisedSum(weights, eps, n - 1);
      if SetSum(weights, eps, n - 1) + Total(eps, n - 1) <= 0 && SetSum(weights, eps, n) + Total(eps, n) > 0 {
        assert Raised(weights, eps[n - 1]) > 0;
      }
    }
  }

  lemma {:induction false} SetSumAfter(before: map<string, int>, after: map<string, int>, eps: seq<Endpoint>, n: nat,
                                       k: int, total: int)
    requires n <= |eps|
    requires forall i :: 0 <= i < |eps| ==>
               Stored(after, eps[i]) == Raised(before, eps[i]) - (if i == k then total else 0)
    ensures SetSum(after, eps, n) == SetSum(before, eps, n) + Total(eps, n) - (if 0 <= k < n then total else 0)
  {
    if n > 0 { SetSumAfter(before, after, eps, n - 1, k, total); }
  }

  datatype Round = Round(weights: map<string, int>, counts: seq<nat>)

  /** State and pick counts after k selections from the same endpoints. */
  function Rounds(start: map<string, int>, eps: seq<Endpoint>, k: nat): (r: Round)
    requires eps != []
    ensures |r.counts| == |eps|
  {
    if k == 0 then Round(start, seq(|eps|, _ => 0))
    else
      var r := Rounds(start, eps, k - 1);
      var (w, i) := Pick(r.weights, eps);
      Round(w, r.counts[i := r.counts[i] + 1])
  }

  function CountSum(counts: seq<nat>, n: nat): nat
    requires n <= |counts|
  {
    if n == 0 then 0 else CountSum(counts, n - 1) + counts[n - 1]
  }

  lemma {:induction false} CountSumBump(counts: seq<nat>, i: nat, n: nat)
    requires i < |counts| && n <= |counts|
    ensures CountSum(counts[i := counts[i] + 1], n) == CountSum(counts, n) + (if i < n then 1 else 0)
  {
    if n > 0 { CountSumBump(counts, i, n - 1); }
  }

  lemma {:induction false} CountSumZero(m: nat, n: nat)
    requires n <= m
    ensures CountSum(seq(m, _ => 0), n) == 0
  {
    if n > 0 { CountSumZero(m, n - 1); }
  }

  ghost predicate StartsAtZero(weights: map<string, int>, eps: seq<Endpoint>) {
    forall i :: 0 <= i < |eps| ==> Stored(weights, eps[i]) == 0
  }

  /** n * x by repeated addition. */
  function Times(n: nat, x: int): int {
    if n == 0 then 0 else Times(n - 1, x) + x
  }

  lemma {:induction false} TimesIsProduct(n: nat, x: int)
    ensures Times(n, x) == n * x
  {
    if n > 0 {
      TimesIsProduct(n - 1, x);
      assert n * x == (n - 1) * x + x;
    }
  }

  /** After k selections endpoint i stores k * weight - (times picked) * total, and never
      falls to -total. */
  ghost predicate ShareOk(r: Round, eps: seq<Endpoint>, k: nat, i: nat)
    requires |r.counts| == |eps| && i < |eps|
  {
    && Stored(r.weights, eps[i]) == Times(k, Weight(eps[i])) - Times(r.counts[i], Total(eps, |eps|))
    && Stored(r.weights, eps[i]) > -Total(eps, |eps|)
  }

  ghost predicate RoundOk(r: Round, eps: seq<Endpoint>, k: nat)
    requires |r.counts| == |eps|
  {
    && SetSum(r.weights, eps, |eps|) == 0
    && CountSum(r.counts, |eps|) == k
    && (forall i :: 0 <= i < |eps| ==> ShareOk(r, eps, k, i))
  }

  lemma {:induction false} ShareStep(r: Round, eps: seq<Endpoint>, k: nat, j: nat)
    requires Distinct(eps) && |r.counts| == |eps| && j < |eps| && ShareOk(r, eps, k, j)
    requires Raised(r.weights, eps[Pick(r.weights, eps).1]) > 0
    ensures var (w, i) := Pick(r.weights, eps);
            ShareOk(Round(w, r.counts[i := r.counts[i] + 1]), eps, k + 1, j)
  {
    PickLeaves(r.weights, eps, j);
  }

  lemma {:induction false} RoundStep(r: Round, eps: seq<Endpoint>, k: nat)
    requires eps != [] && Distinct(eps) && |r.counts| == |eps| && RoundOk(r, eps, k)
    ensures var (w, i) := Pick(r.weights, eps);
            RoundOk(Round(w, r.counts[i := r.counts[i] + 1]), eps, k + 1)
  {
    var n := |eps|;
    var (w, i) := Pick(r.weights, eps);
    RaisedSum(r.weights, eps, n);
    PickFinds(r.weights, eps);
    assert Raised(r.weights, eps[i]) > 0;
    forall j | 0 <= j < n
      ensures Stored(w, eps[j]) == Raised(r.weights, eps[j]) - (if j == i then Total(eps, n) else 0)
      ensures ShareOk(Round(w, r.counts[i := r.counts[i] + 1]), eps, k + 1, j)
    {
      PickLeaves(r.weights, eps, j);
      ShareStep(r, eps, k, j);
    }
    SetSumAfter(r.weights, w, eps, n, i, Total(eps, n));
    CountSumBump(r.counts, i, n);
  }

  lemma {:induction false} SetSumZero(weights: map<string, int>, eps: seq<Endpoint>, n: nat)
    requires StartsAtZero(weights, eps) && n <= |eps|
    ensures SetSum(weights, eps, n) == 0
  {
    if n > 0 { SetSumZero(weights, eps, n - 1); }
  }

  lemma {:induction false} RoundsOk(start: map<string, int>, eps: seq<Endpoint>, k: nat)
    requires eps != [] && Distinct(eps) && StartsAtZero(start, eps)
    ensures RoundOk(Rounds(start, eps, k), eps, k)
  {
    if k == 0 {
      SetSumZero(start, eps, |eps|);
      CountSumZero(|eps|, |eps|);
    } else {
      RoundsOk(start, eps, k - 1);
      RoundStep(Rounds(start, eps, k - 1), eps, k - 1);
    }
  }

  /** No endpoint is ever a full pick ahead of its share: after any k selections,
      picks * total < k * weight + total. */
  lemma {:induction false} NeverAPickAhead(start: map<string, int>, eps: seq<Endpoint>, k: nat, i: nat)
    requires Distinct(eps) && StartsAtZero(start, eps) && i < |eps|
    ensures Rounds(start, eps, k).counts[i] * Total(eps, |eps|) < k * Weight(eps[i]) + Total(eps, |eps|)
  {
    RoundsOk(start, eps, k);
    var r := Rounds(start, eps, k);
    assert ShareOk(r, eps, k, i);
    TimesIsProduct(k, Weight(eps[i]));
    TimesIsProduct(r.counts[i], Total(eps, |eps|));
  }

  lemma {:induction false} EqualShares(counts: seq<nat>, eps: seq<Endpoint>, m: nat, n: nat)
    requires |counts| == |eps| && n <= |eps|
    requires forall i :: 0 <= i < n ==> counts[i] <= Times(m, Weight(eps[i]))
    ensures CountSum(counts, n) <= Times(m, Total(eps, n))
    ensures CountSum(counts, n) == Times(m, Total(eps, n)) ==>
              forall i :: 0 <= i < n ==> counts[i] == Times(m, Weight(eps[i]))
  {
    if n == 0 {
      TimesIsProduct(m, 0);
    } else {
      EqualShares(counts, eps, m, n - 1);
      TimesDistributes(m, Total(eps, n - 1), Weight(eps[n - 1]));
    }
  }

  lemma {:induction false} TimesDistributes(m: nat, x: int, y: int)
    ensures Times(m, x + y) == Times(m, x) + Times(m, y)
  {
    if m > 0 { TimesDistributes(m - 1, x, y); }
  }

  /** A lead of less than one pick after whole blocks is no lead at all. */
  lemma {:induction false} NoLeadAfterBlocks(m: nat, w: int, total: int, count: nat)
    requires total > 0
    requires Times(m * total, w) - Times(count, total) > -total
    ensures count <= Times(m, w)
    ensures count == Times(m, w) ==> Times(m * total, w) == Times(count, total)
  {
    TimesIsProduct(m * total, w);
    TimesIsProduct(count, total);
    TimesIsProduct(m, w);
    LeadIsZero(m, w, total, count);
  }

  lemma {:induction false} LeadIsZero(m: nat, w: int, total: int, count: nat)
    requires total > 0 && (m * total) * w - count * total > -total
    ensures count <= m * w
    ensures count == m * w ==> (m * total) * w == count * total
  {
    var lead := count - m * w;
    assert (m * total) * w == (m * w) * total;
    assert lead * total == count * total - (m * w) * total;
    if lead >= 1 { MulAtLeast(lead, total); }
  }

  lemma {:induction false} MulAtLeast(n: nat, x: nat)
    requires n >= 1
    ensures n * x >= x
  {}

  /** After m blocks of total-weight selections every endpoint was picked exactly
      m * weight times and every stored weight is back at 0. */
  lemma {:induction false} BlocksAreExact(start: map<string, int>, eps: seq<Endpoint>, m: nat, i: nat)
    requires Distinct(eps) && StartsAtZero(start, eps) && i < |eps|
    ensures Rounds(start, eps, m * Total(eps, |eps|)).counts[i] == m * Weight(eps[i])
    ensures Stored(Rounds(start, eps, m * Total(eps, |eps|)).weights, eps[i]) == 0
  {
    var n := |eps|;
    var total := Total(eps, n);
    var k := m * total;
    var r := Rounds(start, eps, k);
    RoundsOk(start, eps, k);
    forall j | 0 <= j < n
      ensures r.counts[j] <= Times(m, Weight(eps[j]))
      ensures r.counts[j] == Times(m, Weight(eps[j])) ==> Stored(r.weights, eps[j]) == 0
    {
      assert ShareOk(r, eps, k, j);
      NoLeadAfterBlocks(m, Weight(eps[j]), total, r.counts[j]);
    }
    EqualShares(r.counts, eps, m, n);
    TimesIsProduct(m, total);
    TimesIsProduct(m, Weight(eps[i]));
  }
}
