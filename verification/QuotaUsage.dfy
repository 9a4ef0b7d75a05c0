/** What a settled call has added to the counters: the usage, once for each fixed window of
    each policy it was charged for. */
module QuotaUsage {
  import opened Options
  import opened Quota
  import opened QuotaProtocol

  /** A fixed window of a policy, as it is billed. */
  datatype Slot = Slot(key: string, kind: Kind)

  /** The fixed windows among the first n of a policy. */
  function PolicySlots(p: Policy, n: nat): seq<Slot>
    requires n <= |p.windows|
  {
    if n == 0 then []
    else
      var w := p.windows[n - 1];
      PolicySlots(p, n - 1) + (if w.burst then [] else [Slot(p.limitKey + ":" + w.span, p.kind)])
  }

  /** The limit keys charged when the first n policies are done. */
  function KeysAfter(policies: seq<Policy>, keys: set<string>, n: nat): set<string>
    requires n <= |policies|
  {
    if n == 0 then keys else KeysAfter(policies, keys, n - 1) + {policies[n - 1].limitKey}
  }

  /** The fixed windows of the first n policies, without those whose limit key was charged
      before. */
  function Slots(policies: seq<Policy>, keys: set<string>, n: nat): seq<Slot>
    requires n <= |policies|
  {
    if n == 0 then []
    else
      var p := policies[n - 1];
      Slots(policies, keys, n - 1)
      + (if p.limitKey in KeysAfter(policies, keys, n - 1) then [] else PolicySlots(p, |p.windows|))
  }

  function SlotCount(slots: seq<Slot>, slot: Slot): nat {
    if slots == [] then 0
    else SlotCount(slots[..|slots| - 1], slot) + (if slots[|slots| - 1] == slot then 1 else 0)
  }

  /** The tokens once for each token slot, and the cost once for each cost slot. */
  function Billed(slots: seq<Slot>, tokens: nat, cost: nat, key: string): nat {
    tokens * SlotCount(slots, Slot(key, Tokens)) + cost * SlotCount(slots, Slot(key, Cost))
  }

  /** What a charged call owes on the counter of `key`. */
  function Owed(policies: seq<Policy>, keys: set<string>, tokens: nat, cost: nat, key: string): nat {
    Billed(Slots(policies, keys, |policies|), tokens, cost, key)
  }

  // ----- Reservations as slots -----

  function FixedSlots(rs: seq<Reservation>): seq<Slot>
    decreases |rs|
  {
    if rs == [] then []
    else
      var r := rs[|rs| - 1];
      FixedSlots(rs[..|rs| - 1]) + (if r.burst then [] else [Slot(r.key, r.kind)])
  }

  lemma {:induction false} FixedConcat(a: seq<Reservation>, b: seq<Reservation>)
    ensures FixedSlots(a + b) == FixedSlots(a) + FixedSlots(b)
    decreases |b|
  {
    if b == [] {
      assert a + b == a;
    } else {
      assert (a + b)[..|a + b| - 1] == a + b[..|b| - 1];
      FixedConcat(a, b[..|b| - 1]);
    }
  }

  lemma {:induction false} RecordsAreSlots(p: Policy, n: nat, estimate: nat)
    requires n <= |p.windows|
    ensures FixedSlots(Records(p, n, estimate)) == PolicySlots(p, n)
  {
    if n > 0 {
      assert Records(p, n, estimate)[..n - 1] == Records(p, n - 1, estimate);
      RecordsAreSlots(p, n - 1, estimate);
    }
  }

  lemma {:induction false} SettlingKeepsSlots(rs: seq<Reservation>, i: nat, actual: nat)
    requires i < |rs|
    ensures FixedSlots(rs[i := Settle(rs[i], actual)]) == FixedSlots(rs)
    decreases |rs|
  {
    var n := |rs| - 1;
    var rs' := rs[i := Settle(rs[i], actual)];
    if i == n {
      assert rs'[..n] == rs[..n];
    } else {
      assert rs'[..n] == rs[..n][i := Settle(rs[i], actual)];
      SettlingKeepsSlots(rs[..n], i, actual);
    }
  }

  lemma {:induction false} OneMoreSlot(slots: seq<Slot>, x: Slot, slot: Slot)
    ensures SlotCount(slots + [x], slot) == SlotCount(slots, slot) + (if x == slot then 1 else 0)
  {
    assert (slots + [x])[..|slots|] == slots;
  }

  lemma {:induction false} OneMoreBilled(slots: seq<Slot>, x: Slot, tokens: nat, cost: nat, key: string)
    ensures Billed(slots + [x], tokens, cost, key)
            == Billed(slots, tokens, cost, key)
               + (if x.key != key then 0 else if x.kind == Tokens then tokens else cost)
  {
    hide SlotCount;
    OneMoreSlot(slots, x, Slot(key, Tokens));
    OneMoreSlot(slots, x, Slot(key, Cost));
    Distributes(tokens, SlotCount(slots, Slot(key, Tokens)));
    Distributes(cost, SlotCount(slots, Slot(key, Cost)));
  }

  lemma {:induction false} Distributes(a: nat, n: nat)
    ensures a * (n + 1) == a * n + a
  {}

  /** Settled reservations stand for the usage of their slots. */
  lemma {:induction false} SettledStandForUsage(rs: seq<Reservation>, tokens: nat, cost: nat, charged: bool,
                                                key: string)
    requires forall i :: 0 <= i < |rs| ==> rs[i].settled == Some(Actual(rs[i].kind, tokens, cost, charged))
    ensures ReservedOn(rs, key)
            == if charged then Billed(FixedSlots(rs), tokens, cost, key) else 0
    decreases |rs|
  {
    hide Billed;
    assert Billed([], tokens, cost, key) == 0 by { NothingBilled(tokens, cost, key); }
    if rs != [] {
      var before, r := rs[..|rs| - 1], rs[|rs| - 1];
      SettledStandForUsage(before, tokens, cost, charged, key);
      OneMoreBilled(FixedSlots(before), Slot(r.key, r.kind), tokens, cost, key);
      assert FixedSlots(before) + [] == FixedSlots(before);
    }
  }

  lemma {:induction false} NothingBilled(tokens: nat, cost: nat, key: string)
    ensures Billed([], tokens, cost, key) == 0
  {}

  // ----- What a call reserves -----

  /** The limit keys request r began with. */
  function KeysAtStart(steps: seq<Step>, r: nat): set<string>
    decreases |steps|
  {
    if steps == [] then {}
    else
      var before, step := steps[..|steps| - 1], steps[|steps| - 1];
      if step.Begin? && |Run(before).requests| == r then step.limitKeys else KeysAtStart(before, r)
  }

  /** The request has reserved for its first n policies, and is at policy n or beyond. */
  ghost predicate ReservedFor(req: Request, keys: set<string>, n: nat) {
    && n <= |req.policies|
    && FixedSlots(req.reservations) == Slots(req.policies, keys, n) && req.limitKeys == KeysAfter(req.policies, keys, n)
    && (match req.phase
        case Admitting(p) => p == n
        case Charging(p, _, _) => p == n && p < |req.policies| && req.policies[p].limitKey !in req.limitKeys
        case RollingBack(p, _, _, _, _) => p == n && p < |req.policies|
        case Invoking => n == |req.policies|
        case _ => req.charged ==> n == |req.policies|)
    && (req.charged ==> req.phase.Settling? || req.phase.Finished?)
  }

  ghost predicate Reserves(req: Request, keys: set<string>) { exists n: nat :: ReservedFor(req, keys, n) }

  lemma {:induction false} ChargeReserves(s: System, r: nat, answer: Answer, keys: set<string>)
    requires At(s, r) && s.requests[r].phase.Charging? && PhaseOk(s.requests[r]) && Reserves(s.requests[r], keys)
    ensures Reserves(DoCharge(s, r, answer).requests[r], keys)
  {
    hide FixedSlots, KeysAfter, Slots, Records;
    var req := s.requests[r];
    var n: nat :| ReservedFor(req, keys, n);
    var Charging(i, w, estimate) := req.phase;
    var p, req' := req.policies[i], DoCharge(s, r, answer).requests[r];
    if w == |p.windows| {
      FixedConcat(req.reservations, Records(p, w, estimate));
      RecordsAreSlots(p, w, estimate);
      NextSlots(req.policies, keys, n);
      assert ReservedFor(req', keys, n + 1);
    } else {
      assert ReservedFor(req', keys, n);
    }
  }

  lemma {:induction false} NextSlots(policies: seq<Policy>, keys: set<string>, n: nat)
    requires n < |policies|
    ensures KeysAfter(policies, keys, n + 1) == KeysAfter(policies, keys, n) + {policies[n].limitKey}
    ensures Slots(policies, keys, n + 1)
            == Slots(policies, keys, n)
               + (if policies[n].limitKey in KeysAfter(policies, keys, n) then []
                  else PolicySlots(policies[n], |policies[n].windows|))
  {}

  lemma {:induction false} StartReserves(s: System, r: nat, estimate: nat, keys: set<string>)
    requires At(s, r) && s.requests[r].phase.Admitting? && Reserves(s.requests[r], keys)
    ensures Reserves(DoStart(s, r, estimate).requests[r], keys)
  {
    hide FixedSlots, KeysAfter, Slots;
    var req := s.requests[r];
    var n: nat :| ReservedFor(req, keys, n);
    var req' := DoStart(s, r, estimate).requests[r];
    if n < |req.policies| && req.policies[n].limitKey in req.limitKeys {
      NextSlots(req.policies, keys, n);
      assert Slots(req.policies, keys, n) + [] == Slots(req.policies, keys, n);
      assert ReservedFor(req', keys, n + 1);
    } else {
      assert ReservedFor(req', keys, n);
    }
  }

  lemma {:induction false} SettleReserves(s: System, r: nat, storeError: bool, keys: set<string>)
    requires At(s, r) && s.requests[r].phase.Settling? && Reserves(s.requests[r], keys)
    ensures Reserves(DoSettle(s, r, storeError).requests[r], keys)
  {
    hide FixedSlots, KeysAfter, Slots, Actual, SettleCounts;
    var req := s.requests[r];
    var n: nat :| ReservedFor(req, keys, n);
    var i := req.phase.next;
    if i < |req.reservations| {
      var res := req.reservations[i];
      SettlingKeepsSlots(req.reservations, i, Actual(res.kind, req.tokens, req.cost, req.charged));
    }
    assert ReservedFor(DoSettle(s, r, storeError).requests[r], keys, n);
  }

  lemma {:induction false} MoveReserves(s: System, step: Step, keys: set<string>)
    requires step.RollBack? || step.EndRollback? || step.EndInvoke? || step.SettleAgain?
    requires At(s, step.r) && Reserves(s.requests[step.r], keys)
    ensures At(Apply(s, step), step.r) && Reserves(Apply(s, step).requests[step.r], keys)
  {
    hide FixedSlots, KeysAfter, Slots;
    var n: nat :| ReservedFor(s.requests[step.r], keys, n);
    assert ReservedFor(Apply(s, step).requests[step.r], keys, n);
  }

  lemma {:induction false} StepReserves(s: System, step: Step, keys: set<string>)
    requires !step.Begin? && At(s, step.r) && PhaseOk(s.requests[step.r]) && Reserves(s.requests[step.r], keys)
    ensures At(Apply(s, step), step.r) && Reserves(Apply(s, step).requests[step.r], keys)
  {
    hide Reserves;
    match step
    case StartPolicy(r, estimate) => if s.requests[r].phase.Admitting? { StartReserves(s, r, estimate, keys); }
    case ChargeWindow(r, answer) => if s.requests[r].phase.Charging? { ChargeReserves(s, r, answer, keys); }
    case SettleNext(r, storeError) => if s.requests[r].phase.Settling? { SettleReserves(s, r, storeError, keys); }
    case _ => MoveReserves(s, step, keys);
  }

  lemma {:induction false} NewReserves(policies: seq<Policy>, keys: set<string>)
    ensures Reserves(Request(policies, keys, [], 0, 0, false, Admitting(0)), keys)
  {
    assert ReservedFor(Request(policies, keys, [], 0, 0, false, Admitting(0)), keys, 0);
  }

  /** In every run a call has reserved for a beginning of its policies, and for all of them
      once it is admitted: every window, except those of policies whose limit key was
      already charged. */
  lemma {:induction false} CallsReserveTheirPolicies(steps: seq<Step>, r: nat)
    requires At(Run(steps), r)
    ensures Reserves(Run(steps).requests[r], KeysAtStart(steps, r))
    decreases |steps|
  {
    hide Apply, Reserves;
    var before, step := steps[..|steps| - 1], steps[|steps| - 1];
    var s := Run(before);
    RunKeepsInv(before);
    if step.Begin? {
      BeginAdds(s, step, "");
      assert r < |s.requests| ==> Run(steps).requests[r] == s.requests[r];
      if r < |s.requests| {
        CallsReserveTheirPolicies(before, r);
      } else {
        BeginsSo(s, step);
        NewReserves(step.policies, step.limitKeys);
      }
    } else {
      if At(s, step.r) { OneRequestMoves(s, step, ""); } else { IdleStep(s, step, ""); }
      CallsReserveTheirPolicies(before, r);
      if r == step.r { StepReserves(s, step, KeysAtStart(before, r)); }
    }
  }

  lemma {:induction false} BeginsSo(s: System, step: Step)
    requires step.Begin?
    ensures Apply(s, step).requests
            == s.requests + [Request(step.policies, step.limitKeys, [], 0, 0, false, Admitting(0))]
  {}

  // ----- What a settled call nets -----

  datatype Report = Report(charged: bool, tokens: nat, cost: nat)

  /** What the end of the invocation of request r reported, if it was invoked. */
  function Reported(steps: seq<Step>, r: nat): Report
    decreases |steps|
  {
    if steps == [] then Report(false, 0, 0)
    else
      var s, step := Run(steps[..|steps| - 1]), steps[|steps| - 1];
      if step.EndInvoke? && step.r == r && At(s, r) && s.requests[r].phase == Invoking
      then Report(step.charged, step.tokens, step.cost) else Reported(steps[..|steps| - 1], r)
  }

  lemma {:induction false} ReportIsKept(steps: seq<Step>, r: nat)
    ensures var report := Reported(steps, r);
            if At(Run(steps), r)
            then var req := Run(steps).requests[r]; report == Report(req.charged, req.tokens, req.cost)
            else report == Report(false, 0, 0)
    decreases |steps|
  {
    hide Apply;
    if steps != [] {
      var before, step := steps[..|steps| - 1], steps[|steps| - 1];
      var s := Run(before);
      ReportIsKept(before, r);
      if step.Begin? {
        BeginsSo(s, step);
      } else {
        if At(s, step.r) { OneRequestMoves(s, step, ""); } else { IdleStep(s, step, ""); }
        if At(s, step.r) { StepReports(s, step); }
      }
    }
  }

  lemma {:induction false} StepReports(s: System, step: Step)
    requires !step.Begin? && At(s, step.r)
    ensures At(Apply(s, step), step.r)
    ensures var req, req' := s.requests[step.r], Apply(s, step).requests[step.r];
            if step.EndInvoke? && req.phase == Invoking
            then req'.charged == step.charged && req'.tokens == step.tokens && req'.cost == step.cost
            else req'.charged == req.charged && req'.tokens == req.tokens && req'.cost == req.cost
  {
    hide Records, SettleCounts, Actual;
  }

  /** Once settled, a call has added to each counter what it owes and what the store refused
      to take back. It owes nothing if it was rejected or failed; otherwise the tokens for
      each fixed window of a token policy on that counter and the cost for each of a cost
      policy. So its net is exactly that if and only if none of its rollbacks on that counter
      was refused. */
  lemma {:induction false} SettledCallsNetUsage(steps: seq<Step>, r: nat, key: string)
    requires At(Run(steps), r) && Run(steps).requests[r].phase == Finished && AllSettled(Run(steps).requests[r])
    ensures var policies, report := Run(steps).requests[r].policies, Reported(steps, r);
            var owed :=
              if report.charged then Owed(policies, KeysAtStart(steps, r), report.tokens, report.cost, key) else 0;
            && Contribution(steps, r, key) == owed + LostBy(steps, r, key)
            && (Contribution(steps, r, key) == owed <==> forall i :: 0 <= i < |steps| ==> !Refused(steps, i, r, key))
  {
    hide Run, Contribution, LostBy, Refused, Slots, FixedSlots, SlotCount, KeysAtStart, Reported;
    ReportIsKept(steps, r);
    RunKeepsInv(steps);
    var req := Run(steps).requests[r];
    assert SettledOk(req);
    CallsReserveTheirPolicies(steps, r);
    var n: nat :| ReservedFor(req, KeysAtStart(steps, r), n);
    SettledStandForUsage(req.reservations, req.tokens, req.cost, req.charged, key);
    ContributionIs(steps, r, key);
    LostNothingIff(steps, r, key);
  }

  // ----- A refused rollback -----

  const P := Policy(Tokens, "k", [Window("m", 3, false)], false)
  const KEY := WindowKey(P, P.windows[0])

  /** A charge over the threshold, whose rollback the store refuses. */
  const Overcharged: seq<Step> := [] + [Begin([P], {})] + [StartPolicy(0, 5)] + [ChargeWindow(0, Answer(true))]
  const Ended := Overcharged + [RollBack(0, true)] + [EndRollback(0, false)] + [SettleNext(0, false)]

  lemma {:induction false} RunGrows(steps: seq<Step>, step: Step)
    ensures Run(steps + [step]) == Apply(Run(steps), step)
    ensures Contribution(steps + [step], 0, KEY) == Contribution(steps, 0, KEY)
            + (if step.Begin? || step.r != 0 then 0
               else CountAt(Apply(Run(steps), step).counts, KEY) - CountAt(Run(steps).counts, KEY))
  {
    hide Apply, CountAt;
    assert (steps + [step])[..|steps|] == steps;
  }

  lemma {:induction false} AfterCharge()
    ensures Run(Overcharged)
            == System(map[KEY := 5], map[], [Request([P], {}, [], 0, 0, false, RollingBack(0, 1, 0, 5, true))])
    ensures Contribution(Overcharged, 0, KEY) == 5
  {
    var s0: seq<Step> := [];
    var s1 := s0 + [Begin([P], {})];
    var s2 := s1 + [StartPolicy(0, 5)];
    RunGrows(s0, Begin([P], {}));
    RunGrows(s1, StartPolicy(0, 5));
    RunGrows(s2, ChargeWindow(0, Answer(true)));
  }

  /** The call ends rejected, with nothing owed, and its charge stays on the counter. */
  lemma {:induction false} RefusedRollbackStays()
    ensures var s := Run(Ended);
            && At(s, 0) && s.requests[0].phase == Finished && AllSettled(s.requests[0]) && !s.requests[0].charged
            && CountAt(s.counts, KEY) == 5 && Contribution(Ended, 0, KEY) == 5
  {
    hide Run, Contribution;
    AfterCharge();
    var s4 := Overcharged + [RollBack(0, true)];
    var s5 := s4 + [EndRollback(0, false)];
    RunGrows(Overcharged, RollBack(0, true));
    RunGrows(s4, EndRollback(0, false));
    RunGrows(s5, SettleNext(0, false));
  }
}
