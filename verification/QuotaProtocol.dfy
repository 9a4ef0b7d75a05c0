/** Quota accounting of many concurrent child calls on shared counters. Every store
    operation is one atomic step; a run is any interleaving of steps. */
module QuotaProtocol {
  import opened Options
  import opened Quota

  datatype Phase =
    | Admitting(policy: nat)
    | Charging(policy: nat, window: nat, estimate: nat)
    /** Refunding windows 0..count of the policy; those before `next` are done. */
    | RollingBack(policy: nat, count: nat, next: nat, estimate: nat, limited: bool)
    | Invoking
    | Settling(next: nat)
    | Finished

  datatype Request = Request(policies: seq<Policy>, limitKeys: set<string>, reservations: seq<Reservation>,
                             tokens: nat, cost: nat, charged: bool, phase: Phase)

  /** leaked: charges whose rollback the store refused; the limiter ignores that error. */
  datatype System = System(counts: Counts, leaked: map<string, nat>, requests: seq<Request>)

  datatype Step =
    | Begin(policies: seq<Policy>, limitKeys: set<string>)
    | StartPolicy(r: nat, estimate: nat)
    | ChargeWindow(r: nat, answer: Answer)
    | RollBack(r: nat, storeError: bool)
    | EndRollback(r: nat, again: bool)
    | EndInvoke(r: nat, charged: bool, tokens: nat, cost: nat)
    | SettleNext(r: nat, storeError: bool)
    | SettleAgain(r: nat)

  const Initial := System(map[], map[], [])

  function LeakedAt(s: System, key: string): nat { if key in s.leaked then s.leaked[key] else 0 }

  predicate At(s: System, r: nat) { r < |s.requests| }

  function SetPhase(s: System, r: nat, phase: Phase): System
    requires At(s, r)
  {
    s.(requests := s.requests[r := s.requests[r].(phase := phase)])
  }

  /** A policy whose limit key is already charged is skipped; after the last policy the
      call is admitted. */
  function DoStart(s: System, r: nat, estimate: nat): System
    requires At(s, r) && s.requests[r].phase.Admitting?
  {
    var req := s.requests[r];
    var p := req.phase.policy;
    if p >= |req.policies| then SetPhase(s, r, Invoking)
    else if req.policies[p].limitKey in req.limitKeys then SetPhase(s, r, Admitting(p + 1))
    else SetPhase(s, r, Charging(p, 0, estimate))
  }

  predicate PhaseOk(req: Request) {
    match req.phase
    case Charging(p, w, _) => p < |req.policies| && w <= |req.policies[p].windows|
    case RollingBack(p, count, j, _, _) => p < |req.policies| && count <= |req.policies[p].windows| && j <= count
    case _ => true
  }

  function DoCharge(s: System, r: nat, answer: Answer): System
    requires At(s, r) && s.requests[r].phase.Charging? && PhaseOk(s.requests[r])
  {
    var req := s.requests[r];
    var Charging(i, w, estimate) := req.phase;
    var p := req.policies[i];
    if w == |p.windows| then
      s.(requests := s.requests[r := req.(limitKeys := req.limitKeys + {p.limitKey}, phase := Admitting(i + 1),
                                          reservations := req.reservations + Records(p, w, estimate))])
    else if answer == StoreError then SetPhase(s, r, RollingBack(i, w, 0, estimate, false))
    else if p.windows[w].burst then
      SetPhase(s, r, if answer.allowed then Charging(i, w + 1, estimate) else RollingBack(i, w, 0, estimate, true))
    else
      var key := WindowKey(p, p.windows[w]);
      var s := s.(counts := Incr(s.counts, key, estimate));
      SetPhase(s, r, if CountAt(s.counts, key) > p.windows[w].threshold then RollingBack(i, w + 1, 0, estimate, true)
                     else Charging(i, w + 1, estimate))
  }

  function DoRollback(s: System, r: nat, storeError: bool): System
    requires At(s, r) && s.requests[r].phase.RollingBack? && PhaseOk(s.requests[r])
    requires s.requests[r].phase.next < s.requests[r].phase.count
  {
    var req := s.requests[r];
    var RollingBack(i, count, j, estimate, limited) := req.phase;
    var w := req.policies[i].windows[j];
    var key := WindowKey(req.policies[i], w);
    var s := SetPhase(s, r, RollingBack(i, count, j + 1, estimate, limited));
    if w.burst then s
    else if storeError then s.(leaked := s.leaked[key := LeakedAt(s, key) + estimate])
    else s.(counts := Refund(s.counts, key, estimate))
  }

  /** One reservation of a settlement pass; a store error ends the pass. */
  function DoSettle(s: System, r: nat, storeError: bool): System
    requires At(s, r) && s.requests[r].phase.Settling?
  {
    var req := s.requests[r];
    var i := req.phase.next;
    if i >= |req.reservations| then SetPhase(s, r, Finished)
    else
      var res := req.reservations[i];
      var actual := Actual(res.kind, req.tokens, req.cost, req.charged);
      if res.settled.Some? then SetPhase(s, r, Settling(i + 1))
      else if actual != res.estimate && storeError then SetPhase(s, r, Finished)
      else
        s.(counts := SettleCounts(s.counts, res, actual),
           requests := s.requests[r := req.(reservations := req.reservations[i := Settle(res, actual)],
               phase := Settling(i + 1))])
  }

  /** A step that is not enabled leaves the system as it is. */
  function Apply(s: System, step: Step): System {
    match step
    case Begin(policies, limitKeys) =>
      s.(requests := s.requests + [Request(policies, limitKeys, [], 0, 0, false, Admitting(0))])
    case StartPolicy(r, estimate) =>
      if At(s, r) && s.requests[r].phase.Admitting? then DoStart(s, r, estimate) else s
    case ChargeWindow(r, answer) =>
      if At(s, r) && s.requests[r].phase.Charging? && PhaseOk(s.requests[r]) then DoCharge(s, r, answer) else s
    case RollBack(r, storeError) =>
      if At(s, r) && s.requests[r].phase.RollingBack? && PhaseOk(s.requests[r])
         && s.requests[r].phase.next < s.requests[r].phase.count
      then DoRollback(s, r, storeError) else s
    case EndRollback(r, again) =>
      if At(s, r) && s.requests[r].phase.RollingBack? && PhaseOk(s.requests[r])
         && s.requests[r].phase.next == s.requests[r].phase.count
      then
        var i := s.requests[r].phase.policy;
        if again && s.requests[r].phase.limited && s.requests[r].policies[i].waits then SetPhase(s, r, Admitting(i))
        else SetPhase(s, r, Settling(0))
      else s
    case EndInvoke(r, charged, tokens, cost) =>
      if At(s, r) && s.requests[r].phase.Invoking?
      then s.(requests := s.requests[r := s.requests[r].(charged := charged, tokens := tokens, cost := cost,
          phase := Settling(0))])
      else s
    case SettleNext(r, storeError) =>
      if At(s, r) && s.requests[r].phase.Settling? then DoSettle(s, r, storeError) else s
    case SettleAgain(r) =>
      if At(s, r) && s.requests[r].phase.Finished? then SetPhase(s, r, Settling(0)) else s
  }

  function Run(steps: seq<Step>): System
    decreases |steps|
  {
    if steps == [] then Initial else Apply(Run(steps[..|steps| - 1]), steps[|steps| - 1])
  }

  // ----- The ledger -----

  /** What a request has on the counter of `key`: its reservations, and the charges of
      the policy it is charging or rolling back. */
  function Held(req: Request, key: string): nat
    requires PhaseOk(req)
  {
    ReservedOn(req.reservations, key)
    + match req.phase
      case Charging(i, w, estimate) => ChargedOn(req.policies[i], 0, w, estimate, key)
      case RollingBack(i, count, j, estimate, _) => ChargedOn(req.policies[i], j, count, estimate, key)
      case _ => 0
  }

  ghost predicate AllOk(reqs: seq<Request>) {
    forall r :: 0 <= r < |reqs| ==> PhaseOk(reqs[r])
  }

  ghost function Total(reqs: seq<Request>, key: string): nat
    requires AllOk(reqs)
    decreases |reqs|
  {
    if reqs == [] then 0 else Total(reqs[..|reqs| - 1], key) + Held(reqs[|reqs| - 1], key)
  }

  lemma {:induction false} TotalUpdate(reqs: seq<Request>, r: nat, req: Request, key: string)
    requires AllOk(reqs) && PhaseOk(req) && r < |reqs|
    ensures AllOk(reqs[r := req])
    ensures Total(reqs[r := req], key) == Total(reqs, key) - Held(reqs[r], key) + Held(req, key)
    ensures Held(reqs[r], key) <= Total(reqs, key)
    decreases |reqs|
  {
    var n := |reqs| - 1;
    if r == n {
      assert reqs[r := req][..n] == reqs[..n];
    } else {
      assert reqs[r := req][..n] == reqs[..n][r := req];
      TotalUpdate(reqs[..n], r, req, key);
    }
  }

  /** Settled reservations stand for the usage; nothing is settled before settlement. */
  ghost predicate SettledOk(req: Request) {
    forall i :: 0 <= i < |req.reservations| && req.reservations[i].settled.Some? ==>
      (req.phase.Settling? || req.phase.Finished?)
      && req.reservations[i].settled.value == Actual(req.reservations[i].kind, req.tokens, req.cost, req.charged)
  }

  ghost predicate Balanced(s: System, key: string)
    requires AllOk(s.requests)
  {
    CountAt(s.counts, key) == Total(s.requests, key) + LeakedAt(s, key)
  }

  ghost predicate Inv(s: System) {
    && AllOk(s.requests)
    && (forall r :: 0 <= r < |s.requests| ==> SettledOk(s.requests[r]))
    && (forall key :: Balanced(s, key))
  }

  /** A step of request r keeps the books if it changes the counters and the leaks by
      what it changes in the request. */
  lemma {:induction false} RequestStepKeeps(s: System, r: nat, s': System)
    requires Inv(s) && At(s, r) && |s'.requests| == |s.requests|
    requires s'.requests == s.requests[r := s'.requests[r]]
    requires PhaseOk(s'.requests[r]) && SettledOk(s'.requests[r])
    requires forall key :: CountAt(s'.counts, key) - CountAt(s.counts, key)
               == Held(s'.requests[r], key) - Held(s.requests[r], key) + LeakedAt(s', key) - LeakedAt(s, key)
    ensures Inv(s')
  {
    forall key ensures AllOk(s'.requests) && Balanced(s', key) {
      assert Balanced(s, key);
      TotalUpdate(s.requests, r, s'.requests[r], key);
    }
  }

  lemma {:induction false} HeldIsCounted(s: System, r: nat, key: string)
    requires Inv(s) && At(s, r)
    ensures Held(s.requests[r], key) <= CountAt(s.counts, key)
  {
    assert Balanced(s, key);
    TotalUpdate(s.requests, r, s.requests[r], key);
    assert s.requests[r := s.requests[r]] == s.requests;
  }

  /** A step that changes only the request, and not what it holds. */
  lemma {:induction false} QuietStepKeeps(s: System, r: nat, req: Request)
    requires Inv(s) && At(s, r) && PhaseOk(req) && SettledOk(req)
    requires forall key :: Held(req, key) == Held(s.requests[r], key)
    ensures Inv(s.(requests := s.requests[r := req]))
  {
    RequestStepKeeps(s, r, s.(requests := s.requests[r := req]));
  }

  lemma {:induction false} RecordKeeps(s: System, r: nat)
    requires Inv(s) && At(s, r) && s.requests[r].phase.Charging?
    requires s.requests[r].phase.window == |s.requests[r].policies[s.requests[r].phase.policy].windows|
    ensures Inv(DoCharge(s, r, StoreError)) && forall answer :: DoCharge(s, r, answer) == DoCharge(s, r, StoreError)
  {
    var req := s.requests[r];
    var Charging(i, w, estimate) := req.phase;
    var p := req.policies[i];
    var req' := DoCharge(s, r, StoreError).requests[r];
    forall key ensures Held(req', key) == Held(req, key) {
      ReservedAppend(req.reservations, Records(p, w, estimate), key);
      RecordsStandForCharges(p, w, estimate, key);
    }
    QuietStepKeeps(s, r, req');
  }

  lemma {:induction false} IncrKeeps(s: System, r: nat, key: string, estimate: nat, phase: Phase)
    requires Inv(s) && At(s, r) && PhaseOk(s.requests[r].(phase := phase))
    requires s.requests[r].phase.Charging? && !phase.Settling? && !phase.Finished?
    requires forall k ::
               Held(s.requests[r].(phase := phase), k) == Held(s.requests[r], k) + (if k == key then estimate else 0)
    ensures Inv(SetPhase(s.(counts := Incr(s.counts, key, estimate)), r, phase))
  {
    var s' := SetPhase(s.(counts := Incr(s.counts, key, estimate)), r, phase);
    assert SettledOk(s.requests[r]);
    assert forall i :: 0 <= i < |s.requests[r].reservations| ==> s.requests[r].reservations[i].settled == None;
    RequestStepKeeps(s, r, s');
  }

  lemma {:induction false} ChargeKeeps(s: System, r: nat, answer: Answer)
    requires Inv(s) && At(s, r) && s.requests[r].phase.Charging?
    ensures Inv(DoCharge(s, r, answer))
  {
    var req := s.requests[r];
    var Charging(i, w, estimate) := req.phase;
    var p := req.policies[i];
    if w == |p.windows| {
      RecordKeeps(s, r);
    } else {
      var s' := DoCharge(s, r, answer);
      var phase := s'.requests[r].phase;
      assert SettledOk(req);
      if answer == StoreError || p.windows[w].burst {
        QuietStepKeeps(s, r, req.(phase := phase));
      } else {
        IncrKeeps(s, r, WindowKey(p, p.windows[w]), estimate, phase);
      }
    }
  }

  lemma {:induction false} RollbackKeeps(s: System, r: nat, storeError: bool)
    requires Inv(s) && At(s, r) && s.requests[r].phase.RollingBack?
    requires s.requests[r].phase.next < s.requests[r].phase.count
    ensures Inv(DoRollback(s, r, storeError))
  {
    var req := s.requests[r];
    var RollingBack(i, count, j, estimate, limited) := req.phase;
    var p := req.policies[i];
    var s' := DoRollback(s, r, storeError);
    forall key
      ensures Held(req, key) == Held(s'.requests[r], key)
                + (if !p.windows[j].burst && WindowKey(p, p.windows[j]) == key then estimate else 0)
    {
      ChargedFirst(p, j, count, estimate, key);
    }
    HeldIsCounted(s, r, WindowKey(p, p.windows[j]));
    RequestStepKeeps(s, r, s');
  }

  lemma {:induction false} SettleKeeps(s: System, r: nat, storeError: bool)
    requires Inv(s) && At(s, r) && s.requests[r].phase.Settling?
    ensures Inv(DoSettle(s, r, storeError))
  {
    var req := s.requests[r];
    var i := req.phase.next;
    var s' := DoSettle(s, r, storeError);
    if s'.requests[r].reservations != req.reservations {
      var res := req.reservations[i];
      var actual := Actual(res.kind, req.tokens, req.cost, req.charged);
      forall key
        ensures Held(s'.requests[r], key) == Held(req, key) - Stands(res, key) + Stands(Settle(res, actual), key)
      {
        ReservedUpdate(req.reservations, i, Settle(res, actual), key);
      }
      ReservedUpdate(req.reservations, i, res, res.key);
      HeldIsCounted(s, r, res.key);
      SettleMoves(s.counts, res, actual);
    }
    RequestStepKeeps(s, r, s');
  }

  lemma {:induction false} BeginKeeps(s: System, policies: seq<Policy>, limitKeys: set<string>)
    requires Inv(s)
    ensures Inv(Apply(s, Begin(policies, limitKeys)))
  {
    var s' := Apply(s, Begin(policies, limitKeys));
    forall key ensures Balanced(s', key) {
      assert Balanced(s, key);
      assert s'.requests[..|s.requests|] == s.requests;
    }
  }

  lemma {:induction false} MoveKeeps(s: System, step: Step)
    requires Inv(s) && Apply(s, step) != s
    requires step.StartPolicy? || step.EndRollback? || step.EndInvoke? || step.SettleAgain?
    ensures Inv(Apply(s, step))
  {
    hide Total, Balanced;
    var req := s.requests[step.r];
    var req' := Apply(s, step).requests[step.r];
    assert SettledOk(req);
    QuietStepKeeps(s, step.r, req');
  }

  lemma {:induction false} StepKeepsInv(s: System, step: Step)
    requires Inv(s)
    ensures Inv(Apply(s, step))
  {
    if Apply(s, step) != s {
      match step
      case Begin(policies, limitKeys) => BeginKeeps(s, policies, limitKeys);
      case ChargeWindow(r, answer) => ChargeKeeps(s, r, answer);
      case RollBack(r, storeError) => RollbackKeeps(s, r, storeError);
      case SettleNext(r, storeError) => SettleKeeps(s, r, storeError);
      case _ => MoveKeeps(s, step);
    }
  }

  lemma {:induction false} RunKeepsInv(steps: seq<Step>)
    ensures Inv(Run(steps))
    decreases |steps|
  {
    if steps == [] {
      forall key ensures Balanced(Initial, key) {}
    } else {
      RunKeepsInv(steps[..|steps| - 1]);
      StepKeepsInv(Run(steps[..|steps| - 1]), steps[|steps| - 1]);
    }
  }

  // ----- What the accounting promises -----

  /** In every interleaving each counter is exactly the sum, over all requests, of settled
      actuals, unsettled estimates and charges not yet rolled back, and of the rollbacks
      the store refused. */
  lemma {:induction false} CountersAreConserved(steps: seq<Step>, key: string)
    ensures AllOk(Run(steps).requests)
    ensures CountAt(Run(steps).counts, key)
            == Total(Run(steps).requests, key) + AllLost(steps, |Run(steps).requests|, key)
  {
    hide Run, AllLost, Total;
    RunKeepsInv(steps);
    LeaksAreAttributed(steps, key);
    assert Balanced(Run(steps), key);
  }

  /** What a step loses on the counter of `key`: the charge of a rollback the store refuses,
      an error the limiter ignores. */
  function LostAt(s: System, step: Step, key: string): nat {
    if step.RollBack? && step.storeError && At(s, step.r) && s.requests[step.r].phase.RollingBack?
       && PhaseOk(s.requests[step.r]) && s.requests[step.r].phase.next < s.requests[step.r].phase.count
    then
      var req := s.requests[step.r];
      var p := req.policies[req.phase.policy];
      var w := p.windows[req.phase.next];
      if !w.burst && WindowKey(p, w) == key then req.phase.estimate else 0
    else 0
  }

  lemma {:induction false} OneRequestMoves(s: System, step: Step, key: string)
    requires !step.Begin? && At(s, step.r)
    ensures var s' := Apply(s, step);
            && At(s', step.r) && s'.requests == s.requests[step.r := s'.requests[step.r]]
            && LeakedAt(s', key) == LeakedAt(s, key) + LostAt(s, step, key)
  {
    hide Settle, Incr, Refund, Records, Actual, SettleCounts;
  }

  /** A step of a request moves every counter by what it changes in the request, plus what
      it loses. */
  lemma {:induction false} StepIsAccounted(s: System, step: Step, key: string)
    requires Inv(s) && !step.Begin? && At(s, step.r)
    ensures var s' := Apply(s, step);
            AllOk(s.requests) && AllOk(s'.requests) && At(s', step.r)
            && CountAt(s'.counts, key) - CountAt(s.counts, key)
               == Held(s'.requests[step.r], key) - Held(s.requests[step.r], key) + LostAt(s, step, key)
  {
    hide Held, Total, SettledOk, PhaseOk, LostAt;
    StepKeepsInv(s, step);
    OneRequestMoves(s, step, key);
    var s' := Apply(s, step);
    assert Balanced(s, key) && Balanced(s', key);
    hide Apply;
    TotalUpdate(s.requests, step.r, s'.requests[step.r], key);
  }

  /** What a step means to take from the counter of `key`: the charge of the window a rollback
      has come to, or the part of a reservation that was not used (less than nothing if more
      was used). */
  function Due(s: System, step: Step, key: string): int {
    if step.Begin? || !At(s, step.r) || !PhaseOk(s.requests[step.r]) then 0
    else
      var req := s.requests[step.r];
      if step.RollBack? && req.phase.RollingBack? && req.phase.next < req.phase.count then
        var p := req.policies[req.phase.policy];
        var w := p.windows[req.phase.next];
        if !w.burst && WindowKey(p, w) == key then req.phase.estimate else 0
      else if step.SettleNext? && req.phase.Settling? && req.phase.next < |req.reservations| then
        var r := req.reservations[req.phase.next];
        if r.settled == None && !r.burst && r.key == key
        then r.estimate - Actual(r.kind, req.tokens, req.cost, req.charged) else 0
      else 0
  }

  lemma {:induction false} RollbackTakes(s: System, step: Step, key: string)
    requires step.RollBack? && At(s, step.r) && PhaseOk(s.requests[step.r]) && !step.storeError
    ensures var s' := Apply(s, step);
            At(s', step.r) && PhaseOk(s'.requests[step.r])
            && Held(s'.requests[step.r], key) == Held(s.requests[step.r], key) - Due(s, step, key)
  {
    var req := s.requests[step.r];
    if req.phase.RollingBack? && req.phase.next < req.phase.count {
      ChargedFirst(req.policies[req.phase.policy], req.phase.next, req.phase.count, req.phase.estimate, key);
    }
  }

  lemma {:induction false} SettlementTakes(s: System, step: Step, key: string)
    requires step.SettleNext? && At(s, step.r) && PhaseOk(s.requests[step.r]) && !step.storeError
    ensures var s' := Apply(s, step);
            At(s', step.r) && PhaseOk(s'.requests[step.r])
            && Held(s'.requests[step.r], key) == Held(s.requests[step.r], key) - Due(s, step, key)
  {
    hide Actual, ReservedOn;
    var req := s.requests[step.r];
    if req.phase.Settling? && req.phase.next < |req.reservations| {
      var r := req.reservations[req.phase.next];
      var actual := Actual(r.kind, req.tokens, req.cost, req.charged);
      ReservedUpdate(req.reservations, req.phase.next, Settle(r, actual), key);
    }
  }

  /** The floor at 0 never cuts a refund: when a rollback or a settlement comes to take an
      amount from a counter, the counter has it, and goes down by just that. */
  lemma {:induction false} RefundsAreExact(steps: seq<Step>, step: Step, key: string)
    requires step.RollBack? || step.SettleNext?
    requires At(Run(steps), step.r) && !step.storeError
    ensures var s := Run(steps); var due := Due(s, step, key);
            CountAt(s.counts, key) >= due && CountAt(Apply(s, step).counts, key) == CountAt(s.counts, key) - due
  {
    hide Run, Held, PhaseOk, Apply, Due, Total;
    var s := Run(steps);
    RunKeepsInv(steps);
    StepIsAccounted(s, step, key);
    if step.RollBack? { RollbackTakes(s, step, key); } else { SettlementTakes(s, step, key); }
    StepKeepsInv(s, step);
    assert Balanced(Apply(s, step), key);
  }

  // ----- What each request adds to a counter -----

  /** What the steps of request r have lost. */
  function LostBy(steps: seq<Step>, r: nat, key: string): nat
    decreases |steps|
  {
    if steps == [] then 0
    else
      var before, step := steps[..|steps| - 1], steps[|steps| - 1];
      LostBy(before, r, key) + (if !step.Begin? && step.r == r then LostAt(Run(before), step, key) else 0)
  }

  /** The sum of all changes the steps of request r made to the counter. */
  function Contribution(steps: seq<Step>, r: nat, key: string): int
    decreases |steps|
  {
    if steps == [] then 0
    else
      var before, step := steps[..|steps| - 1], steps[|steps| - 1];
      Contribution(before, r, key)
      + (if !step.Begin? && step.r == r then CountAt(Run(steps).counts, key) - CountAt(Run(before).counts, key) else 0)
  }

  lemma {:induction false} IdleStep(s: System, step: Step, key: string)
    requires !step.Begin? && !At(s, step.r)
    ensures Apply(s, step) == s && LostAt(s, step, key) == 0
  {}

  lemma {:induction false} BeginAdds(s: System, step: Step, key: string)
    requires step.Begin?
    ensures var s' := Apply(s, step);
            && s'.requests[..|s.requests|] == s.requests && |s'.requests| == |s.requests| + 1
            && s'.leaked == s.leaked && s'.counts == s.counts
            && PhaseOk(s'.requests[|s.requests|]) && Held(s'.requests[|s.requests|], key) == 0
  {}

  /** A request has added to a counter what it holds there and what it lost there. */
  lemma {:induction false} ContributionIs(steps: seq<Step>, r: nat, key: string)
    ensures AllOk(Run(steps).requests)
    ensures if At(Run(steps), r)
            then Contribution(steps, r, key) == Held(Run(steps).requests[r], key) + LostBy(steps, r, key)
            else Contribution(steps, r, key) == 0 && LostBy(steps, r, key) == 0
    decreases |steps|
  {
    hide Apply, Inv, Held, LostAt, PhaseOk;
    RunKeepsInv(steps);
    InvIsOk(Run(steps));
    if steps != [] {
      var before, step := steps[..|steps| - 1], steps[|steps| - 1];
      var s := Run(before);
      ContributionIs(before, r, key);
      RunKeepsInv(before);
      if step.Begin? {
        BeginAdds(s, step, key);
        assert r < |s.requests| ==> Run(steps).requests[r] == s.requests[r];
      } else if At(s, step.r) {
        StepIsAccounted(s, step, key);
        OneRequestMoves(s, step, key);
      } else {
        IdleStep(s, step, key);
      }
    }
  }

  lemma {:induction false} InvIsOk(s: System)
    requires Inv(s)
    ensures AllOk(s.requests)
  {}

  ghost function AllLost(steps: seq<Step>, n: nat, key: string): nat {
    if n == 0 then 0 else AllLost(steps, n - 1, key) + LostBy(steps, n - 1, key)
  }

  lemma {:induction false} OneLoses(before: seq<Step>, steps: seq<Step>, n: nat, r: nat, key: string, lost: nat)
    requires forall i: nat :: LostBy(steps, i, key) == LostBy(before, i, key) + (if i == r then lost else 0)
    ensures AllLost(steps, n, key) == AllLost(before, n, key) + (if r < n then lost else 0)
  {
    hide LostBy;
    if n > 0 { OneLoses(before, steps, n - 1, r, key, lost); }
  }

  /** Every rollback the store refused belongs to one request. */
  lemma {:induction false} LeaksAreAttributed(steps: seq<Step>, key: string)
    ensures LeakedAt(Run(steps), key) == AllLost(steps, |Run(steps).requests|, key)
    decreases |steps|
  {
    if steps != [] {
      hide Apply, LostAt, Inv;
      var before, step := steps[..|steps| - 1], steps[|steps| - 1];
      var s := Run(before);
      LeaksAreAttributed(before, key);
      var r: nat := if step.Begin? then 0 else step.r;
      var lost := if step.Begin? then 0 else LostAt(s, step, key);
      OneLoses(before, steps, |s.requests|, r, key, lost);
      if step.Begin? {
        BeginAdds(s, step, key);
        ContributionIs(steps, |s.requests|, key);
        NotYetLost(before, |s.requests|, key);
      } else if At(s, step.r) {
        OneRequestMoves(s, step, key);
      } else {
        IdleStep(s, step, key);
      }
    }
  }

  lemma {:induction false} NotYetLost(steps: seq<Step>, r: nat, key: string)
    requires !At(Run(steps), r)
    ensures LostBy(steps, r, key) == 0
  {
    ContributionIs(steps, r, key);
  }

  lemma {:induction false} LostNothingIff(steps: seq<Step>, r: nat, key: string)
    ensures LostBy(steps, r, key) == 0 <==> forall i :: 0 <= i < |steps| ==> !Refused(steps, i, r, key)
    decreases |steps|
  {
    hide LostAt, Run;
    if steps != [] {
      var n := |steps| - 1;
      LostNothingIff(steps[..n], r, key);
      assert forall i :: 0 <= i < n ==> steps[..n][..i] == steps[..i] && steps[..n][i] == steps[i];
      assert forall i :: 0 <= i < n ==> (Refused(steps[..n], i, r, key) <==> Refused(steps, i, r, key));
      assert Refused(steps, n, r, key) <==>
               !steps[n].Begin? && steps[n].r == r && LostAt(Run(steps[..n]), steps[n], key) > 0;
    }
  }

  /** Step i is a rollback of a positive charge of request r that the store refuses. */
  predicate Refused(steps: seq<Step>, i: nat, r: nat, key: string)
    requires i < |steps|
  {
    !steps[i].Begin? && steps[i].r == r && LostAt(Run(steps[..i]), steps[i], key) > 0
  }

  ghost predicate AllSettled(req: Request) {
    forall i :: 0 <= i < |req.reservations| ==> req.reservations[i].settled.Some?
  }

  function RunFrom(s: System, steps: seq<Step>): System
    decreases |steps|
  {
    if steps == [] then s else Apply(RunFrom(s, steps[..|steps| - 1]), steps[|steps| - 1])
  }

  /** Settling again charges nothing twice: once a call's reservations are settled, any
      number of further passes, with or without store errors, changes no counter. */
  lemma {:induction false} SettlingAgainIsFree(s: System, r: nat, steps: seq<Step>)
    requires At(s, r) && AllSettled(s.requests[r]) && (s.requests[r].phase.Finished? || s.requests[r].phase.Settling?)
    requires forall i :: 0 <= i < |steps| ==> !steps[i].Begin? && steps[i].r == r
    ensures var s' := RunFrom(s, steps);
            && s'.counts == s.counts && s'.leaked == s.leaked && At(s', r)
            && s'.requests[r].reservations == s.requests[r].reservations
            && (s'.requests[r].phase.Finished? || s'.requests[r].phase.Settling?)
    decreases |steps|
  {
    if steps != [] { SettlingAgainIsFree(s, r, steps[..|steps| - 1]); }
  }

  lemma {:induction false} SettledStands(s: System, step: Step, r: nat, i: nat)
    requires Inv(s) && At(s, r) && i < |s.requests[r].reservations| && s.requests[r].reservations[i].settled.Some?
    ensures At(Apply(s, step), r) && i < |Apply(s, step).requests[r].reservations|
    ensures Apply(s, step).requests[r].reservations[i] == s.requests[r].reservations[i]
  {
    assert SettledOk(s.requests[r]);
  }

  /** A pass cut short by a store error leaves the rest to the next pass: whatever follows, of
      any request, a settled reservation stays as it is. */
  lemma {:induction false} SettledStaysSettled(steps: seq<Step>, more: seq<Step>, r: nat, i: nat)
    requires At(Run(steps), r) && i < |Run(steps).requests[r].reservations|
    requires Run(steps).requests[r].reservations[i].settled.Some?
    ensures At(Run(steps + more), r) && i < |Run(steps + more).requests[r].reservations|
    ensures Run(steps + more).requests[r].reservations[i] == Run(steps).requests[r].reservations[i]
    decreases |more|
  {
    hide Apply, Inv;
    if more == [] {
      assert steps + more == steps;
    } else {
      var n := |more| - 1;
      assert (steps + more)[..|steps + more| - 1] == steps + more[..n];
      SettledStaysSettled(steps, more[..n], r, i);
      RunKeepsInv(steps + more[..n]);
      SettledStands(Run(steps + more[..n]), more[n], r, i);
    }
  }

  /** A window lets a charge pass if and only if the store answers and, for a burst window, its
      bucket allows it, for a fixed window, everything on its counter, of all requests and
      with this charge, is within the threshold. Otherwise what this attempt has charged so
      far is rolled back. */
  lemma {:induction false} AdmittedIffWithinThreshold(steps: seq<Step>, r: nat, answer: Answer)
    requires At(Run(steps), r) && Run(steps).requests[r].phase.Charging?
    requires var req := Run(steps).requests[r];
             req.phase.policy < |req.policies| && req.phase.window < |req.policies[req.phase.policy].windows|
    ensures var more := steps + [ChargeWindow(r, answer)];
            var Charging(i, w, estimate) := Run(steps).requests[r].phase; var p := Run(steps).requests[r].policies[i];
            && AllOk(Run(more).requests) && At(Run(more), r)
            && Run(more).requests[r].phase
               == if answer == StoreError then RollingBack(i, w, 0, estimate, false)
                  else if p.windows[w].burst then
                    (if answer.allowed then Charging(i, w + 1, estimate) else RollingBack(i, w, 0, estimate, true))
                  else if Total(Run(more).requests, WindowKey(p, p.windows[w]))
                          + AllLost(more, |Run(more).requests|, WindowKey(p, p.windows[w])) <= p.windows[w].threshold
                  then Charging(i, w + 1, estimate)
                  else RollingBack(i, w + 1, 0, estimate, true)
  {
    hide AllLost, Total;
    var more := steps + [ChargeWindow(r, answer)];
    assert more[..|steps|] == steps;
    RunKeepsInv(steps);
    var Charging(i, w, estimate) := Run(steps).requests[r].phase;
    var p := Run(steps).requests[r].policies[i];
    CountersAreConserved(more, WindowKey(p, p.windows[w]));
  }

  /** A policy is tried again only if it was over its limit and waits for capacity, and only
      after everything the attempt charged has been dealt with; in every other case the
      call is rejected. */
  lemma {:induction false} OnlyWaitingPoliciesRetry(steps: seq<Step>, step: Step, r: nat)
    requires At(Run(steps), r) && Run(steps).requests[r].phase.RollingBack?
    ensures var req := Run(steps).requests[r]; var s' := Apply(Run(steps), step);
            && At(s', r)
            && (s'.requests[r].phase.RollingBack?
                || (step == EndRollback(r, true) && req.phase.next == req.phase.count && req.phase.limited
                    && req.phase.policy < |req.policies| && req.policies[req.phase.policy].waits
                    && s'.requests[r].phase == Admitting(req.phase.policy))
                || (step.EndRollback? && step.r == r && req.phase.next == req.phase.count
                    && (step.again && req.phase.limited ==> !req.policies[req.phase.policy].waits)
                    && s'.requests[r].phase == Settling(0)))
  {
    hide Run, Settle, Incr, Refund, Records, Actual, SettleCounts;
    RunKeepsInv(steps);
  }
}
