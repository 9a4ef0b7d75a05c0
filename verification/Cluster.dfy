/** Calls with retry over the endpoints of a model, and fallback over models. Discovery,
    routers, load balancers, breakers and providers answer through the attempt records. */
module Cluster {
  import opened Options

  /** An error, by the tests the callers make on it. */
  datatype Error = Error(noEndpoint: bool, fatalNoEndpoint: bool, disconnected: bool, nonRetryable: bool, matched: bool)

  const NoEndpoint := Error(true, false, false, false, false)
  const NoBalancer := Error(false, false, false, false, false)

  datatype Discovery = Listed(endpoints: seq<string>) | Unlisted(error: Error)

  /** What the surroundings answer in one attempt: the endpoint IDs discovered, the IDs each
      router keeps, a fatal error raised while routing or selecting, whether there is a load
      balancer, the position it picks, whether the endpoint has its own provider, the
      breaker's refusal, the call's error, whether it sent its first byte, whether it was
      slow. */
  datatype Attempt = Attempt(discovery: Discovery, routers: seq<set<string>>, routeFatal: Option<Error>,
                             balancer: bool, pick: Option<nat>, selectFatal: Option<Error>, direct: bool,
                             refusal: Option<Error>, outcome: Option<Error>, firstByte: bool, slow: bool)

  datatype Config = Config(retries: int, exclude: bool, roundRobin: bool)

  datatype Event =
    | Begun(id: string)
    | Called(id: string, firstByte: bool, outcome: Option<Error>, slow: bool)
    | Recorded(id: string, ok: bool)
    | Ended(id: string)

  /** The request context and the variables of the retry loop. */
  datatype State = State(firstByte: bool, fatal: Option<Error>, excluded: set<string>, last: string, log: seq<Event>)

  datatype Step = Stop(result: Option<Error>, s: State) | Again(error: Error, s: State)

  // ----- Searches -----

  function Without(endpoints: seq<string>, excluded: set<string>): (r: seq<string>)
    ensures forall id :: id in r <==> id in endpoints && id !in excluded
  {
    if endpoints == [] then []
    else
      var n := |endpoints| - 1;
      assert endpoints == endpoints[..n] + [endpoints[n]];
      Without(endpoints[..n], excluded) + (if endpoints[n] in excluded then [] else [endpoints[n]])
  }

  function Keep(endpoints: seq<string>, keep: set<string>): (r: seq<string>)
    ensures forall id :: id in r <==> id in endpoints && id in keep
  {
    if endpoints == [] then []
    else
      var n := |endpoints| - 1;
      assert endpoints == endpoints[..n] + [endpoints[n]];
      Keep(endpoints[..n], keep) + (if endpoints[n] in keep then [endpoints[n]] else [])
  }

  /** The routers in order; an empty result stays empty. */
  function Route(endpoints: seq<string>, routers: seq<set<string>>): (r: seq<string>)
    ensures forall id :: id in r <==> id in endpoints && forall i :: 0 <= i < |routers| ==> id in routers[i]
    decreases |routers|
  {
    if routers == [] then endpoints else Keep(Route(endpoints, routers[..|routers| - 1]), routers[|routers| - 1])
  }

  /** The endpoint `step` places after the previous one, going round; the previous one is
      the first with that ID, or stands before the first if there is none. */
  function PlaceAfter(endpoints: seq<string>, start: int, step: nat): string
    requires endpoints != [] && -1 <= start < |endpoints| && step >= 1
  {
    endpoints[(start + step) % |endpoints|]
  }

  ghost predicate IsFirst(endpoints: seq<string>, id: string, n: nat, i: int)
    requires n <= |endpoints|
  {
    && -1 <= i < n && (i >= 0 ==> endpoints[i] == id)
    && forall j :: 0 <= j < (if i < 0 then n else i) ==> endpoints[j] != id
  }

  function FirstIndex(endpoints: seq<string>, id: string): (i: int)
    ensures IsFirst(endpoints, id, |endpoints|, i)
    decreases |endpoints|
  {
    if endpoints == [] then -1
    else
      var n := |endpoints| - 1;
      var i := FirstIndex(endpoints[..n], id);
      if i >= 0 then i else if endpoints[n] == id then n else -1
  }

  /** The first endpoint after the previous one that is not ruled out. */
  function NextFrom(endpoints: seq<string>, excluded: set<string>, start: int, step: nat): Option<string>
    requires -1 <= start < |endpoints| && 1 <= step <= |endpoints| + 1
    decreases |endpoints| + 1 - step
  {
    if step > |endpoints| then None
    else if PlaceAfter(endpoints, start, step) !in excluded then Some(PlaceAfter(endpoints, start, step))
    else NextFrom(endpoints, excluded, start, step + 1)
  }

  function NextAfter(endpoints: seq<string>, excluded: set<string>, previous: string): Option<string> {
    if endpoints == [] then None else NextFrom(endpoints, excluded, FirstIndex(endpoints, previous), 1)
  }

  lemma {:induction false} NextFromFinds(endpoints: seq<string>, excluded: set<string>, start: int, step: nat)
    requires -1 <= start < |endpoints| && 1 <= step <= |endpoints| + 1
    ensures match NextFrom(endpoints, excluded, start, step)
            case None => forall j :: step <= j <= |endpoints| ==> PlaceAfter(endpoints, start, j) in excluded
            case Some(id) =>
              exists k :: && step <= k <= |endpoints| && PlaceAfter(endpoints, start, k) == id && id !in excluded
                          && forall j :: step <= j < k ==> PlaceAfter(endpoints, start, j) in excluded
    decreases |endpoints| + 1 - step
  {
    if step <= |endpoints| {
      if PlaceAfter(endpoints, start, step) in excluded {
        NextFromFinds(endpoints, excluded, start, step + 1);
      } else {
        assert PlaceAfter(endpoints, start, step) == NextFrom(endpoints, excluded, start, step).value;
      }
    }
  }

  /** Going round once passes every endpoint. */
  lemma {:induction false} RoundPasses(endpoints: seq<string>, start: int, i: nat)
    requires -1 <= start < |endpoints| && i < |endpoints|
    ensures exists step :: 1 <= step <= |endpoints| && PlaceAfter(endpoints, start, step) == endpoints[i]
  {
    var n := |endpoints|;
    var step := if i > start then i - start else i - start + n;
    assert 1 <= step <= n;
    if i > start {
      assert (start + step) % n == i;
    } else {
      assert start + step == i + n;
      assert (start + step) % n == i;
    }
    assert PlaceAfter(endpoints, start, step) == endpoints[i];
  }

  /** The cursor search finds an endpoint exactly if one is not ruled out. */
  lemma {:induction false} NextAfterFinds(endpoints: seq<string>, excluded: set<string>, previous: string)
    ensures NextAfter(endpoints, excluded, previous) == None <==> forall id :: id in endpoints ==> id in excluded
    ensures var next := NextAfter(endpoints, excluded, previous);
            next.Some? ==> next.value in endpoints && next.value !in excluded
  {
    if endpoints != [] {
      var start := FirstIndex(endpoints, previous);
      NextFromFinds(endpoints, excluded, start, 1);
      if NextAfter(endpoints, excluded, previous) == None {
        forall id | id in endpoints ensures id in excluded {
          var i :| 0 <= i < |endpoints| && endpoints[i] == id;
          RoundPasses(endpoints, start, i);
        }
      }
    }
  }

  // ----- One attempt -----

  predicate HasRemaining(endpoints: seq<string>, excluded: set<string>) {
    exists i :: 0 <= i < |endpoints| && endpoints[i] !in excluded
  }

  /** The IDs of discovered endpoints that did not survive the routers. */
  function RuledOut(endpoints: seq<string>, filtered: seq<string>): set<string> {
    (set id | id in endpoints) - (set id | id in filtered)
  }

  function Selection(cfg: Config, at: Attempt, last: string, endpoints: seq<string>, filtered: seq<string>)
    : Option<string>
    requires filtered != []
  {
    if cfg.roundRobin && last != "" then
      var next := NextAfter(endpoints, RuledOut(endpoints, filtered), last);
      if next.Some? && !at.direct && at.pick == None then None else next
    else if at.pick == None then None
    else Some(filtered[at.pick.value % |filtered|])
  }

  /** The breaker hears of a call unless the client left or the error says nothing about
      the endpoint. */
  function Feedback(outcome: Option<Error>, slow: bool, id: string): seq<Event> {
    match outcome
    case None => [Recorded(id, !slow)]
    case Some(e) => if e.disconnected || e.nonRetryable then [] else [Recorded(id, false)]
  }

  function CallEvents(at: Attempt, id: string): seq<Event> {
    [Begun(id), Called(id, at.firstByte, at.outcome, at.slow)] + Feedback(at.outcome, at.slow, id) + [Ended(id)]
  }

  function Invoked(cfg: Config, at: Attempt, s: State, id: string, endpoints: seq<string>, more: bool): Step {
    var s := s.(firstByte := s.firstByte || at.firstByte, log := s.log + CallEvents(at, id));
    if at.outcome == None then Stop(None, s)
    else
      var e := at.outcome.value;
      if e.disconnected || e.nonRetryable || s.firstByte || !e.matched then Stop(Some(e), s)
      else
        var s := if cfg.exclude then s.(excluded := s.excluded + {id}) else s;
        if !more then Stop(Some(e), s)
        else if !HasRemaining(endpoints, s.excluded) then Stop(Some(NoEndpoint), s)
        else Again(e, s)
  }

  function Selected(cfg: Config, at: Attempt, s: State, id: string, endpoints: seq<string>, more: bool): Step {
    var s := s.(last := id);
    if at.refusal.Some? then
      if !cfg.exclude then Stop(at.refusal, s)
      else
        var s := s.(excluded := s.excluded + {id});
        if more then Again(at.refusal.value, s) else Stop(at.refusal, s)
    else Invoked(cfg, at, s, id, endpoints, more)
  }

  function Raise(fatal: Option<Error>, raised: Option<Error>): Option<Error> { if raised.Some? then raised else fatal }

  function One(cfg: Config, at: Attempt, s: State, more: bool): Step {
    match at.discovery
    case Unlisted(e) => Stop(Some(e), s)
    case Listed(endpoints) =>
      var filtered := Without(endpoints, s.excluded);
      if filtered == [] then Stop(Some(NoEndpoint), s)
      else
        var filtered := Route(filtered, at.routers);
        var s := s.(fatal := Raise(s.fatal, at.routeFatal));
        if filtered == [] then Stop(Some(NoEndpoint), s)
        else if s.fatal.Some? then Stop(s.fatal, s)
        else if !at.balancer then Stop(Some(NoBalancer), s)
        else
          var s := s.(fatal := Raise(s.fatal, at.selectFatal));
          var id := Selection(cfg, at, s.last, endpoints, filtered);
          if id == None then Stop(Some(if s.fatal.Some? then s.fatal.value else NoEndpoint), s)
          else Selected(cfg, at, s, id.value, endpoints, more)
  }

  // ----- The retry loop -----

  function MaxAttempts(cfg: Config): nat { if cfg.retries + 1 < 1 then 1 else cfg.retries + 1 }

  /** Attempts number a, a+1, ... against the answers env(a), env(a+1), ... */
  function Attempts(cfg: Config, env: nat -> Attempt, s: State, a: nat): (Option<Error>, State)
    requires a < MaxAttempts(cfg)
    decreases MaxAttempts(cfg) - a
  {
    match One(cfg, env(a), s, a + 1 < MaxAttempts(cfg))
    case Stop(e, s') => (e, s')
    case Again(e, s') => if a + 1 < MaxAttempts(cfg) then Attempts(cfg, env, s', a + 1) else (Some(e), s')
  }

  /** The context without the variables of a retry loop. */
  function Context(s: State): State { s.(excluded := {}, last := "") }

  /** A call of the cluster, with its own loop variables. */
  function Cluster(cfg: Config, env: nat -> Attempt, s: State): (Option<Error>, State) {
    var (e, s') := Attempts(cfg, env, Context(s), 0);
    (e, Context(s'))
  }

  // ----- Fallback over models -----

  predicate CanFallback(err: Option<Error>, s: State, affinity: bool) {
    && err.Some? && !err.value.fatalNoEndpoint
    && s.fatal == None && !s.firstByte && !affinity
    && err.value.noEndpoint
  }

  /** The models from number k on; the answers for model k are env(k). */
  function Models(cfg: Config, env: nat -> nat -> Attempt, s: State, affinity: bool, k: nat, count: nat)
    : (Option<Error>, State)
    requires k < count
    decreases count - k
  {
    var (e, s') := Cluster(cfg, env(k), s);
    if CanFallback(e, s', affinity) && k + 1 < count then Models(cfg, env, s', affinity, k + 1, count) else (e, s')
  }

  /** How many models are tried. */
  function Tried(cfg: Config, env: nat -> nat -> Attempt, s: State, affinity: bool, k: nat, count: nat): (n: nat)
    requires k < count
    ensures 1 <= n <= count - k
    decreases count - k
  {
    var (e, s') := Cluster(cfg, env(k), s);
    if CanFallback(e, s', affinity) && k + 1 < count then 1 + Tried(cfg, env, s', affinity, k + 1, count) else 1
  }

  function Fallback(cfg: Config, env: nat -> nat -> Attempt, s: State, affinity: bool, targets: nat)
    : (Option<Error>, State)
  {
    Models(cfg, env, s, affinity, 0, targets + 1)
  }

  // ----- The calls made -----

  function CallsOf(log: seq<Event>): (calls: seq<Event>)
    ensures forall i :: 0 <= i < |calls| ==> calls[i].Called?
    decreases |log|
  {
    if log == [] then []
    else CallsOf(log[..|log| - 1]) + (if log[|log| - 1].Called? then [log[|log| - 1]] else [])
  }

  lemma {:induction false} CallsConcat(log: seq<Event>, more: seq<Event>)
    ensures CallsOf(log + more) == CallsOf(log) + CallsOf(more)
    decreases |more|
  {
    if more == [] {
      assert log + more == log;
    } else {
      var n := |more| - 1;
      assert (log + more)[..|log + more| - 1] == log + more[..n];
      CallsConcat(log, more[..n]);
    }
  }

  lemma {:induction false} OneCall(at: Attempt, id: string)
    ensures CallsOf(CallEvents(at, id)) == [Called(id, at.firstByte, at.outcome, at.slow)]
  {
    var call := Called(id, at.firstByte, at.outcome, at.slow);
    CallsConcat([Begun(id), call] + Feedback(at.outcome, at.slow, id), [Ended(id)]);
    CallsConcat([Begun(id), call], Feedback(at.outcome, at.slow, id));
    assert CallsOf([Begun(id), call]) == [call] by {
      assert [Begun(id), call][..1] == [Begun(id)];
    }
    assert CallsOf(Feedback(at.outcome, at.slow, id)) == [];
    assert CallsOf([Ended(id)]) == [];
  }

  /** After such a call the cluster makes no other. */
  predicate Final(call: Event)
    requires call.Called?
  {
    || call.firstByte || call.outcome == None
    || call.outcome.value.disconnected || call.outcome.value.nonRetryable || !call.outcome.value.matched
  }

  ghost predicate DistinctIds(calls: seq<Event>) {
    forall i, j :: 0 <= i < j < |calls| ==> calls[i].id != calls[j].id
  }

  /** What a selection may be: a discovered endpoint that is not excluded. */
  lemma {:induction false} SelectionIsNew(cfg: Config, at: Attempt, last: string, endpoints: seq<string>,
                                          excluded: set<string>)
    requires Route(Without(endpoints, excluded), at.routers) != []
    ensures var id := Selection(cfg, at, last, endpoints, Route(Without(endpoints, excluded), at.routers));
            id.Some? ==> id.value in endpoints && id.value !in excluded
                         && forall i :: 0 <= i < |at.routers| ==> id.value in at.routers[i]
  {
    hide NextAfter;
    var filtered := Route(Without(endpoints, excluded), at.routers);
    NextAfterFinds(endpoints, RuledOut(endpoints, filtered), last);
    if at.pick.Some? {
      assert filtered[at.pick.value % |filtered|] in filtered;
    }
  }

  /** What one attempt does to the calls: at most one more, to an endpoint not excluded. It
      is the last if it is final; otherwise its endpoint is excluded from now on. */
  ghost predicate Steps(cfg: Config, s: State, step: Step, more: bool, calls: seq<Event>) {
    && CallsOf(step.s.log) == CallsOf(s.log) + calls && |calls| <= 1
    && step.s.firstByte == (s.firstByte || (calls != [] && calls[0].Called? && calls[0].firstByte))
    && (forall i :: 0 <= i < |calls| ==> calls[i].Called? && calls[i].id !in s.excluded)
    && (step.Stop? ==> (step.result == None <==> calls != [] && calls[0].outcome == None))
    && (step.Again? ==> more && step.s.firstByte == s.firstByte && (calls != [] ==> !Final(calls[0])))
    && (step.Again? && cfg.exclude ==> s.excluded + (set c | c in calls :: c.id) <= step.s.excluded)
  }

  lemma {:induction false} InvokedSteps(cfg: Config, at: Attempt, s: State, id: string, endpoints: seq<string>,
                                        more: bool)
    requires id !in s.excluded
    ensures var call := Called(id, at.firstByte, at.outcome, at.slow);
            Steps(cfg, s, Invoked(cfg, at, s, id, endpoints, more), more, [call])
  {
    hide CallsOf, CallEvents, HasRemaining;
    OneCall(at, id);
    CallsConcat(s.log, CallEvents(at, id));
  }

  lemma {:induction false} OneSteps(cfg: Config, at: Attempt, s: State, more: bool) returns (calls: seq<Event>)
    ensures Steps(cfg, s, One(cfg, at, s, more), more, calls)
  {
    hide Selection, CallsOf, Invoked, Route, Without;
    calls := [];
    assert CallsOf(s.log) + [] == CallsOf(s.log);
    if at.discovery.Listed? {
      var endpoints := at.discovery.endpoints;
      var filtered := Route(Without(endpoints, s.excluded), at.routers);
      if filtered != [] {
        SelectionIsNew(cfg, at, s.last, endpoints, s.excluded);
        var id := Selection(cfg, at, s.last, endpoints, filtered);
        var fatal := Raise(s.fatal, at.routeFatal);
        if fatal == None && at.balancer && id.Some? && at.refusal == None {
          calls := [Called(id.value, at.firstByte, at.outcome, at.slow)];
          InvokedSteps(cfg, at, s.(fatal := Raise(fatal, at.selectFatal), last := id.value), id.value, endpoints, more);
        }
      }
    }
  }

  /** The calls of one run of the retry loop. */
  ghost predicate RunsCalls(cfg: Config, s: State, a: nat, result: Option<Error>, s': State, calls: seq<Event>) {
    && CallsOf(s'.log) == CallsOf(s.log) + calls && a + |calls| <= MaxAttempts(cfg)
    && (forall i :: 0 <= i < |calls| ==> calls[i].Called?)
    && (forall i :: 0 <= i < |calls| - 1 ==> !Final(calls[i]))
    && (result == None <==> calls != [] && calls[|calls| - 1].outcome == None)
    && s'.firstByte == (s.firstByte || (calls != [] && calls[|calls| - 1].firstByte))
    && (cfg.exclude ==> DistinctIds(calls) && forall i :: 0 <= i < |calls| ==> calls[i].id !in s.excluded)
  }

  lemma {:induction false} AttemptsCall(cfg: Config, env: nat -> Attempt, s: State, a: nat) returns (calls: seq<Event>)
    requires a < MaxAttempts(cfg)
    ensures var r := Attempts(cfg, env, s, a); RunsCalls(cfg, s, a, r.0, r.1, calls)
    decreases MaxAttempts(cfg) - a
  {
    hide One, CallsOf;
    var more := a + 1 < MaxAttempts(cfg);
    var step := One(cfg, env(a), s, more);
    var first := OneSteps(cfg, env(a), s, more);
    if step.Stop? {
      calls := first;
    } else {
      var rest := AttemptsCall(cfg, env, step.s, a + 1);
      calls := first + rest;
      var (outcome, last) := Attempts(cfg, env, step.s, a + 1);
      MoreCalls(cfg, s, a, step.s, first, outcome, last, rest);
    }
  }

  lemma {:induction false} MoreCalls(cfg: Config, s: State, a: nat, s1: State, first: seq<Event>,
                                     result: Option<Error>, s': State, rest: seq<Event>)
    requires CallsOf(s1.log) == CallsOf(s.log) + first && |first| <= 1
    requires forall i :: 0 <= i < |first| ==> first[i].Called? && first[i].id !in s.excluded && !Final(first[i])
    requires s1.firstByte == s.firstByte && (cfg.exclude ==> s.excluded + (set c | c in first :: c.id) <= s1.excluded)
    requires RunsCalls(cfg, s1, a + 1, result, s', rest)
    requires first != [] && rest == [] ==> result.Some?
    ensures RunsCalls(cfg, s, a, result, s', first + rest)
  {
    hide CallsOf;
    assert first != [] ==> first[0] in first;
    assert CallsOf(s.log) + (first + rest) == CallsOf(s.log) + first + rest;
  }

  // ----- What the invokers promise -----

  /** One cluster call makes at most max(1, retries + 1) upstream calls, none after one that
      succeeded, sent its first byte, lost its client or may not be retried, and with
      exclusion on never two to the same endpoint. It succeeds exactly if its last upstream
      call did. */
  lemma {:induction false} ClusterIsBounded(cfg: Config, env: nat -> Attempt, s: State) returns (calls: seq<Event>)
    ensures var (result, s') := Cluster(cfg, env, s);
            && CallsOf(s'.log) == CallsOf(s.log) + calls
            && |calls| <= (if cfg.retries + 1 < 1 then 1 else cfg.retries + 1)
            && (forall i :: 0 <= i < |calls| ==> calls[i].Called?)
            && (forall i :: 0 <= i < |calls| - 1 ==> !Final(calls[i]))
            && (cfg.exclude ==> DistinctIds(calls))
            && (result == None <==> calls != [] && calls[|calls| - 1].outcome == None)
            && s'.firstByte == (s.firstByte || (calls != [] && calls[|calls| - 1].firstByte))
  {
    hide CallsOf, Attempts;
    calls := AttemptsCall(cfg, env, Context(s), 0);
  }

  /** No call so far succeeded or sent its first byte. */
  ghost predicate NothingSent(calls: seq<Event>) {
    forall i :: 0 <= i < |calls| ==> calls[i].Called? && !calls[i].firstByte && calls[i].outcome.Some?
  }

  lemma {:induction false} ModelsCall(cfg: Config, env: nat -> nat -> Attempt, s: State, affinity: bool, k: nat,
                                      count: nat)
    returns (calls: seq<Event>)
    requires k < count && !s.firstByte
    ensures var (result, s') := Models(cfg, env, s, affinity, k, count);
            && CallsOf(s'.log) == CallsOf(s.log) + calls && |calls| <= (count - k) * MaxAttempts(cfg)
            && (calls != [] ==> NothingSent(calls[..|calls| - 1]) && calls[|calls| - 1].Called?)
            && (result == None <==> calls != [] && calls[|calls| - 1].outcome == None)
    decreases count - k
  {
    hide CallsOf, Cluster;
    var (result, s1) := Cluster(cfg, env(k), s);
    var first := ClusterIsBounded(cfg, env(k), s);
    BoundAdds(count - k, MaxAttempts(cfg));
    if CanFallback(result, s1, affinity) && k + 1 < count {
      var rest := ModelsCall(cfg, env, s1, affinity, k + 1, count);
      calls := first + rest;
      assert CallsOf(s.log) + first + rest == CallsOf(s.log) + calls;
      BoundAdds(count - k - 1, MaxAttempts(cfg));
      assert NothingSent(first);
      assert calls != [] && rest == [] ==> calls[..|calls| - 1] == first[..|first| - 1];
      assert rest != [] ==> calls[..|calls| - 1] == first + rest[..|rest| - 1];
    } else {
      calls := first;
    }
  }

  lemma {:induction false} BoundAdds(n: nat, max: nat)
    ensures n >= 1 ==> n * max == max + (n - 1) * max && (n - 1) * max >= 0
  {}

  const Fresh := State(false, None, {}, "", [])

  /** Over a whole request, models and retries together: once a call has sent its first byte
      or succeeded, no further upstream call is made to any endpoint of any model. */
  lemma {:induction false} NoCallAfterFirstByte(cfg: Config, env: nat -> nat -> Attempt, affinity: bool, targets: nat)
    ensures var (result, s) := Fallback(cfg, env, Fresh, affinity, targets); var calls := CallsOf(s.log);
            && (forall i :: 0 <= i < |calls| - 1 ==> !calls[i].firstByte && calls[i].outcome.Some?)
            && |calls| <= (targets + 1) * MaxAttempts(cfg)
            && (result == None <==> calls != [] && calls[|calls| - 1].outcome == None)
  {
    hide Models;
    var calls := ModelsCall(cfg, env, Fresh, affinity, 0, targets + 1);
    assert CallsOf(Fresh.log) + calls == calls;
  }

  // ----- Leases -----

  /** No lease; one for an endpoint; one whose call has returned so; one whose call has been
      reported to the breaker. */
  datatype Lease =
    | Idle
    | Held(id: string)
    | Returned(id: string, outcome: Option<Error>, slow: bool)
    | Heard(id: string)

  /** The call says something about its endpoint. */
  predicate Counts(outcome: Option<Error>) {
    outcome == None || (!outcome.value.disconnected && !outcome.value.nonRetryable)
  }

  /** At most one lease at a time; within it one call, then, exactly if the call counts, one
      record, a success exactly if it succeeded in time, and then its end. */
  function Follow(l: Lease, ev: Event): Option<Lease> {
    match ev
    case Begun(id) => if l.Idle? then Some(Held(id)) else None
    case Called(id, _, outcome, slow) => if l == Held(id) then Some(Returned(id, outcome, slow)) else None
    case Recorded(id, ok) =>
      if l.Returned? && l.id == id && Counts(l.outcome) && (ok <==> l.outcome == None && !l.slow)
      then Some(Heard(id)) else None
    case Ended(id) =>
      if l == Heard(id) || (l.Returned? && l.id == id && !Counts(l.outcome)) then Some(Idle) else None
  }

  function FollowAll(log: seq<Event>): Option<Lease>
    decreases |log|
  {
    if log == [] then Some(Idle)
    else
      var l := FollowAll(log[..|log| - 1]);
      if l == None then None else Follow(l.value, log[|log| - 1])
  }

  lemma {:induction false} FollowMore(log: seq<Event>, ev: Event)
    ensures FollowAll(log + [ev]) == var l := FollowAll(log); if l == None then None else Follow(l.value, ev)
  {
    assert (log + [ev])[..|log|] == log;
  }

  lemma {:induction false} CallEnds(log: seq<Event>, at: Attempt, id: string)
    requires FollowAll(log) == Some(Idle)
    ensures FollowAll(log + CallEvents(at, id)) == Some(Idle)
  {
    hide FollowAll;
    var log1 := log + [Begun(id)];
    var log2 := log1 + [Called(id, at.firstByte, at.outcome, at.slow)];
    FollowMore(log, Begun(id));
    FollowMore(log1, Called(id, at.firstByte, at.outcome, at.slow));
    var feedback := Feedback(at.outcome, at.slow, id);
    var log3 := log2 + feedback;
    if feedback == [] {
      assert log3 == log2;
    } else {
      FollowMore(log2, feedback[0]);
      assert log3 == log2 + [feedback[0]];
    }
    FollowMore(log3, Ended(id));
    assert log + CallEvents(at, id) == log3 + [Ended(id)];
  }

  lemma {:induction false} OneEnds(cfg: Config, at: Attempt, s: State, more: bool)
    requires FollowAll(s.log) == Some(Idle)
    ensures FollowAll(One(cfg, at, s, more).s.log) == Some(Idle)
  {
    hide FollowAll, CallEvents, Selection, HasRemaining;
    if at.discovery.Listed? {
      var endpoints := at.discovery.endpoints;
      var filtered := Route(Without(endpoints, s.excluded), at.routers);
      if filtered != [] {
        var id := Selection(cfg, at, s.last, endpoints, filtered);
        if id.Some? { CallEnds(s.log, at, id.value); }
      }
    }
  }

  lemma {:induction false} AttemptsEnd(cfg: Config, env: nat -> Attempt, s: State, a: nat)
    requires a < MaxAttempts(cfg) && FollowAll(s.log) == Some(Idle)
    ensures FollowAll(Attempts(cfg, env, s, a).1.log) == Some(Idle)
    decreases MaxAttempts(cfg) - a
  {
    hide One, FollowAll;
    var more := a + 1 < MaxAttempts(cfg);
    var step := One(cfg, env(a), s, more);
    OneEnds(cfg, env(a), s, more);
    if step.Again? && more { AttemptsEnd(cfg, env, step.s, a + 1); }
  }

  lemma {:induction false} ModelsEnd(cfg: Config, env: nat -> nat -> Attempt, s: State, affinity: bool, k: nat,
                                     count: nat)
    requires k < count && FollowAll(s.log) == Some(Idle)
    ensures FollowAll(Models(cfg, env, s, affinity, k, count).1.log) == Some(Idle)
    decreases count - k
  {
    hide FollowAll, Attempts;
    var (result, s1) := Cluster(cfg, env(k), s);
    AttemptsEnd(cfg, env(k), Context(s), 0);
    if CanFallback(result, s1, affinity) && k + 1 < count { ModelsEnd(cfg, env, s1, affinity, k + 1, count); }
  }

  /** Every lease begun in a request is ended, exactly once, before the next begins and
      before the request returns; before that the breaker hears of each call once, as a
      success or a failure, or not at all if the call does not count. */
  lemma {:induction false} EveryLeaseEnds(cfg: Config, env: nat -> nat -> Attempt, affinity: bool, targets: nat)
    ensures FollowAll(Fallback(cfg, env, Fresh, affinity, targets).1.log) == Some(Idle)
  {
    ModelsEnd(cfg, env, Fresh, affinity, 0, targets + 1);
  }

  // ----- The invokers as methods on the request context -----

  /** The fields of the request context the invokers share. */
  class RequestContext {
    var firstByteSent: bool
    var fatalErr: Option<Error>
    var fallbackChain: seq<string>
    ghost var log: seq<Event>

    constructor ()
      ensures !firstByteSent && fatalErr == None && fallbackChain == [] && log == []
    {
      firstByteSent, fatalErr, fallbackChain, log := false, None, [], [];
    }

    ghost function With(excluded: set<string>, last: string): State
      reads this
    {
      State(firstByteSent, fatalErr, excluded, last, log)
    }
  }

  /** A lease and its once guard: whichever of outcome and release comes first ends it. */
  class ObservedAttempt {
    const id: string
    const g: RequestContext
    var done: bool

    constructor (id: string, g: RequestContext)
      modifies g
      ensures this.id == id && this.g == g && !done
      ensures g.log == old(g.log) + [Begun(id)]
      ensures g.firstByteSent == old(g.firstByteSent) && g.fatalErr == old(g.fatalErr)
      ensures g.fallbackChain == old(g.fallbackChain)
    {
      this.id, this.g, done := id, g, false;
      new;
      g.log := g.log + [Begun(id)];
    }

    method Release()
      modifies this, g`log
      ensures done && g.log == old(g.log) + (if old(done) then [] else [Ended(id)])
    {
      if !done {
        done := true;
        g.log := g.log + [Ended(id)];
      }
    }

    method SequentialOutcome(outcome: Option<Error>, slow: bool)
      modifies this, g`log
      ensures done
      ensures g.log == if old(done) then old(g.log) else old(g.log) + Feedback(outcome, slow, id) + [Ended(id)]
    {
      if !done {
        done := true;
        if outcome == None {
          g.log := g.log + [Recorded(id, !slow)];
        } else if !outcome.value.disconnected && !outcome.value.nonRetryable {
          g.log := g.log + [Recorded(id, false)];
        }
        g.log := g.log + [Ended(id)];
      }
    }
  }

  method FilterExcluded(endpoints: seq<string>, excluded: set<string>) returns (filtered: seq<string>)
    ensures filtered == Without(endpoints, excluded)
  {
    filtered := [];
    for i := 0 to |endpoints|
      invariant filtered == Without(endpoints[..i], excluded)
    {
      assert endpoints[..i + 1][..i] == endpoints[..i];
      if endpoints[i] !in excluded {
        filtered := filtered + [endpoints[i]];
      }
    }
    assert endpoints[..|endpoints|] == endpoints;
  }

  lemma {:induction false} NothingToRoute(routers: seq<set<string>>, n: nat, endpoints: seq<string>)
    requires n <= |routers| && Route(endpoints, routers[..n]) == []
    ensures Route(endpoints, routers) == []
    decreases |routers| - n
  {
    if n < |routers| {
      assert routers[..n + 1][..n] == routers[..n];
      NothingToRoute(routers, n + 1, endpoints);
    } else {
      assert routers[..n] == routers;
    }
  }

  /** A router keeps some of the endpoints, in their order. */
  method RunRouter(endpoints: seq<string>, keep: set<string>) returns (kept: seq<string>)
    ensures kept == Keep(endpoints, keep)
  {
    kept := [];
    for i := 0 to |endpoints|
      invariant kept == Keep(endpoints[..i], keep)
    {
      assert endpoints[..i + 1][..i] == endpoints[..i];
      if endpoints[i] in keep {
        kept := kept + [endpoints[i]];
      }
    }
    assert endpoints[..|endpoints|] == endpoints;
  }

  /** The router chain, left as soon as nothing is left. */
  method RunRouters(endpoints: seq<string>, routers: seq<set<string>>) returns (filtered: seq<string>)
    ensures filtered == Route(endpoints, routers)
  {
    filtered := endpoints;
    var i := 0;
    while i < |routers|
      invariant 0 <= i <= |routers| && filtered == Route(endpoints, routers[..i])
    {
      assert routers[..i + 1][..i] == routers[..i];
      filtered := RunRouter(filtered, routers[i]);
      i := i + 1;
      if filtered == [] {
        NothingToRoute(routers, i, endpoints);
        return;
      }
    }
    assert routers[..|routers|] == routers;
  }

  method HasRemainingEndpoint(endpoints: seq<string>, excluded: set<string>) returns (found: bool)
    ensures found == HasRemaining(endpoints, excluded)
  {
    for i := 0 to |endpoints|
      invariant forall j :: 0 <= j < i ==> endpoints[j] in excluded
    {
      if endpoints[i] !in excluded {
        return true;
      }
    }
    return false;
  }

  method NextEndpointAfter(endpoints: seq<string>, excluded: set<string>, previous: string)
    returns (next: Option<string>)
    ensures next == NextAfter(endpoints, excluded, previous)
  {
    if endpoints == [] {
      return None;
    }
    var start := -1;
    var i := 0;
    while i < |endpoints| && start < 0
      invariant 0 <= i <= |endpoints| && IsFirst(endpoints, previous, i, start)
      decreases |endpoints| - i
    {
      if endpoints[i] == previous {
        start := i;
      }
      i := i + 1;
    }
    assert start == FirstIndex(endpoints, previous);
    var step := 1;
    while step <= |endpoints|
      invariant 1 <= step <= |endpoints| + 1
      invariant NextAfter(endpoints, excluded, previous) == NextFrom(endpoints, excluded, start, step)
    {
      var ep := endpoints[(start + step) % |endpoints|];
      if ep !in excluded {
        return Some(ep);
      }
      step := step + 1;
    }
    return None;
  }

  /** The endpoint to call: after the previous one in discovery order for round robin, the
      load balancer's pick otherwise. */
  method Pick(cfg: Config, at: Attempt, last: string, endpoints: seq<string>, filtered: seq<string>)
    returns (id: Option<string>)
    requires filtered != []
    ensures id == Selection(cfg, at, last, endpoints, filtered)
  {
    if cfg.roundRobin && last != "" {
      var unavailable := (set e | e in endpoints) - (set e | e in filtered);
      id := NextEndpointAfter(endpoints, unavailable, last);
      if id.Some? && !at.direct && at.pick == None {
        id := None;
      }
    } else if at.pick == None {
      id := None;
    } else {
      id := Some(filtered[at.pick.value % |filtered|]);
    }
  }

  /** The guarded upstream call: the lease is held until its outcome is recorded. */
  method CallUpstream(g: RequestContext, at: Attempt, id: string)
    modifies g
    ensures g.log == old(g.log) + CallEvents(at, id)
    ensures g.firstByteSent == (old(g.firstByteSent) || at.firstByte)
    ensures g.fatalErr == old(g.fatalErr) && g.fallbackChain == old(g.fallbackChain)
  {
    var observed := new ObservedAttempt(id, g);
    g.log := g.log + [Called(id, at.firstByte, at.outcome, at.slow)];
    if at.firstByte {
      g.firstByteSent := true;
    }
    observed.SequentialOutcome(at.outcome, at.slow);
    observed.Release();
    assert g.log == old(g.log) + CallEvents(at, id);
  }

  /** The error to return after an upstream call, if there is to be no other attempt. */
  method AfterCall(cfg: Config, at: Attempt, g: RequestContext, id: string, endpoints: seq<string>,
                   excluded: set<string>, more: bool)
    returns (stop: bool, err: Option<Error>, excluded': set<string>)
    modifies g
    ensures var step := Invoked(cfg, at, old(g.With(excluded, id)), id, endpoints, more);
            && g.With(excluded', id) == step.s && stop == step.Stop?
            && err == (if stop then step.result else Some(step.error))
    ensures g.fallbackChain == old(g.fallbackChain)
  {
    hide HasRemaining, CallEvents;
    excluded' := excluded;
    CallUpstream(g, at, id);
    err := at.outcome;
    stop := true;
    if err.Some? && !err.value.disconnected && !err.value.nonRetryable && !g.firstByteSent && err.value.matched {
      if cfg.exclude {
        excluded' := excluded' + {id};
      }
      if more {
        var remaining := HasRemainingEndpoint(endpoints, excluded');
        if remaining {
          stop := false;
        } else {
          err := Some(NoEndpoint);
        }
      }
    }
  }

  /** One pass of the retry loop. */
  method TryOnce(cfg: Config, at: Attempt, g: RequestContext, excluded: set<string>, last: string, more: bool)
    returns (stop: bool, err: Option<Error>, excluded': set<string>, last': string)
    modifies g
    ensures var step := One(cfg, at, old(g.With(excluded, last)), more);
            && g.With(excluded', last') == step.s && stop == step.Stop?
            && err == (if stop then step.result else Some(step.error))
    ensures g.fallbackChain == old(g.fallbackChain)
  {
    hide Route, Without, Selection, Invoked;
    stop, excluded', last' := true, excluded, last;
    if at.discovery.Unlisted? {
      return stop, Some(at.discovery.error), excluded', last';
    }
    var endpoints := at.discovery.endpoints;
    var filtered := FilterExcluded(endpoints, excluded);
    if filtered == [] {
      return stop, Some(NoEndpoint), excluded', last';
    }
    filtered := RunRouters(filtered, at.routers);
    if at.routeFatal.Some? {
      g.fatalErr := at.routeFatal;
    }
    if filtered == [] {
      return stop, Some(NoEndpoint), excluded', last';
    }
    if g.fatalErr.Some? {
      return stop, g.fatalErr, excluded', last';
    }
    if !at.balancer {
      return stop, Some(NoBalancer), excluded', last';
    }
    var id := Pick(cfg, at, last, endpoints, filtered);
    if at.selectFatal.Some? {
      g.fatalErr := at.selectFatal;
    }
    if id == None {
      return stop, if g.fatalErr.Some? then g.fatalErr else Some(NoEndpoint), excluded', last';
    }
    last' := id.value;
    if at.refusal.Some? {
      err := at.refusal;
      if cfg.exclude {
        excluded' := excluded' + {id.value};
        stop := !more;
      }
      return;
    }
    stop, err, excluded' := AfterCall(cfg, at, g, id.value, endpoints, excluded, more);
  }

  method InvokeCluster(cfg: Config, env: nat -> Attempt, g: RequestContext) returns (err: Option<Error>)
    modifies g
    ensures Cluster(cfg, env, old(g.With({}, ""))) == (err, g.With({}, ""))
    ensures g.fallbackChain == old(g.fallbackChain)
  {
    hide One;
    var maxAttempts := cfg.retries + 1;
    if maxAttempts < 1 {
      maxAttempts := 1;
    }
    err := None;
    var excluded: set<string> := {};
    var last := "";
    var attempt := 0;
    var stop := false;
    ghost var s0 := g.With({}, "");
    while !stop
      invariant 0 <= attempt <= maxAttempts == MaxAttempts(cfg)
      invariant if stop then Attempts(cfg, env, s0, 0) == (err, g.With(excluded, last))
                else
                  && attempt < maxAttempts
                  && Attempts(cfg, env, s0, 0) == Attempts(cfg, env, g.With(excluded, last), attempt)
      invariant g.fallbackChain == old(g.fallbackChain)
      decreases maxAttempts - attempt, !stop
    {
      ghost var s := g.With(excluded, last);
      OneStopsLast(cfg, env(attempt), s, attempt + 1 < maxAttempts);
      stop, err, excluded, last := TryOnce(cfg, env(attempt), g, excluded, last, attempt + 1 < maxAttempts);
      attempt := attempt + 1;
    }
  }

  /** The last attempt always returns. */
  lemma {:induction false} OneStopsLast(cfg: Config, at: Attempt, s: State, more: bool)
    ensures One(cfg, at, s, more).Again? ==> more
  {
    var calls := OneSteps(cfg, at, s, more);
  }

  lemma {:induction false} ModelsStep(cfg: Config, env: nat -> nat -> Attempt, s: State, affinity: bool, k: nat,
                                      count: nat)
    requires k < count
    ensures var (e, s') := Cluster(cfg, env(k), s); var go := CanFallback(e, s', affinity) && k + 1 < count;
            && Models(cfg, env, s, affinity, k, count)
               == (if go then Models(cfg, env, s', affinity, k + 1, count) else (e, s'))
            && Tried(cfg, env, s, affinity, k, count)
               == (if go then 1 + Tried(cfg, env, s', affinity, k + 1, count) else 1)
  {
    hide Cluster;
  }

  method InvokeWithFallback(cfg: Config, env: nat -> nat -> Attempt, g: RequestContext, affinity: bool,
                            model: string, targets: seq<string>)
    returns (err: Option<Error>, tried: nat)
    modifies g
    ensures Fallback(cfg, env, old(g.With({}, "")), affinity, |targets|) == (err, g.With({}, ""))
    ensures targets != [] ==> tried == Tried(cfg, env, old(g.With({}, "")), affinity, 0, |targets| + 1)
    ensures tried <= |targets| + 1
    ensures g.fallbackChain == old(g.fallbackChain) + (if targets == [] then [] else ([model] + targets)[..tried])
  {
    hide Cluster, Models, Tried;
    tried := 0;
    if |targets| == 0 {
      ModelsStep(cfg, env, g.With({}, ""), affinity, 0, 1);
      err := InvokeCluster(cfg, env(0), g);
      return;
    }
    err := None;
    var models := [model] + targets;
    var going := true;
    ghost var s0 := g.With({}, "");
    while going
      invariant 0 <= tried <= |models|
      invariant g.fallbackChain == old(g.fallbackChain) + models[..tried]
      invariant going ==> tried < |models|
      invariant Tried(cfg, env, s0, affinity, 0, |models|)
                == if going then tried + Tried(cfg, env, g.With({}, ""), affinity, tried, |models|) else tried
      invariant Fallback(cfg, env, s0, affinity, |targets|)
                == if going then Models(cfg, env, g.With({}, ""), affinity, tried, |models|) else (err, g.With({}, ""))
      decreases |models| - tried, going
    {
      ModelsStep(cfg, env, g.With({}, ""), affinity, tried, |models|);
      g.fallbackChain := g.fallbackChain + [models[tried]];
      assert models[..tried + 1] == models[..tried] + [models[tried]];
      err := InvokeCluster(cfg, env(tried), g);
      tried := tried + 1;
      going := tried < |models| && err.Some? && !err.value.fatalNoEndpoint && g.fatalErr == None && !g.firstByteSent
               && !affinity && err.value.noEndpoint;
    }
  }
}
