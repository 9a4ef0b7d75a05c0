/** When the invokers go on: exactly which attempts are followed by another, what a request is
    answered otherwise, and exactly when the next model is tried. */
module ClusterDecisions {
  import opened Options
  import opened Cluster

  // ----- One attempt -----

  /** Some discovered endpoint is neither excluded nor dropped by a router. */
  ghost predicate Available(at: Attempt, s: State) {
    at.discovery.Listed? && exists id :: id in at.discovery.endpoints && Eligible(at, s, id)
  }

  ghost predicate Eligible(at: Attempt, s: State, id: string) {
    id !in s.excluded && forall i :: 0 <= i < |at.routers| ==> id in at.routers[i]
  }

  /** The attempt gets as far as selecting an endpoint. */
  ghost predicate Selects(at: Attempt, s: State) {
    Available(at, s) && s.fatal == None && at.routeFatal == None && at.balancer
  }

  /** An attempt that cannot select an endpoint ends the request, without a call: with the
      error of discovery, for want of an endpoint, with the fatal error, or for want of a
      load balancer. */
  lemma {:induction false} UnselectedEnds(cfg: Config, at: Attempt, s: State, more: bool)
    requires !Selects(at, s)
    ensures var step := One(cfg, at, s, more);
            && step.Stop? && step.s.log == s.log
            && step.result == Some(if at.discovery.Unlisted? then at.discovery.error
                                   else if !Available(at, s) then NoEndpoint
                                   else if at.routeFatal.Some? then at.routeFatal.value
                                   else if s.fatal.Some? then s.fatal.value
                                   else NoBalancer)
  {
    hide Selection;
    FilteredIff(at, s);
  }

  lemma {:induction false} FilteredIff(at: Attempt, s: State)
    ensures at.discovery.Listed? ==>
              (Route(Without(at.discovery.endpoints, s.excluded), at.routers) != [] <==> Available(at, s))
              && (Without(at.discovery.endpoints, s.excluded) == [] ==> !Available(at, s))
  {
    if at.discovery.Listed? {
      var filtered := Route(Without(at.discovery.endpoints, s.excluded), at.routers);
      if filtered != [] {
        assert filtered[0] in filtered;
        assert Eligible(at, s, filtered[0]);
      }
      if id :| id in at.discovery.endpoints && Eligible(at, s, id) {
        assert id in filtered;
      }
    }
  }

  /** The endpoint selected, if any: for round robin after a first attempt the next eligible
      one after the last in discovery order, going round; otherwise the one the load balancer
      picks among the eligible. */
  ghost predicate Chosen(cfg: Config, at: Attempt, s: State, id: Option<string>)
    requires at.discovery.Listed?
  {
    var endpoints := at.discovery.endpoints;
    && endpoints != [] && (id.Some? ==> id.value in endpoints && Eligible(at, s, id.value))
    && (if cfg.roundRobin && s.last != ""
        then (id == None <==> !at.direct && at.pick == None) && (id.Some? ==> NextInOrder(at, s, id.value))
        else id == None <==> at.pick == None)
  }

  /** The endpoint j places after position `start`, going round. */
  function Round(endpoints: seq<string>, start: int, j: nat): string
    requires -1 <= start < |endpoints| && 1 <= j <= |endpoints|
  {
    endpoints[if start + j < |endpoints| then start + j else start + j - |endpoints|]
  }

  lemma {:induction false} RoundIsPlace(endpoints: seq<string>, start: int, j: nat)
    requires -1 <= start < |endpoints| && 1 <= j <= |endpoints|
    ensures Round(endpoints, start, j) == PlaceAfter(endpoints, start, j)
  {
    OnceRound(start + j, |endpoints|);
  }

  lemma {:induction false} OnceRound(x: nat, n: nat)
    requires 0 < n && x < 2 * n
    ensures x % n == if x < n then x else x - n
  {
    var q := x / n;
    assert x == n * q + x % n;
    if x >= n { assert q == 1; }
  }

  /** Between the last endpoint and this one, going round, none is eligible; the last stands
      before the first if it is not there any more. */
  ghost predicate NextInOrder(at: Attempt, s: State, id: string)
    requires at.discovery.Listed? && at.discovery.endpoints != []
  {
    exists start: int, k: nat :: NextAt(at, s, start, k) && Round(at.discovery.endpoints, start, k) == id
  }

  ghost predicate NextAt(at: Attempt, s: State, start: int, k: nat)
    requires at.discovery.Listed?
  {
    var endpoints := at.discovery.endpoints;
    && IsFirst(endpoints, s.last, |endpoints|, start) && 1 <= k <= |endpoints|
    && forall j :: 1 <= j < k ==> !Eligible(at, s, Round(endpoints, start, j))
  }

  lemma {:induction false} SelectionIsChosen(cfg: Config, at: Attempt, s: State)
    requires at.discovery.Listed? && Available(at, s)
    ensures var filtered := Route(Without(at.discovery.endpoints, s.excluded), at.routers);
            filtered != [] && Chosen(cfg, at, s, Selection(cfg, at, s.last, at.discovery.endpoints, filtered))
  {
    hide NextInOrder;
    FilteredIff(at, s);
    var endpoints := at.discovery.endpoints;
    var filtered := Route(Without(endpoints, s.excluded), at.routers);
    SelectionIsNew(cfg, at, s.last, endpoints, s.excluded);
    if cfg.roundRobin && s.last != "" {
      var out := RuledOut(endpoints, filtered);
      NextAfterFinds(endpoints, out, s.last);
      assert filtered[0] in endpoints && filtered[0] !in out;
      NextIsInOrder(at, s, out);
    }
  }

  lemma {:induction false} NextIsInOrder(at: Attempt, s: State, out: set<string>)
    requires at.discovery.Listed? && at.discovery.endpoints != []
    requires forall id :: id in at.discovery.endpoints ==> (id in out <==> !Eligible(at, s, id))
    ensures var next := NextAfter(at.discovery.endpoints, out, s.last); next.Some? ==> NextInOrder(at, s, next.value)
  {
    hide Eligible;
    var endpoints := at.discovery.endpoints;
    var start := FirstIndex(endpoints, s.last);
    var next := NextAfter(endpoints, out, s.last);
    if next.Some? {
      NextFromFinds(endpoints, out, start, 1);
      var k :| && 1 <= k <= |endpoints| && PlaceAfter(endpoints, start, k) == next.value && next.value !in out
               && forall j :: 1 <= j < k ==> PlaceAfter(endpoints, start, j) in out;
      hide PlaceAfter, NextFrom;
      forall j | 1 <= j < k ensures !Eligible(at, s, Round(endpoints, start, j)) {
        RoundIsPlace(endpoints, start, j);
        assert Round(endpoints, start, j) in endpoints;
      }
      RoundIsPlace(endpoints, start, k);
      assert NextAt(at, s, start, k);
    }
  }

  /** After a call that failed so, another attempt may follow. */
  predicate MayRetry(e: Error, firstByte: bool) { !e.disconnected && !e.nonRetryable && !firstByte && e.matched }

  /** What an attempt that selects does: it calls the endpoint chosen, unless none is or the
      breaker refuses; and exactly these are followed by another attempt, if one is left: a
      refusal while failed endpoints are excluded, and a call that failed in a way that may
      be retried, while an endpoint is left that is not excluded. */
  lemma {:induction false} SelectedDecides(cfg: Config, at: Attempt, s: State, more: bool) returns (id: Option<string>)
    requires Selects(at, s)
    ensures Chosen(cfg, at, s, id)
    ensures var step := One(cfg, at, s, more); var endpoints := at.discovery.endpoints;
            if id == None then
              step.Stop? && step.s.log == s.log
              && step.result == Some(if at.selectFatal.Some? then at.selectFatal.value else NoEndpoint)
            else if at.refusal.Some? then
              && step.s.log == s.log && step.s.last == id.value
              && (step.Again? <==> cfg.exclude && more)
              && (if step.Again? then step.error == at.refusal.value else step.result == at.refusal)
              && step.s.excluded == (if cfg.exclude then s.excluded + {id.value} else s.excluded)
            else
              var call := Called(id.value, at.firstByte, at.outcome, at.slow);
              && CallsOf(step.s.log) == CallsOf(s.log) + [call] && step.s.last == id.value
              && step.s.firstByte == (s.firstByte || at.firstByte)
              && (if at.outcome == None then step.Stop? && step.result == None
                  else
                    var e := at.outcome.value; var retry := MayRetry(e, step.s.firstByte);
                    var remaining := exists x :: x in endpoints && x !in step.s.excluded;
                    && step.s.excluded == (if retry && cfg.exclude then s.excluded + {id.value} else s.excluded)
                    && (step.Again? <==> retry && more && remaining)
                    && (step.Again? ==> step.error == e)
                    && (step.Stop? ==> step.result == Some(if retry && more then NoEndpoint else e)))
  {
    hide Selection, CallsOf, CallEvents, Chosen;
    FilteredIff(at, s);
    SelectionIsChosen(cfg, at, s);
    var endpoints := at.discovery.endpoints;
    id := Selection(cfg, at, s.last, endpoints, Route(Without(endpoints, s.excluded), at.routers));
    if id.Some? {
      OneCall(at, id.value);
      CallsConcat(s.log, CallEvents(at, id.value));
      RemainingIff(endpoints, s.excluded);
      RemainingIff(endpoints, s.excluded + {id.value});
      hide HasRemaining, Route, Without;
    }
  }

  lemma {:induction false} RemainingIff(endpoints: seq<string>, excluded: set<string>)
    ensures HasRemaining(endpoints, excluded) <==> exists x :: x in endpoints && x !in excluded
  {
    if x :| x in endpoints && x !in excluded {
      var i :| 0 <= i < |endpoints| && endpoints[i] == x;
    }
  }

  // ----- The retry loop -----

  /** Attempt j of a run that has states[j] before attempt j. */
  ghost function Nth(cfg: Config, env: nat -> Attempt, states: seq<State>, a: nat, j: nat): Step
    requires j < |states|
  {
    One(cfg, env(a + j), states[j], a + j + 1 < MaxAttempts(cfg))
  }

  /** The attempts are made one after the other, each from the state the one before left, for
      as long as they call for another; the last one's answer is the answer. */
  lemma {:induction false} RetriesWhileCalledFor(cfg: Config, env: nat -> Attempt, s: State, a: nat)
    returns (states: seq<State>)
    requires a < MaxAttempts(cfg)
    ensures 1 <= |states| <= MaxAttempts(cfg) - a && states[0] == s
    ensures forall j :: 0 <= j < |states| - 1 ==>
              Nth(cfg, env, states, a, j).Again? && states[j + 1] == Nth(cfg, env, states, a, j).s
    ensures var last := Nth(cfg, env, states, a, |states| - 1);
            last.Stop? && Attempts(cfg, env, s, a) == (last.result, last.s)
    decreases MaxAttempts(cfg) - a
  {
    hide One;
    var more := a + 1 < MaxAttempts(cfg);
    var step := One(cfg, env(a), s, more);
    OneStopsLast(cfg, env(a), s, more);
    if step.Stop? {
      states := [s];
    } else {
      var rest := RetriesWhileCalledFor(cfg, env, step.s, a + 1);
      states := [s] + rest;
      assert Nth(cfg, env, states, a, |states| - 1) == Nth(cfg, env, rest, a + 1, |rest| - 1);
      forall j | 0 <= j < |states| - 1
        ensures Nth(cfg, env, states, a, j).Again? && states[j + 1] == Nth(cfg, env, states, a, j).s
      {
        if j > 0 { assert Nth(cfg, env, states, a, j) == Nth(cfg, env, rest, a + 1, j - 1); }
      }
    }
  }

  // ----- Fallback over models -----

  /** The request may go on to another model: no endpoint was available for this one, and
      nothing fatal happened, no byte was sent and affinity does not forbid it. */
  predicate GoesOn(err: Option<Error>, s: State, affinity: bool) {
    match err
    case None => false
    case Some(e) => e.noEndpoint && !e.fatalNoEndpoint && s.fatal == None && !s.firstByte && !affinity
  }

  /** What model j answers, in the state the models before it left. */
  ghost function Answered(cfg: Config, env: nat -> nat -> Attempt, states: seq<State>, k: nat, j: nat)
    : (Option<Error>, State)
    requires j < |states|
  {
    Cluster.Cluster(cfg, env(k + j), states[j])
  }

  /** The models are tried in order; the next one is tried if and only if the request may go on
      and one is left, and the last one's answer is the answer. */
  lemma {:induction false} NextModelIff(cfg: Config, env: nat -> nat -> Attempt, s: State, affinity: bool, k: nat,
                                        count: nat)
    returns (states: seq<State>)
    requires k < count
    ensures |states| == Tried(cfg, env, s, affinity, k, count) && states[0] == s
    ensures forall j :: 0 <= j < |states| - 1 ==>
              var (err, s') := Answered(cfg, env, states, k, j); GoesOn(err, s', affinity) && states[j + 1] == s'
    ensures var (err, s') := Answered(cfg, env, states, k, |states| - 1);
            && Models(cfg, env, s, affinity, k, count) == (err, s')
            && (GoesOn(err, s', affinity) ==> |states| == count - k)
    decreases count - k
  {
    hide Cluster.Cluster;
    var (err, s1) := Cluster.Cluster(cfg, env(k), s);
    if CanFallback(err, s1, affinity) && k + 1 < count {
      var rest := NextModelIff(cfg, env, s1, affinity, k + 1, count);
      states := [s] + rest;
      assert Answered(cfg, env, states, k, |states| - 1) == Answered(cfg, env, rest, k + 1, |rest| - 1);
      forall j | 0 <= j < |states| - 1
        ensures var (err, s') := Answered(cfg, env, states, k, j); GoesOn(err, s', affinity) && states[j + 1] == s'
      {
        if j > 0 { assert Answered(cfg, env, states, k, j) == Answered(cfg, env, rest, k + 1, j - 1); }
      }
    } else {
      states := [s];
    }
  }
}
