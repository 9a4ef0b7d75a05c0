/** Routing by difficulty score: the partition of the scores, and the walk over its targets. */
module SmartRouting {

  datatype Range = Range(min: int, max: int, model: string)

  /** The configuration document. `blank`, `fold` and `lower` are the text operations of the
      validation: only white space, case folding, lower case. */
  datatype Config = Config(version: int, judge: string, timeoutMs: int, maxInput: int, maxOutput: int,
                           ranges: seq<Range>)

  // ----- The partition -----

  /** Ascending, contiguous, from 0 to `end`, with no empty range. */
  ghost predicate Partition(ranges: seq<Range>, end: int) {
    && (forall i :: 0 <= i < |ranges| ==> ranges[i].min < ranges[i].max)
    && (forall i :: 0 <= i < |ranges| - 1 ==> ranges[i].max == ranges[i + 1].min)
    && (if ranges == [] then end == 0 else ranges[0].min == 0 && ranges[|ranges| - 1].max == end)
  }

  /** A range includes its minimum and not its maximum, but the last one includes 100. */
  predicate Covers(ranges: seq<Range>, i: nat, score: int)
    requires i < |ranges|
  {
    score >= ranges[i].min && (score < ranges[i].max || (i == |ranges| - 1 && score == 100 && ranges[i].max == 100))
  }

  lemma {:induction false} PartitionAscends(ranges: seq<Range>, end: int, i: nat, j: nat)
    requires Partition(ranges, end) && i < j < |ranges|
    ensures 0 <= ranges[i].min && ranges[i].max <= ranges[j].min && ranges[j].max <= end
    decreases |ranges| - i
  {
    if i > 0 { PartitionFrom(ranges, end, i); }
    if i + 1 < j {
      PartitionAscends(ranges, end, i + 1, j);
    } else {
      PartitionTo(ranges, end, j);
    }
  }

  lemma {:induction false} PartitionFrom(ranges: seq<Range>, end: int, i: nat)
    requires Partition(ranges, end) && i < |ranges|
    ensures 0 <= ranges[i].min
  {
    if i > 0 { PartitionFrom(ranges, end, i - 1); }
  }

  lemma {:induction false} PartitionTo(ranges: seq<Range>, end: int, i: nat)
    requires Partition(ranges, end) && i < |ranges|
    ensures ranges[i].max <= end
    decreases |ranges| - i
  {
    if i + 1 < |ranges| { PartitionTo(ranges, end, i + 1); }
  }

  lemma {:induction false} CoveredOnce(ranges: seq<Range>, score: int, i: nat, j: nat)
    requires Partition(ranges, 100) && i < |ranges| && j < |ranges|
    requires Covers(ranges, i, score) && Covers(ranges, j, score)
    ensures i == j
  {
    if i < j {
      PartitionAscends(ranges, 100, i, j);
    } else if j < i {
      PartitionAscends(ranges, 100, j, i);
    }
  }

  lemma {:induction false} SomeCovers(ranges: seq<Range>, score: int, i: nat)
    requires Partition(ranges, 100) && i < |ranges| && ranges[i].min <= score <= 100
    ensures exists k :: 0 <= k < |ranges| && Covers(ranges, k, score)
    decreases |ranges| - i
  {
    if score < ranges[i].max || i == |ranges| - 1 {
      assert Covers(ranges, i, score);
    } else {
      SomeCovers(ranges, score, i + 1);
    }
  }

  /** The first range that covers the score, or -1. */
  method SmartRangeIndex(ranges: seq<Range>, score: int) returns (index: int)
    ensures -1 <= index < |ranges|
    ensures if index < 0 then forall i :: 0 <= i < |ranges| ==> !Covers(ranges, i, score)
            else Covers(ranges, index, score) && forall i :: 0 <= i < index ==> !Covers(ranges, i, score)
  {
    for i := 0 to |ranges|
      invariant forall j :: 0 <= j < i ==> !Covers(ranges, j, score)
    {
      var r := ranges[i];
      if score >= r.min && (score < r.max || (i == |ranges| - 1 && score == 100 && r.max == 100)) {
        return i;
      }
    }
    return -1;
  }

  /** Over a partition of 0..100 every score in 0..100 is covered by exactly one range, and no
      other score by any. */
  lemma {:induction false} PartitionIsTotal(ranges: seq<Range>, score: int)
    requires Partition(ranges, 100)
    ensures 0 <= score <= 100 <==> exists i :: 0 <= i < |ranges| && Covers(ranges, i, score)
    ensures forall i, j :: 0 <= i < |ranges| && 0 <= j < |ranges| ==>
              Covers(ranges, i, score) && Covers(ranges, j, score) ==> i == j
  {
    if 0 <= score <= 100 { SomeCovers(ranges, score, 0); }
    forall i, j | 0 <= i < |ranges| && 0 <= j < |ranges| && Covers(ranges, i, score) && Covers(ranges, j, score)
      ensures i == j
    {
      CoveredOnce(ranges, score, i, j);
    }
    if exists i :: 0 <= i < |ranges| && Covers(ranges, i, score) {
      var i :| 0 <= i < |ranges| && Covers(ranges, i, score);
      PartitionFrom(ranges, 100, i);
      PartitionTo(ranges, 100, i);
    }
  }

  // ----- Validation -----

  ghost predicate OtherModel(model: string, code: string, blank: string -> bool, fold: string -> string) {
    !blank(model) && fold(model) != fold(code)
  }

  ghost predicate ValidHeader(c: Config, code: string, blank: string -> bool, fold: string -> string) {
    && !blank(code) && c.version >= 1 && OtherModel(c.judge, code, blank, fold)
    && c.timeoutMs >= 0 && c.maxInput >= 0 && c.maxOutput >= 0
  }

  /** Two targets whose names differ in more than case. */
  ghost predicate TwoTargets(ranges: seq<Range>, lower: string -> string) {
    exists i, j :: 0 <= i < j < |ranges| && lower(ranges[i].model) != lower(ranges[j].model)
  }

  ghost predicate Valid(c: Config, code: string, blank: string -> bool, fold: string -> string,
                        lower: string -> string) {
    && ValidHeader(c, code, blank, fold)
    && Partition(c.ranges, 100)
    && (forall i :: 0 <= i < |c.ranges| ==> OtherModel(c.ranges[i].model, code, blank, fold))
    && TwoTargets(c.ranges, lower)
  }

  lemma {:induction false} OneMoreRange(ranges: seq<Range>, end: int, r: Range)
    requires Partition(ranges, end)
    ensures Partition(ranges + [r], r.max) <==> r.min == end && r.min < r.max
  {
    var more := ranges + [r];
    assert more[|ranges|] == r;
    assert forall i :: 0 <= i < |ranges| ==> more[i] == ranges[i];
    if Partition(more, r.max) && ranges != [] {
      assert more[|ranges| - 1].max == more[|ranges|].min;
    }
  }

  /** A range that does not continue the partition spoils it, and so does one out of bounds. */
  lemma {:induction false} BadRange(ranges: seq<Range>, end: int, i: nat)
    requires i < |ranges| && Partition(ranges[..i], end)
    requires ranges[i].min != end || ranges[i].min < 0 || ranges[i].max > 100 || ranges[i].max <= ranges[i].min
    ensures !Partition(ranges, 100)
  {
    if Partition(ranges, 100) {
      assert ranges[..i + 1] == ranges[..i] + [ranges[i]];
      PartitionPrefix(ranges, 100, i + 1);
      OneMoreRange(ranges[..i], end, ranges[i]);
      PartitionFrom(ranges, 100, i);
      PartitionTo(ranges, 100, i);
    }
  }

  lemma {:induction false} NoRanges()
    ensures Partition([], 0)
  {}

  lemma {:induction false} OneEnd(ranges: seq<Range>, end: int)
    requires Partition(ranges, end)
    ensures Partition(ranges, 100) <==> end == 100
  {}

  lemma {:induction false} PartitionPrefix(ranges: seq<Range>, end: int, n: nat)
    requires Partition(ranges, end) && n <= |ranges|
    ensures Partition(ranges[..n], if n == 0 then 0 else ranges[n - 1].max)
  {}

  /** The document is accepted exactly if it names ordinary models only, at least two, over an
      ascending contiguous partition of 0..100. */
  method Validate(c: Config, code: string, blank: string -> bool, fold: string -> string, lower: string -> string)
    returns (ok: bool)
    ensures ok <==> Valid(c, code, blank, fold, lower)
  {
    hide Partition, TwoTargets;
    var ranges := c.ranges;
    if blank(code) || c.version < 1 || blank(c.judge) || fold(c.judge) == fold(code) {
      return false;
    }
    if c.timeoutMs < 0 || c.maxInput < 0 || c.maxOutput < 0 {
      return false;
    }
    if |ranges| < 2 {
      TooFewTargets(ranges, lower);
      return false;
    }
    NoRanges();
    var distinct: set<string> := {};
    var end := 0;
    for i := 0 to |ranges|
      invariant Partition(ranges[..i], end)
      invariant forall j :: 0 <= j < i ==> OtherModel(ranges[j].model, code, blank, fold)
      invariant forall x :: x in distinct <==> exists j :: 0 <= j < i && x == lower(ranges[j].model)
    {
      var r := ranges[i];
      assert ranges[..i + 1] == ranges[..i] + [r];
      OneMoreRange(ranges[..i], end, r);
      if r.min != end || r.min < 0 || r.max > 100 || r.max <= r.min {
        BadRange(ranges, end, i);
        return false;
      }
      if blank(r.model) || fold(r.model) == fold(code) {
        return false;
      }
      distinct := distinct + {lower(r.model)};
      end := r.max;
    }
    assert ranges[..|ranges|] == ranges;
    ok := end == 100 && |distinct| >= 2;
    OneEnd(ranges, end);
    TargetsCounted(ranges, lower, distinct);
  }

  lemma {:induction false} TooFewTargets(ranges: seq<Range>, lower: string -> string)
    requires |ranges| < 2
    ensures !TwoTargets(ranges, lower)
  {}

  lemma {:induction false} TargetsCounted(ranges: seq<Range>, lower: string -> string, distinct: set<string>)
    requires forall x :: x in distinct <==> exists j :: 0 <= j < |ranges| && x == lower(ranges[j].model)
    ensures |distinct| >= 2 <==> TwoTargets(ranges, lower)
  {
    if TwoTargets(ranges, lower) {
      var i, j :| 0 <= i < j < |ranges| && lower(ranges[i].model) != lower(ranges[j].model);
      var a, b := lower(ranges[i].model), lower(ranges[j].model);
      assert distinct == distinct - {a, b} + {a, b};
      assert |distinct| == |distinct - {a, b}| + |{a, b}|;
    } else if distinct != {} {
      var a :| a in distinct;
      forall x | x in distinct ensures x == a {
        var i :| 0 <= i < |ranges| && x == lower(ranges[i].model);
        var j :| 0 <= j < |ranges| && a == lower(ranges[j].model);
      }
      assert distinct == {a};
    }
  }

  /** So for an accepted document the search for a score in 0..100 always finds its range: the
      answer "invalid partition" is never given. */
  lemma {:induction false} AcceptedNeverUnmatched(c: Config, code: string, blank: string -> bool,
                                                  fold: string -> string,
                                                  lower: string -> string, score: int, index: int)
    requires Valid(c, code, blank, fold, lower) && 0 <= score <= 100 && -1 <= index < |c.ranges|
    requires if index < 0 then forall i :: 0 <= i < |c.ranges| ==> !Covers(c.ranges, i, score)
             else Covers(c.ranges, index, score) && forall i :: 0 <= i < index ==> !Covers(c.ranges, i, score)
    ensures index >= 0 && forall i :: 0 <= i < |c.ranges| ==> (Covers(c.ranges, i, score) <==> i == index)
  {
    PartitionIsTotal(c.ranges, score);
  }

  // ----- The walk over the targets -----

  datatype Outcome = Answered | LocalFailure | Unavailable(retryable: bool)

  /** What happens when the walk reaches a range: the client has gone, the target cannot be
      used, or the outcome of invoking it. */
  datatype Reply = Reply(cancelled: bool, eligible: bool, outcome: Outcome)

  datatype Event = Skipped(index: int, model: string) | Invoked(index: int, model: string, outcome: Outcome)

  datatype Result = Success | Failure | Cancelled | NoTarget | InvalidPartition

  /** Upwards after a judgment, downwards without one. */
  function Next(judged: bool, index: int): int { if judged then index + 1 else index - 1 }

  /** From the score's range after a judgment, from the last without one. */
  function Walk(ranges: seq<Range>, env: int -> Reply, judged: bool, index: int, seen: set<string>, log: seq<Event>)
    : (Result, seq<Event>)
    requires -1 <= index <= |ranges|
    decreases if judged then |ranges| - index else index + 1
  {
    if !(0 <= index < |ranges|) then (NoTarget, log)
    else
      var next := Next(judged, index);
      var model, reply := ranges[index].model, env(index);
      if reply.cancelled then (Cancelled, log)
      else if model in seen then Walk(ranges, env, judged, next, seen, log)
      else if !reply.eligible then Walk(ranges, env, judged, next, seen + {model}, log + [Skipped(index, model)])
      else
        var log' := log + [Invoked(index, model, reply.outcome)];
        match reply.outcome
        case Answered => (Success, log')
        case LocalFailure => (Failure, log')
        case Unavailable(retryable) =>
          if !judged || !retryable then (Failure, log') else Walk(ranges, env, judged, next, seen + {model}, log')
  }

  /** Every event is about the model of its range, and no model has two. */
  ghost predicate OncePerModel(ranges: seq<Range>, log: seq<Event>) {
    && (forall i :: 0 <= i < |log| ==> 0 <= log[i].index < |ranges| && log[i].model == ranges[log[i].index].model)
    && (forall i, j :: 0 <= i < j < |log| ==> log[i].model != log[j].model)
  }

  ghost predicate Ascending(log: seq<Event>) { forall i, j :: 0 <= i < j < |log| ==> log[i].index < log[j].index }

  ghost predicate Descending(log: seq<Event>) { forall i, j :: 0 <= i < j < |log| ==> log[i].index > log[j].index }

  /** Only the last event may end the walk. */
  ghost predicate GoesOn(judged: bool, log: seq<Event>) {
    forall i :: 0 <= i < |log| - 1 ==> log[i].Skipped? || (judged && log[i].outcome == Unavailable(true))
  }

  ghost predicate Open(judged: bool, log: seq<Event>) {
    forall i :: 0 <= i < |log| ==> log[i].Skipped? || (judged && log[i].outcome == Unavailable(true))
  }

  /** One of the first n events is about this model. */
  ghost predicate Met(log: seq<Event>, n: nat, model: string)
    requires n <= |log|
  {
    exists i :: 0 <= i < n && log[i].model == model
  }

  /** The state of the walk before range `index`. */
  ghost predicate WalkInv(ranges: seq<Range>, judged: bool, index: int, start: int, seen: set<string>,
                          log: seq<Event>) {
    && OncePerModel(ranges, log) && Open(judged, log)
    && (forall i :: 0 <= i < |log| ==> log[i].model in seen)
    && (forall m :: m in seen ==> Met(log, |log|, m))
    && (if judged then
          && start <= index && Ascending(log) && (forall i :: 0 <= i < |log| ==> start <= log[i].index < index)
          && (forall k :: start <= k < index && 0 <= k < |ranges| ==> ranges[k].model in seen)
        else
          && index <= start && Descending(log) && (forall i :: 0 <= i < |log| ==> index < log[i].index <= start)
          && (forall k :: index < k <= start && 0 <= k < |ranges| ==> ranges[k].model in seen))
  }

  /** The models of the ranges passed by the time the walk ended. */
  ghost predicate Passed(ranges: seq<Range>, judged: bool, start: int, result: Result, log: seq<Event>) {
    && OncePerModel(ranges, log) && GoesOn(judged, log)
    && (if judged then Ascending(log) else Descending(log))
    && (forall i :: 0 <= i < |log| ==> if judged then start <= log[i].index else log[i].index <= start)
    && (result == Success <==> log != [] && log[|log| - 1].Invoked? && log[|log| - 1].outcome == Answered)
    && (result == NoTarget ==>
          && Open(judged, log)
          && forall k :: 0 <= k < |ranges| && (if judged then start <= k else k <= start) ==>
             Met(log, |log|, ranges[k].model))
    && (result == Failure ==> log != [] && log[|log| - 1].Invoked? && Before(ranges, judged, start, log))
    && (result == Success ==> Before(ranges, judged, start, log))
  }

  /** Every range between the start and the last one invoked has an event for its model. */
  ghost predicate Before(ranges: seq<Range>, judged: bool, start: int, log: seq<Event>)
    requires log != []
  {
    var last := log[|log| - 1].index;
    forall k :: 0 <= k < |ranges| && (if judged then start <= k < last else last < k <= start) ==>
      Met(log, |log| - 1, ranges[k].model)
  }

  lemma {:induction false} SeenIsPassed(ranges: seq<Range>, judged: bool, index: int, start: int, seen: set<string>,
                                        log: seq<Event>)
    requires WalkInv(ranges, judged, index, start, seen, log) && 0 <= index < |ranges| && ranges[index].model in seen
    ensures WalkInv(ranges, judged, Next(judged, index), start, seen, log)
  {}

  lemma {:induction false} EventKeepsOrder(ranges: seq<Range>, judged: bool, index: int, start: int, seen: set<string>,
                                           log: seq<Event>, ev: Event)
    requires WalkInv(ranges, judged, index, start, seen, log) && 0 <= index < |ranges|
    requires ev.index == index && ev.model == ranges[index].model && ev.model !in seen
    ensures OncePerModel(ranges, log + [ev]) && GoesOn(judged, log + [ev])
    ensures if judged then Ascending(log + [ev]) else Descending(log + [ev])
    ensures forall i :: 0 <= i < |log + [ev]| ==> (log + [ev])[i].model in seen + {ev.model}
    ensures forall i :: 0 <= i < |log + [ev]| ==>
            if judged then start <= (log + [ev])[i].index else (log + [ev])[i].index <= start
  {
    hide OncePerModel, Met;
    EventIsNew(ranges, log, ev, seen);
  }

  lemma {:induction false} EventIsNew(ranges: seq<Range>, log: seq<Event>, ev: Event, seen: set<string>)
    requires OncePerModel(ranges, log) && (forall i :: 0 <= i < |log| ==> log[i].model in seen)
    requires 0 <= ev.index < |ranges| && ev.model == ranges[ev.index].model && ev.model !in seen
    ensures OncePerModel(ranges, log + [ev])
  {}

  lemma {:induction false} MetBefore(log: seq<Event>, ev: Event, m: string)
    ensures Met(log, |log|, m) <==> Met(log + [ev], |log|, m)
    ensures Met(log + [ev], |log + [ev]|, m) <==> Met(log, |log|, m) || ev.model == m
  {
    var log' := log + [ev];
    if Met(log, |log|, m) {
      var i :| 0 <= i < |log| && log[i].model == m;
      assert log'[i].model == m;
    }
    if Met(log', |log|, m) {
      var i :| 0 <= i < |log| && log'[i].model == m;
      assert log[i].model == m;
    }
    assert log'[|log|] == ev;
  }

  lemma {:induction false} EventPasses(ranges: seq<Range>, judged: bool, index: int, start: int, seen: set<string>,
                                       log: seq<Event>, ev: Event)
    requires WalkInv(ranges, judged, index, start, seen, log) && 0 <= index < |ranges|
    requires ev.index == index && ev.model == ranges[index].model && ev.model !in seen
    requires ev.Skipped? || (judged && ev.outcome == Unavailable(true))
    ensures WalkInv(ranges, judged, Next(judged, index), start, seen + {ev.model}, log + [ev])
  {
    hide OncePerModel, GoesOn, Ascending, Descending, Met;
    EventKeepsOrder(ranges, judged, index, start, seen, log, ev);
    forall m | m in seen + {ev.model} ensures Met(log + [ev], |log + [ev]|, m) { MetBefore(log, ev, m); }
  }

  /** The walk ends with an invocation. */
  lemma {:induction false} EndsInvoked(ranges: seq<Range>, judged: bool, index: int, start: int, seen: set<string>,
                                       log: seq<Event>, ev: Event, result: Result)
    requires WalkInv(ranges, judged, index, start, seen, log) && 0 <= index < |ranges|
    requires ev.Invoked? && ev.index == index && ev.model == ranges[index].model && ev.model !in seen
    requires (result == Success && ev.outcome == Answered) || (result == Failure && ev.outcome != Answered)
    ensures Passed(ranges, judged, start, result, log + [ev])
  {
    hide OncePerModel, GoesOn, Ascending, Descending, Met;
    EventKeepsOrder(ranges, judged, index, start, seen, log, ev);
    var log' := log + [ev];
    forall k | 0 <= k < |ranges| && (if judged then start <= k < index else index < k <= start)
      ensures Met(log', |log'| - 1, ranges[k].model)
    {
      MetBefore(log, ev, ranges[k].model);
    }
  }

  /** The walk ends without one. */
  lemma {:induction false} EndsEmpty(ranges: seq<Range>, judged: bool, index: int, start: int, seen: set<string>,
                                     log: seq<Event>, result: Result)
    requires WalkInv(ranges, judged, index, start, seen, log)
    requires result == Cancelled || (result == NoTarget && (if judged then index >= |ranges| else index < 0))
    ensures Passed(ranges, judged, start, result, log)
  {
    hide OncePerModel, Ascending, Descending, Met;
  }

  lemma {:induction false} WalkPasses(ranges: seq<Range>, env: int -> Reply, judged: bool, index: int, start: int,
                                      seen: set<string>, log: seq<Event>)
    requires -1 <= index <= |ranges| && (if judged then 0 <= index else index < |ranges|)
    requires WalkInv(ranges, judged, index, start, seen, log)
    ensures var (result, log') := Walk(ranges, env, judged, index, seen, log);
            Passed(ranges, judged, start, result, log')
    decreases if judged then |ranges| - index else index + 1
  {
    hide WalkInv, Passed;
    if !(0 <= index < |ranges|) {
      EndsEmpty(ranges, judged, index, start, seen, log, NoTarget);
    } else {
      var next := Next(judged, index);
      var model, reply := ranges[index].model, env(index);
      if reply.cancelled {
        EndsEmpty(ranges, judged, index, start, seen, log, Cancelled);
      } else if model in seen {
        SeenIsPassed(ranges, judged, index, start, seen, log);
        WalkPasses(ranges, env, judged, next, start, seen, log);
      } else if !reply.eligible {
        EventPasses(ranges, judged, index, start, seen, log, Skipped(index, model));
        WalkPasses(ranges, env, judged, next, start, seen + {model}, log + [Skipped(index, model)]);
      } else {
        var ev := Invoked(index, model, reply.outcome);
        if judged && reply.outcome == Unavailable(true) {
          EventPasses(ranges, judged, index, start, seen, log, ev);
          WalkPasses(ranges, env, judged, next, start, seen + {model}, log + [ev]);
        } else {
          var result := if reply.outcome == Answered then Success else Failure;
          EndsInvoked(ranges, judged, index, start, seen, log, ev, result);
        }
      }
    }
  }

  // ----- What the router promises -----

  /** After a judgment the targets are tried from the score's range upwards, in strictly
      increasing range order, no model twice, each but the last found unusable or having
      failed retryably, and none passed over; the request succeeds exactly if the last one
      answered. If there was no target, the models of all ranges from the score's upwards
      were unusable or failed retryably. */
  lemma {:induction false} JudgedClimbs(ranges: seq<Range>, env: int -> Reply, start: nat)
    requires start < |ranges|
    ensures var (result, log) := Walk(ranges, env, true, start, {}, []);
            && OncePerModel(ranges, log) && Ascending(log) && GoesOn(true, log)
            && (forall i :: 0 <= i < |log| ==> start <= log[i].index)
            && (result == Success <==> log != [] && log[|log| - 1].Invoked? && log[|log| - 1].outcome == Answered)
            && (result == Success || result == Failure ==>
                  && log != [] && log[|log| - 1].Invoked?
                  && forall k :: start <= k < log[|log| - 1].index ==> Met(log, |log| - 1, ranges[k].model))
            && (result == NoTarget ==>
                  && Open(true, log)
                  && forall k :: start <= k < |ranges| ==> Met(log, |log|, ranges[k].model))
  {
    hide Walk, Ascending, Met;
    StartsEmpty(ranges, true, start);
    WalkPasses(ranges, env, true, start, start, {}, []);
  }

  /** Without a judgment at most one target is invoked, and it is the highest usable one: the
      model of every higher range was found unusable. If none was invoked and the client did
      not leave, the models of all ranges were. */
  lemma {:induction false} UnjudgedTakesHighest(ranges: seq<Range>, env: int -> Reply)
    requires ranges != []
    ensures var (result, log) := Walk(ranges, env, false, |ranges| - 1, {}, []);
            && OncePerModel(ranges, log) && Descending(log)
            && (forall i :: 0 <= i < |log| - 1 ==> log[i].Skipped?)
            && (log != [] && log[|log| - 1].Invoked? ==>
                  forall k :: log[|log| - 1].index < k < |ranges| ==> Met(log, |log| - 1, ranges[k].model))
            && (result == NoTarget ==>
                  && (forall i :: 0 <= i < |log| ==> log[i].Skipped?)
                  && (forall k :: 0 <= k < |ranges| ==> Met(log, |log|, ranges[k].model)))
  {
    hide Walk, Descending, Met;
    var start := |ranges| - 1;
    StartsEmpty(ranges, false, start);
    WalkPasses(ranges, env, false, start, start, {}, []);
    InvokedEnds(ranges, env, false, start, {}, []);
  }

  lemma {:induction false} StartsEmpty(ranges: seq<Range>, judged: bool, start: int)
    ensures WalkInv(ranges, judged, start, start, {}, [])
  {}

  /** Without a judgment an invocation ends the walk. */
  lemma {:induction false} InvokedEnds(ranges: seq<Range>, env: int -> Reply, judged: bool, index: int,
                                       seen: set<string>, log: seq<Event>)
    requires -1 <= index <= |ranges| && !judged && forall i :: 0 <= i < |log| ==> log[i].Skipped?
    ensures var (result, log') := Walk(ranges, env, judged, index, seen, log);
            log' != [] && log'[|log'| - 1].Invoked? ==> result == Success || result == Failure
    decreases index + 1
  {
    if 0 <= index < |ranges| {
      var model, reply := ranges[index].model, env(index);
      if !reply.cancelled {
        if model in seen {
          InvokedEnds(ranges, env, judged, index - 1, seen, log);
        } else if !reply.eligible {
          InvokedEnds(ranges, env, judged, index - 1, seen + {model}, log + [Skipped(index, model)]);
        }
      }
    }
  }

  /** The escalation loop. */
  method InvokeTargets(ranges: seq<Range>, env: int -> Reply, judged: bool, start: int)
    returns (result: Result, ghost log: seq<Event>)
    requires 0 <= start < |ranges|
    ensures result == Walk(ranges, env, judged, start, {}, []).0 && log == Walk(ranges, env, judged, start, {}, []).1
  {
    var seen: set<string> := {};
    var step := if judged then 1 else -1;
    var index := start;
    log := [];
    while 0 <= index < |ranges|
      invariant -1 <= index <= |ranges|
      invariant Walk(ranges, env, judged, start, {}, []) == Walk(ranges, env, judged, index, seen, log)
      decreases if judged then |ranges| - index else index + 1
    {
      var reply := env(index);
      if reply.cancelled {
        return Cancelled, log;
      }
      var model := ranges[index].model;
      if model !in seen {
        seen := seen + {model};
        if !reply.eligible {
          log := log + [Skipped(index, model)];
        } else {
          log := log + [Invoked(index, model, reply.outcome)];
          match reply.outcome {
            case LocalFailure => return Failure, log;
            case Answered => return Success, log;
            case Unavailable(retryable) =>
              if !judged || !retryable {
                return Failure, log;
              }
          }
        }
      }
      index := index + step;
    }
    result := NoTarget;
  }

  datatype Judgment = Judged(score: int) | NotJudged | JudgeRefused

  /** A request with an accepted configuration and a score in 0..100: it is walked from the one
      range that covers the score, or from the last without a score; a quota failure of the
      judge ends it. The partition is never found invalid. */
  method Route(c: Config, code: string, blank: string -> bool, fold: string -> string, lower: string -> string,
               judgment: Judgment, env: int -> Reply)
    returns (result: Result, ghost log: seq<Event>)
    requires Valid(c, code, blank, fold, lower)
    requires judgment.Judged? ==> 0 <= judgment.score <= 100
    ensures result != InvalidPartition
    ensures judgment.JudgeRefused? ==> result == Failure && log == []
    ensures judgment.NotJudged? ==> (result, log) == Walk(c.ranges, env, false, |c.ranges| - 1, {}, [])
    ensures judgment.Judged? ==>
              forall start :: 0 <= start < |c.ranges| && Covers(c.ranges, start, judgment.score) ==>
                (result, log) == Walk(c.ranges, env, true, start, {}, [])
  {
    log := [];
    if judgment.JudgeRefused? {
      return Failure, [];
    }
    var start := |c.ranges| - 1;
    if judgment.Judged? {
      start := SmartRangeIndex(c.ranges, judgment.score);
      AcceptedNeverUnmatched(c, code, blank, fold, lower, judgment.score, start);
      if start < 0 {
        return InvalidPartition, [];
      }
    }
    result, log := InvokeTargets(c.ranges, env, judgment.Judged?, start);
    WalkIsDecided(c.ranges, env, judgment.Judged?, start, {}, []);
  }

  lemma {:induction false} WalkIsDecided(ranges: seq<Range>, env: int -> Reply, judged: bool, index: int,
                                         seen: set<string>, log: seq<Event>)
    requires -1 <= index <= |ranges|
    ensures Walk(ranges, env, judged, index, seen, log).0 != InvalidPartition
    decreases if judged then |ranges| - index else index + 1
  {
    if 0 <= index < |ranges| {
      var model, reply := ranges[index].model, env(index);
      var next := Next(judged, index);
      WalkIsDecided(ranges, env, judged, next, seen, log);
      WalkIsDecided(ranges, env, judged, next, seen + {model}, log + [Skipped(index, model)]);
      WalkIsDecided(ranges, env, judged, next, seen + {model}, log + [Invoked(index, model, reply.outcome)]);
    }
  }
}
