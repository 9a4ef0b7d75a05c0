/** The compensation queue: a stream, a set of delayed retries and a dead-letter queue,
    moved step by step by one worker that may crash between any two store operations, and
    whose store operations may fail. */
module Compensation {
  import opened Search

  /** `first` is the attempt count at enqueueing, `ran` the compensations this copy of the
      task has behind it. */
  datatype Task = Task(id: string, filter: string, first: nat, attempt: nat, ran: nat, nextRetry: int, error: string)

  datatype Msg = Garbage | Carries(task: Task)

  datatype Entry = Entry(task: Task, due: int)

  datatype Stage = Fresh | Failed(task: Task) | Acking

  datatype Worker = Ready | Claiming(due: seq<Task>, added: bool) | Handling(stage: Stage)

  /** Unread messages, messages read and being handled, messages left unacknowledged (which
      nobody reads again), delayed retries, dead letters; and, for the record, what was
      resolved, what was dropped for want of a compensator, and what the store refused to
      keep after a failure. */
  datatype System = System(limit: int, unread: seq<Msg>, batch: seq<Msg>, orphans: seq<Msg>, delayed: seq<Entry>,
                           dlq: seq<Task>, resolved: seq<Task>, dropped: seq<Task>, refused: seq<Task>,
                           worker: Worker, enqueued: seq<string>)

  datatype Step =
    | Enqueue(id: string, filter: string, first: nat)
    | EnqueueGarbage
    | ReadDue(order: seq<Task>, now: int)
    | ClaimAdd
    | ClaimRemove
    | ReadBatch
    | Handle(known: bool, ok: bool, error: string)
    | Store(now: int, stored: bool)
    | Ack(acked: bool)
    | AbortClaim
    | Crash

  const BATCH := 10

  function Initial(maxRetries: int): System {
    System(if maxRetries == 0 then 5 else maxRetries, [], [], [], [], [], [], [], [], Ready, [])
  }

  function Tasks(msgs: seq<Msg>): (ts: seq<Task>)
    decreases |msgs|
  {
    if msgs == [] then []
    else Tasks(msgs[..|msgs| - 1]) + (if msgs[|msgs| - 1].Carries? then [msgs[|msgs| - 1].task] else [])
  }

  function Members(entries: seq<Entry>): (ts: seq<Task>)
    ensures |ts| == |entries|
    ensures forall i :: 0 <= i < |entries| ==> ts[i] == entries[i].task
  {
    seq(|entries|, i requires 0 <= i < |entries| => entries[i].task)
  }

  /** Position of a member, or |entries|. */
  function Position(entries: seq<Entry>, t: Task): (i: nat)
    ensures i <= |entries| && (i < |entries| ==> entries[i].task == t)
    ensures forall j :: 0 <= j < i ==> entries[j].task != t
  {
    FirstAt(entries, (e: Entry) => e.task == t)
  }

  /** Adding a member again moves it to the new score. */
  function ZAdd(entries: seq<Entry>, t: Task, due: int): seq<Entry> {
    var i := Position(entries, t);
    if i < |entries| then entries[i := Entry(t, due)] else entries + [Entry(t, due)]
  }

  function ZRem(entries: seq<Entry>, t: Task): seq<Entry> {
    var i := Position(entries, t);
    if i < |entries| then entries[..i] + entries[i + 1..] else entries
  }

  ghost predicate Distinct<T>(s: seq<T>) { forall i, j :: 0 <= i < j < |s| ==> s[i] != s[j] }

  /** The members due at `now`, in some order. */
  ghost predicate DueList(order: seq<Task>, entries: seq<Entry>, now: int) {
    && Distinct(order)
    && forall t :: t in order <==> exists i :: 0 <= i < |entries| && entries[i].task == t && entries[i].due <= now
  }

  /** Attempt k is retried after k² seconds; times are in milliseconds. */
  function Backoff(attempt: nat): int { 1000 * attempt * attempt }

  function Scheduled(t: Task, now: int): Task { t.(nextRetry := now + Backoff(t.attempt)) }

  /** The worker goes on to acknowledge the message of a failed task whether the store kept it or not. */
  function AfterFailure(s: System, t: Task, now: int, stored: bool): System {
    var s := s.(worker := Handling(Acking));
    if !stored then s.(refused := s.refused + [t])
    else if t.attempt >= s.limit then s.(dlq := s.dlq + [t])
    else s.(delayed := ZAdd(s.delayed, Scheduled(t, now), Scheduled(t, now).nextRetry))
  }

  function Compensated(t: Task): Task { t.(ran := t.ran + 1) }

  function HandleHead(s: System, known: bool, ok: bool, error: string): System
    requires s.batch != []
  {
    match s.batch[0]
    case Garbage => s.(worker := Handling(Acking))
    case Carries(t) =>
      if !known then s.(dropped := s.dropped + [t], worker := Handling(Acking))
      else if ok then s.(resolved := s.resolved + [Compensated(t)], worker := Handling(Acking))
      else s.(worker := Handling(Failed(Compensated(t).(attempt := t.attempt + 1, error := error))))
  }

  function NewTask(id: string, filter: string, first: nat): Task { Task(id, filter, first, first, 0, 0, "") }

  /** A step that is not enabled leaves the system as it is. AbortClaim is a store error in
      the claiming loop; an acknowledgement that fails leaves the message unacknowledged. */
  ghost function Apply(s: System, step: Step): System {
    match step
    case Enqueue(id, filter, first) =>
      s.(unread := s.unread + [Carries(NewTask(id, filter, first))], enqueued := s.enqueued + [id])
    case EnqueueGarbage => s.(unread := s.unread + [Garbage])
    case ReadDue(order, now) =>
      if s.worker.Ready? && DueList(order, s.delayed, now) && order != []
      then s.(worker := Claiming(order, false)) else s
    case ClaimAdd =>
      if s.worker.Claiming? && !s.worker.added && s.worker.due != []
      then s.(unread := s.unread + [Carries(s.worker.due[0])], worker := Claiming(s.worker.due, true)) else s
    case ClaimRemove =>
      if s.worker.Claiming? && s.worker.added && s.worker.due != [] then
        var due := s.worker.due;
        s.(delayed := ZRem(s.delayed, due[0]), worker := if |due| == 1 then Ready else Claiming(due[1..], false))
      else s
    case ReadBatch =>
      if s.worker.Ready? && s.unread != [] then
        var n := if |s.unread| < BATCH then |s.unread| else BATCH;
        s.(batch := s.unread[..n], unread := s.unread[n..], worker := Handling(Fresh))
      else s
    case Handle(known, ok, error) =>
      if s.worker == Handling(Fresh) && s.batch != [] then HandleHead(s, known, ok, error) else s
    case Store(now, stored) =>
      if s.worker.Handling? && s.worker.stage.Failed? then AfterFailure(s, s.worker.stage.task, now, stored) else s
    case Ack(acked) =>
      if s.worker == Handling(Acking) && s.batch != [] then
        s.(batch := s.batch[1..], orphans := if acked then s.orphans else s.orphans + [s.batch[0]],
           worker := if |s.batch| == 1 then Ready else Handling(Fresh))
      else s
    case AbortClaim => if s.worker.Claiming? then s.(worker := Ready) else s
    case Crash => s.(orphans := s.orphans + s.batch, batch := [], worker := Ready)
  }

  ghost function Run(maxRetries: int, steps: seq<Step>): System
    decreases |steps|
  {
    if steps == [] then Initial(maxRetries) else Apply(Run(maxRetries, steps[..|steps| - 1]), steps[|steps| - 1])
  }

  // ----- Lists of messages and members -----

  lemma {:induction false} TasksConcat(a: seq<Msg>, b: seq<Msg>)
    ensures Tasks(a + b) == Tasks(a) + Tasks(b)
    decreases |b|
  {
    if b == [] {
      assert a + b == a;
    } else {
      assert (a + b)[..|a + b| - 1] == a + b[..|b| - 1];
      TasksConcat(a, b[..|b| - 1]);
    }
  }

  lemma {:induction false} TasksOne(m: Msg)
    ensures Tasks([m]) == if m.Carries? then [m.task] else []
  {
    assert [m][..0] == [];
  }

  lemma {:induction false} TasksFirst(msgs: seq<Msg>)
    requires msgs != []
    ensures Tasks(msgs) == (if msgs[0].Carries? then [msgs[0].task] else []) + Tasks(msgs[1..])
  {
    assert msgs == [msgs[0]] + msgs[1..];
    TasksConcat([msgs[0]], msgs[1..]);
    TasksOne(msgs[0]);
  }

  lemma {:induction false} TasksAppend(msgs: seq<Msg>, m: Msg)
    ensures Tasks(msgs + [m]) == Tasks(msgs) + (if m.Carries? then [m.task] else [])
  {
    TasksConcat(msgs, [m]);
    TasksOne(m);
  }

  lemma {:induction false} MembersSplit(entries: seq<Entry>, i: nat)
    requires i < |entries|
    ensures Members(entries) == Members(entries[..i]) + [entries[i].task] + Members(entries[i + 1..])
    ensures Members(entries[..i] + entries[i + 1..]) == Members(entries[..i]) + Members(entries[i + 1..])
  {}

  lemma {:induction false} StillThere(entries: seq<Entry>, t: Task, u: Task)
    requires Position(entries, u) < |entries| && t != u
    ensures Position(ZRem(entries, t), u) < |ZRem(entries, t)|
  {
    var i, j := Position(entries, t), Position(entries, u);
    if i < |entries| {
      var rest := entries[..i] + entries[i + 1..];
      assert rest[if j < i then j else j - 1].task == u;
    }
  }

  function Rest(msgs: seq<Msg>): seq<Msg> { if msgs == [] then [] else msgs[1..] }

  /** What holds of the worker's position in every run. */
  ghost predicate Shape(s: System) {
    && (s.worker.Handling? <==> s.batch != [])
    && (s.worker.Handling? && s.worker.stage.Failed? ==>
       s.batch[0].Carries? && s.worker.stage.task.id == s.batch[0].task.id)
    && (s.worker.Claiming? ==> s.worker.due != [] && Distinct(s.worker.due)
                               && forall t :: t in s.worker.due ==> Position(s.delayed, t) < |s.delayed|)
  }

  lemma {:induction false} ClaimKeepsShape(s: System)
    requires Shape(s)
    ensures Shape(Apply(s, ClaimRemove))
  {
    hide ZRem, Position;
    if s.worker.Claiming? && s.worker.added {
      var due, s' := s.worker.due, Apply(s, ClaimRemove);
      forall t | t in due[1..] ensures Position(s'.delayed, t) < |s'.delayed| {
        StillThere(s.delayed, due[0], t);
      }
    }
  }

  lemma {:induction false} ReadDueKeepsShape(s: System, order: seq<Task>, now: int)
    requires Shape(s)
    ensures Shape(Apply(s, ReadDue(order, now)))
  {
    hide Position;
    if s.worker.Ready? && DueList(order, s.delayed, now) {
      forall t | t in order ensures Position(s.delayed, t) < |s.delayed| {
        var i :| 0 <= i < |s.delayed| && s.delayed[i].task == t && s.delayed[i].due <= now;
      }
    }
  }

  lemma {:induction false} StepKeepsShape(s: System, step: Step)
    requires Shape(s)
    ensures Shape(Apply(s, step))
  {
    hide ZAdd, ZRem, Position, DueList, Scheduled;
    match step {
      case ClaimRemove => ClaimKeepsShape(s);
      case ReadDue(order, now) => ReadDueKeepsShape(s, order, now);
      case _ =>
    }
  }

  lemma {:induction false} RunKeepsShape(maxRetries: int, steps: seq<Step>)
    ensures Shape(Run(maxRetries, steps))
    decreases |steps|
  {
    hide Apply;
    if steps != [] {
      RunKeepsShape(maxRetries, steps[..|steps| - 1]);
      StepKeepsShape(Run(maxRetries, steps[..|steps| - 1]), steps[|steps| - 1]);
    }
  }

  // ----- The store and the worker as an object -----

  class CompensationWorker {
    const maxRetries: int
    var unread: seq<Msg>
    var batch: seq<Msg>
    var delayed: seq<Entry>
    var dlq: seq<Task>
    ghost var orphans: seq<Msg>
    ghost var resolved: seq<Task>
    ghost var dropped: seq<Task>
    ghost var refused: seq<Task>
    ghost var enqueued: seq<string>

    constructor (maxRetries: int)
      ensures Valid() && Snapshot() == Initial(maxRetries)
    {
      this.maxRetries := if maxRetries == 0 then 5 else maxRetries;
      unread, batch, delayed, dlq := [], [], [], [];
      orphans, resolved, dropped, refused, enqueued := [], [], [], [], [];
    }

    /** The delayed set holds no member twice. */
    ghost predicate Valid()
      reads this
    {
      Distinct(Members(delayed))
    }

    /** Between calls the worker is ready, or about to handle the rest of its batch. */
    ghost function Snapshot(): System
      reads this
    {
      System(maxRetries, unread, batch, orphans, delayed, dlq, resolved, dropped, refused,
             if batch == [] then Ready else Handling(Fresh), enqueued)
    }

    /** Appends to the stream whatever it is given, if the store accepts it. */
    method EnqueueTask(id: string, filter: string, first: nat, accepted: bool) returns (ok: bool)
      requires Valid()
      modifies this
      ensures Valid() && ok == accepted
      ensures Snapshot() == if ok then Apply(old(Snapshot()), Enqueue(id, filter, first)) else old(Snapshot())
    {
      if accepted {
        unread := unread + [Carries(NewTask(id, filter, first))];
        enqueued := enqueued + [id];
      }
      ok := accepted;
    }

    method ZIndex(t: Task) returns (i: nat)
      ensures i == Position(delayed, t)
    {
      i := 0;
      while i < |delayed| && delayed[i].task != t
        invariant 0 <= i <= |delayed|
        invariant forall j :: 0 <= j < i ==> delayed[j].task != t
      {
        i := i + 1;
      }
    }

    method AddDelayed(t: Task, due: int)
      requires Valid()
      modifies this`delayed
      ensures Valid() && delayed == ZAdd(old(delayed), t, due)
    {
      var i := ZIndex(t);
      ZAddIsSet(delayed, t, due);
      if i < |delayed| {
        delayed := delayed[i := Entry(t, due)];
      } else {
        delayed := delayed + [Entry(t, due)];
      }
    }

    method RemoveDelayed(t: Task)
      requires Valid()
      modifies this`delayed
      ensures Valid() && delayed == ZRem(old(delayed), t)
    {
      var i := ZIndex(t);
      ZRemIsSet(delayed, t);
      if i < |delayed| {
        delayed := delayed[..i] + delayed[i + 1..];
      }
    }

    /** The members of the delayed set whose time has come. */
    method DueTasks(now: int) returns (order: seq<Task>)
      requires Valid()
      ensures DueList(order, delayed, now)
    {
      order := [];
      ghost var at: seq<int> := [];
      for i := 0 to |delayed|
        invariant |at| == |order|
        invariant forall k :: 0 <= k < |at| ==>
                  0 <= at[k] < i && delayed[at[k]].due <= now && order[k] == delayed[at[k]].task
        invariant forall k, l :: 0 <= k < l < |at| ==> at[k] < at[l]
        invariant forall j :: 0 <= j < i && delayed[j].due <= now ==> delayed[j].task in order
      {
        if delayed[i].due <= now {
          order := order + [delayed[i].task];
          at := at + [i];
        }
      }
      forall k, l | 0 <= k < l < |order| ensures order[k] != order[l] {
        assert Members(delayed)[at[k]] != Members(delayed)[at[l]];
      }
    }

    /** Moves the due tasks back to the stream, each first added there, then removed from the
        delayed set; a store error, addOk(i) or removeOk(i) false, ends the loop where it is. */
    method ClaimDelayed(now: int, addOk: nat -> bool, removeOk: nat -> bool)
      returns (claimed: nat, ok: bool, ghost order: seq<Task>)
      requires Valid() && batch == []
      modifies this`unread, this`delayed
      ensures Valid() && DueList(order, old(delayed), now) && claimed <= |order|
      ensures ok <==> claimed == |order|
      ensures !ok ==> !(addOk(claimed) && removeOk(claimed))
      ensures Snapshot() == RunFrom(old(Snapshot()), ClaimSteps(order, now, claimed, ok, addOk(claimed)))
    {
      hide Apply, RunFrom, ZRem, Claims;
      var due := DueTasks(now);
      order := due;
      ghost var s0 := Snapshot();
      ClaimStarts(s0, due, now);
      claimed := 0;
      while claimed < |due|
        invariant claimed <= |due| && Valid() && batch == []
        invariant Snapshot().(worker := if claimed == |due| then Ready else Claiming(due[claimed..], false))
                  == RunFrom(s0, [ReadDue(due, now)] + Claims(claimed))
      {
        ghost var steps := [ReadDue(due, now)] + Claims(claimed);
        ClaimOne(RunFrom(s0, steps), due[claimed..]);
        RunTwoMore(s0, steps, ClaimAdd, ClaimRemove);
        RunTwoMore(s0, steps, ClaimAdd, AbortClaim);
        RunOneMore(s0, steps, AbortClaim);
        if !addOk(claimed) {
          return claimed, false, order;
        }
        unread := unread + [Carries(due[claimed])];
        if !removeOk(claimed) {
          return claimed, false, order;
        }
        RemoveDelayed(due[claimed]);
        assert due[claimed..][0] == due[claimed] && due[claimed..][1..] == due[claimed + 1..];
        OneMoreClaim(ReadDue(due, now), claimed);
        claimed := claimed + 1;
      }
      assert [ReadDue(due, now)] + Claims(claimed) + [] == [ReadDue(due, now)] + Claims(claimed);
      ok := true;
    }

    /** Reads up to ten messages. */
    method ReadMessages()
      requires Valid() && batch == []
      modifies this`unread, this`batch
      ensures Valid() && Snapshot() == Apply(old(Snapshot()), ReadBatch)
      ensures batch + unread == old(unread) && |batch| == if |old(unread)| < 10 then |old(unread)| else 10
    {
      var n := if |unread| < BATCH then |unread| else BATCH;
      batch := unread[..n];
      unread := unread[n..];
    }

    /** A failed task goes to the dead letters after its last attempt, to the delayed set
        before, unless the store fails. */
    method HandleFailure(task: Task, now: int, stored: bool)
      requires Valid()
      modifies this`delayed, this`dlq, this`refused
      ensures Valid()
      ensures Snapshot() == AfterFailure(old(Snapshot()), task, now, stored).(worker := Snapshot().worker)
    {
      hide ZAdd, Backoff, Distinct, Members;
      if !stored {
        refused := refused + [task];
      } else if task.attempt >= maxRetries {
        dlq := dlq + [task];
      } else {
        var retry := task.(nextRetry := now + Backoff(task.attempt));
        AddDelayed(retry, retry.nextRetry);
      }
    }

    /** One message: acknowledged at once if it carries no task or nobody compensates it,
        after success, and after its failure was stored or not. */
    method HandleMessage(reply: Reply)
      requires Valid() && batch != []
      modifies this`batch, this`delayed, this`dlq, this`orphans, this`resolved, this`dropped, this`refused
      ensures Valid() && Snapshot() == RunFrom(old(Snapshot()), HandleSteps(old(batch)[0], reply))
      ensures batch == old(batch)[1..]
    {
      hide RunFrom, ZAdd, Backoff, HandleSteps, Apply, Distinct, Members;
      ghost var s0 := Snapshot();
      if batch[0].Carries? {
        var t := batch[0].task;
        if !reply.known {
          dropped := dropped + [t];
        } else if reply.ok {
          resolved := resolved + [Compensated(t)];
        } else {
          HandleFailure(Compensated(t).(attempt := t.attempt + 1, error := reply.error), reply.now, reply.stored);
        }
      }
      if !reply.acked {
        orphans := orphans + [batch[0]];
      }
      batch := batch[1..];
      HandlingRuns(s0, reply);
    }

    /** Reads a batch and handles its messages in order, the i-th with replies(i). */
    method ProcessBatch(replies: nat -> Reply)
      requires Valid() && batch == []
      modifies this`unread, this`batch, this`delayed, this`dlq, this`orphans, this`resolved, this`dropped, this`refused
      ensures Valid() && batch == []
      ensures var s1 := Apply(old(Snapshot()), ReadBatch);
              Snapshot() == RunFrom(old(Snapshot()), [ReadBatch] + BatchSteps(s1.batch, replies, |s1.batch|))
    {
      hide Apply, RunFrom, HandleSteps;
      ghost var s0 := Snapshot();
      ReadMessages();
      ghost var all := batch;
      RunFirst(s0, ReadBatch);
      assert [ReadBatch] + BatchSteps(all, replies, 0) == [ReadBatch];
      var i := 0;
      while batch != []
        invariant Valid() && 0 <= i <= |all| && batch == all[i..]
        invariant Snapshot() == RunFrom(s0, [ReadBatch] + BatchSteps(all, replies, i))
        decreases |batch|
      {
        ghost var steps := [ReadBatch] + BatchSteps(all, replies, i);
        HandleMessage(replies(i));
        RunConcat(s0, steps, HandleSteps(all[i], replies(i)));
        assert steps + HandleSteps(all[i], replies(i)) == [ReadBatch] + BatchSteps(all, replies, i + 1);
        i := i + 1;
      }
    }
  }

  lemma {:induction false} ZAddIsSet(entries: seq<Entry>, t: Task, due: int)
    requires Distinct(Members(entries))
    ensures Distinct(Members(ZAdd(entries, t, due)))
  {
    hide Position;
    var i := Position(entries, t);
    if i < |entries| {
      assert Members(ZAdd(entries, t, due)) == Members(entries);
    } else {
      assert Members(ZAdd(entries, t, due)) == Members(entries) + [t];
    }
  }

  lemma {:induction false} ZRemIsSet(entries: seq<Entry>, t: Task)
    requires Distinct(Members(entries))
    ensures Distinct(Members(ZRem(entries, t)))
  {
    hide Position;
    var i := Position(entries, t);
    if i < |entries| {
      var rest := ZRem(entries, t);
      forall j, k | 0 <= j < k < |rest| ensures Members(rest)[j] != Members(rest)[k] {
        assert Members(rest)[j] == Members(entries)[if j < i then j else j + 1];
        assert Members(rest)[k] == Members(entries)[if k < i then k else k + 1];
      }
    }
  }

  /** What a message meets: a registered compensator, its answer, the clock, and whether the
      store keeps the failed task and takes the acknowledgement. */
  datatype Reply = Reply(known: bool, ok: bool, error: string, now: int, stored: bool, acked: bool)

  function HandleSteps(m: Msg, reply: Reply): seq<Step> {
    [Handle(reply.known, reply.ok, reply.error)]
    + (if m.Carries? && reply.known && !reply.ok then [Store(reply.now, reply.stored)] else [])
    + [Ack(reply.acked)]
  }

  function BatchSteps(batch: seq<Msg>, replies: nat -> Reply, n: nat): seq<Step>
    requires n <= |batch|
  {
    if n == 0 then [] else BatchSteps(batch, replies, n - 1) + HandleSteps(batch[n - 1], replies(n - 1))
  }

  ghost function ClaimSteps(order: seq<Task>, now: int, claimed: nat, ok: bool, added: bool): seq<Step> {
    [ReadDue(order, now)] + Claims(claimed)
    + if ok then [] else if added then [ClaimAdd] + [AbortClaim] else [AbortClaim]
  }

  ghost function RunFrom(s: System, steps: seq<Step>): System
    decreases |steps|
  {
    if steps == [] then s else Apply(RunFrom(s, steps[..|steps| - 1]), steps[|steps| - 1])
  }

  ghost function Claims(n: nat): seq<Step> { if n == 0 then [] else Claims(n - 1) + [ClaimAdd, ClaimRemove] }

  lemma {:induction false} RunOneMore(s: System, steps: seq<Step>, a: Step)
    ensures RunFrom(s, steps + [a]) == Apply(RunFrom(s, steps), a)
  {
    assert (steps + [a])[..|steps|] == steps;
  }

  lemma {:induction false} RunTwoMore(s: System, steps: seq<Step>, a: Step, b: Step)
    ensures RunFrom(s, steps + [a] + [b]) == Apply(Apply(RunFrom(s, steps), a), b)
    ensures steps + ([a] + [b]) == steps + [a] + [b]
  {
    hide RunFrom;
    RunOneMore(s, steps, a);
    RunOneMore(s, steps + [a], b);
  }

  lemma {:induction false} RunFirst(s: System, a: Step)
    ensures RunFrom(s, [a]) == Apply(s, a)
  {
    assert [a][..0] == [];
  }

  lemma {:induction false} RunConcat(s: System, steps: seq<Step>, more: seq<Step>)
    ensures RunFrom(s, steps + more) == RunFrom(RunFrom(s, steps), more)
    decreases |more|
  {
    hide Apply;
    if more == [] {
      assert steps + more == steps;
    } else {
      assert (steps + more)[..|steps + more| - 1] == steps + more[..|more| - 1];
      RunConcat(s, steps, more[..|more| - 1]);
    }
  }

  lemma {:induction false} HandlingRuns(s: System, reply: Reply)
    requires s.worker == Handling(Fresh) && s.batch != []
    ensures RunFrom(s, HandleSteps(s.batch[0], reply)) == Handled(s, reply)
  {
    hide RunFrom, ZAdd, Backoff;
    var first, last := Handle(reply.known, reply.ok, reply.error), Ack(reply.acked);
    RunFirst(s, first);
    if s.batch[0].Carries? && reply.known && !reply.ok {
      RunTwoMore(s, [first], Store(reply.now, reply.stored), last);
    } else {
      RunOneMore(s, [first], last);
      assert [first] + [] + [last] == [first] + [last];
    }
  }

  /** Handling one message in one go. */
  ghost function Handled(s: System, reply: Reply): System
    requires s.worker == Handling(Fresh) && s.batch != []
  {
    var s1 := HandleHead(s, reply.known, reply.ok, reply.error);
    var s2 := if s1.worker.stage.Failed? then AfterFailure(s1, s1.worker.stage.task, reply.now, reply.stored) else s1;
    s2.(batch := s.batch[1..], orphans := if reply.acked then s.orphans else s.orphans + [s.batch[0]],
        worker := if |s.batch| == 1 then Ready else Handling(Fresh))
  }

  lemma {:induction false} ClaimStarts(s: System, due: seq<Task>, now: int)
    requires s.worker == Ready && DueList(due, s.delayed, now)
    ensures RunFrom(s, [ReadDue(due, now)] + Claims(0))
            == s.(worker := if due == [] then Ready else Claiming(due, false))
  {
    assert [ReadDue(due, now)] + Claims(0) == [ReadDue(due, now)];
    RunFirst(s, ReadDue(due, now));
  }

  lemma {:induction false} OneMoreClaim(first: Step, n: nat)
    ensures [first] + Claims(n) + [ClaimAdd] + [ClaimRemove] == [first] + Claims(n + 1)
  {}

  lemma {:induction false} ClaimOne(s: System, due: seq<Task>)
    requires due != [] && s.worker == Claiming(due, false)
    ensures var s1 := Apply(s, ClaimAdd);
            && s1 == s.(unread := s.unread + [Carries(due[0])], worker := Claiming(due, true))
            && Apply(s1, ClaimRemove) == s1.(delayed := ZRem(s.delayed, due[0]),
                                             worker := if |due| == 1 then Ready else Claiming(due[1..], false))
            && Apply(s1, AbortClaim) == s1.(worker := Ready) && Apply(s, AbortClaim) == s.(worker := Ready)
  {
    hide ZRem;
  }
}
