/** The hedged call: two sub-calls race for one response writer. Each critical section, each
    channel operation and each write to the client is a step; a run is any interleaving. A
    sub-call cancels its own context together with the report of its failure. */
module Hedging {
  import opened Options

  /** The two sub-calls; their endpoints have different identifiers. */
  datatype Id = A | B

  function Other(id: Id): Id { if id == A then B else A }

  datatype Stage = Idle | Running | Returned(ok: bool) | Noted | Pushed | Finishing | Completed

  /** A write of a sub-call: past the cancellation check, past the claim, past the headers,
      past the signal to the caller and on its way to the client. */
  datatype WriteStage =
    | Quiet
    | Checked(chunk: string)
    | Claimed(chunk: string)
    | Headed(chunk: string)
    | Sending(chunk: string)

  predicate InFlight(w: WriteStage) { w.Claimed? || w.Headed? || w.Sending? }

  /** attempted: chunks this sub-call began to write; forwarded: those it wrote as the
      winner; discarded: those it wrote after the other had won. */
  datatype Sub = Sub(stage: Stage, cancelled: bool, isWinner: bool, failed: bool, write: WriteStage,
                     attempted: seq<string>, forwarded: seq<string>, discarded: seq<string>)

  datatype Result = Won(context: Id) | AllFailed | Terminal | Cancelled

  /** Where the caller is: at the first wait, at the check for a terminal failure after it, at
      the checks at the head of its loop, waiting, at the checks after a failure, with a
      winner picked, awaiting its end, or returned. */
  datatype Caller =
    | First
    | FirstJudge
    | Check(failures: nat)
    | Look(failures: nat)
    | Select(failures: nat)
    | Judge(failures: nat)
    | Recheck(failures: nat)
    | Count(failures: nat)
    | Picked(context: Id)
    | Awaiting(context: Id, winner: Id)
    | Done(result: Result)

  /** headers: the sub-calls that sent the response headers, in order. */
  datatype Session = Session(a: Sub, b: Sub, winner: Option<Id>, winnerContext: Option<Id>, terminal: bool,
                             winnerChan: nat, failuresChan: seq<Id>, received: set<Id>, headers: seq<Id>,
                             client: seq<(Id, string)>, sessionCancelled: bool, caller: Caller)

  datatype Step =
    | Timer
    | FirstWinner
    | FirstFailure
    | CheckTerminal
    | LookWinner
    | ReceiveWinner
    | ReceiveFailure
    | RecheckWinner
    | Conclude
    | CancelLoser
    | AwaitWinner
    | ContextDone
    | CancelSession
    | AcquireFails(id: Id)
    | BeginWrite(id: Id, chunk: string)
    | ClaimWrite(id: Id)
    | SendHeaders(id: Id)
    | SignalWinner(id: Id)
    | Forward(id: Id)
    | ProviderReturns(id: Id, ok: bool)
    | NoteFailure(id: Id, terminal: bool)
    | PushFailure(id: Id)
    | ClaimOnSuccess(id: Id)
    | Complete(id: Id)

  const NewSub := Sub(Idle, false, false, false, Quiet, [], [], [])

  /** Sub-call A is started before the caller first waits. */
  const Initial := Session(NewSub.(stage := Running), NewSub, None, None, false, 0, [], {}, [], [], false, First)

  function Get(s: Session, id: Id): Sub { if id == A then s.a else s.b }

  function Set(s: Session, id: Id, sub: Sub): Session { if id == A then s.(a := sub) else s.(b := sub) }

  function StartB(s: Session): Session { s.(b := s.b.(stage := Running)) }

  function Cancel(s: Session, id: Id): Session { Set(s, id, Get(s, id).(cancelled := true)) }

  /** The channel holds two signals; one more is dropped. */
  function Signal(s: Session): Session { if s.winnerChan < 2 then s.(winnerChan := s.winnerChan + 1) else s }

  /** The first claim stands. */
  function Claim(s: Session, id: Id): Session {
    if s.winner.Some? then s else Signal(s.(winner := Some(id), winnerContext := Some(id)))
  }

  function DoBeginWrite(s: Session, id: Id, chunk: string): Session {
    var sub := Get(s, id).(attempted := Get(s, id).attempted + [chunk]);
    if sub.cancelled then Set(s, id, sub)
    else if sub.isWinner then Set(s, id, sub.(write := Sending(chunk), forwarded := sub.forwarded + [chunk]))
    else Set(s, id, sub.(write := Checked(chunk)))
  }

  /** The critical section of a write: bytes of the loser are discarded, otherwise the
      sub-call is the winner, by this write or an earlier claim. */
  function DoClaimWrite(s: Session, id: Id): Session
    requires Get(s, id).write.Checked?
  {
    var sub := Get(s, id);
    var chunk := sub.write.chunk;
    if s.winner == Some(Other(id)) then Set(s, id, sub.(write := Quiet, discarded := sub.discarded + [chunk]))
    else Set(s.(winner := Some(id), winnerContext := Some(id)), id,
             sub.(isWinner := true, write := Claimed(chunk), forwarded := sub.forwarded + [chunk]))
  }

  function DoForward(s: Session, id: Id): Session
    requires Get(s, id).write.Sending?
  {
    Set(s, id, Get(s, id).(write := Quiet)).(client := s.client + [(id, Get(s, id).write.chunk)])
  }

  function DoPush(s: Session, id: Id): Session {
    Set(s.(failuresChan := s.failuresChan + [id]), id, Get(s, id).(stage := Pushed, cancelled := true, failed := true))
  }

  function Receive(s: Session): Session
    requires s.failuresChan != []
  {
    s.(received := s.received + {s.failuresChan[0]}, failuresChan := s.failuresChan[1..])
  }

  function DoCheckTerminal(s: Session): Session {
    match s.caller
    case FirstJudge => if s.terminal then s.(caller := Done(Terminal)) else StartB(s).(caller := Check(1))
    case Check(n) => s.(caller := if s.terminal then Done(Terminal) else Look(n))
    case Judge(n) => s.(caller := if s.terminal then Done(Terminal) else Recheck(n))
    case _ => s
  }

  /** A step of the caller. */
  function Move(s: Session, step: Step): Session {
    match step
    case Timer => if s.caller.First? then StartB(s).(caller := Check(0)) else s
    case FirstWinner =>
      if s.caller.First? && s.winnerChan > 0 then s.(winnerChan := s.winnerChan - 1, caller := Check(0)) else s
    case FirstFailure =>
      if s.caller.First? && s.failuresChan != [] then Receive(s).(caller := FirstJudge) else s
    case CheckTerminal => DoCheckTerminal(s)
    case LookWinner =>
      if !s.caller.Look? then s
      else if s.winner.Some? && s.winnerContext.Some? then s.(caller := Picked(s.winnerContext.value))
      else s.(caller := Select(s.caller.failures))
    case ReceiveWinner =>
      if s.caller.Select? && s.winnerChan > 0
      then s.(winnerChan := s.winnerChan - 1, caller := Check(s.caller.failures)) else s
    case ReceiveFailure =>
      if s.caller.Select? && s.failuresChan != [] then Receive(s).(caller := Judge(s.caller.failures)) else s
    case RecheckWinner =>
      if !s.caller.Recheck? then s
      else if s.winner.Some? then s.(caller := Check(s.caller.failures))
      else s.(caller := Count(s.caller.failures + 1))
    case Conclude =>
      if !s.caller.Count? then s
      else s.(caller := if s.caller.failures >= 2 then Done(AllFailed) else Check(s.caller.failures))
    case CancelLoser =>
      if s.caller.Picked? && s.winner.Some?
      then Cancel(s, Other(s.winner.value)).(caller := Awaiting(s.caller.context, s.winner.value)) else s
    case AwaitWinner =>
      if s.caller.Awaiting? && Get(s, s.caller.winner).stage == Completed
      then s.(caller := Done(Won(s.caller.context))) else s
    case ContextDone =>
      if s.sessionCancelled && (s.caller.First? || s.caller.Select? || s.caller.Awaiting?)
      then s.(caller := Done(Cancelled)) else s
    case CancelSession =>
      s.(sessionCancelled := true, a := s.a.(cancelled := true), b := s.b.(cancelled := true))
    case _ => s
  }

  /** A step that is not enabled leaves the session as it is. */
  function Apply(s: Session, step: Step): Session {
    match step
    case AcquireFails(id) =>
      if Get(s, id).stage == Running && Get(s, id).write == Quiet && Get(s, id).forwarded == []
         && Get(s, id).discarded == []
      then Set(s, id, Get(s, id).(stage := Noted)) else s
    case BeginWrite(id, chunk) =>
      if Get(s, id).stage == Running && Get(s, id).write == Quiet then DoBeginWrite(s, id, chunk) else s
    case ClaimWrite(id) => if Get(s, id).write.Checked? then DoClaimWrite(s, id) else s
    case SendHeaders(id) =>
      if Get(s, id).write.Claimed?
      then Set(s.(headers := s.headers + [id]), id, Get(s, id).(write := Headed(Get(s, id).write.chunk))) else s
    case SignalWinner(id) =>
      if Get(s, id).write.Headed? then Set(Signal(s), id, Get(s, id).(write := Sending(Get(s, id).write.chunk))) else s
    case Forward(id) => if Get(s, id).write.Sending? then DoForward(s, id) else s
    case ProviderReturns(id, ok) =>
      if Get(s, id).stage == Running && Get(s, id).write == Quiet
      then Set(s, id, Get(s, id).(stage := Returned(ok))) else s
    case NoteFailure(id, terminal) =>
      if Get(s, id).stage == Returned(false)
      then Set(s.(terminal := s.terminal || terminal), id, Get(s, id).(stage := Noted)) else s
    case PushFailure(id) => if Get(s, id).stage == Noted then DoPush(s, id) else s
    case ClaimOnSuccess(id) =>
      if Get(s, id).stage == Returned(true) then
        var s := Claim(s, id); Set(s, id, Get(s, id).(stage := Finishing))
      else s
    case Complete(id) =>
      if Get(s, id).stage == Pushed || Get(s, id).stage == Finishing
      then Set(s, id, Get(s, id).(stage := Completed)) else s
    case _ => Move(s, step)
  }

  function Run(steps: seq<Step>): Session
    decreases |steps|
  {
    if steps == [] then Initial else Apply(Run(steps[..|steps| - 1]), steps[|steps| - 1])
  }

  // ----- The session's shared fields as an object -----

  class RaceSession {
    var winnerID: Option<Id>
    var winnerGctx: Option<Id>
    ghost var signals: nat

    constructor ()
      ensures winnerID == None && winnerGctx == None && signals == 0
    {
      winnerID, winnerGctx, signals := None, None, 0;
    }

    /** Agrees with the model session on the fields guarded by the session mutex. */
    ghost predicate Matches(s: Session)
      reads this
    {
      winnerID == s.winner && winnerGctx == s.winnerContext && signals == s.winnerChan
    }

    method ClaimWinner(child: Id, ghost s: Session)
      requires Matches(s)
      modifies this
      ensures Matches(Claim(s, child))
      ensures old(winnerID).Some? ==> winnerID == old(winnerID) && winnerGctx == old(winnerGctx)
    {
      if winnerID.Some? {
        return;
      }
      winnerID := Some(child);
      winnerGctx := Some(child);
      if signals < 2 {
        signals := signals + 1;
      }
    }

    /** The critical section of a write; returns whether its bytes may go to the client. */
    method TryWin(child: Id, ghost s: Session) returns (mayForward: bool)
      requires Matches(s) && Get(s, child).write.Checked?
      modifies this
      ensures Matches(DoClaimWrite(s, child))
      ensures mayForward <==> InFlight(Get(DoClaimWrite(s, child), child).write)
      ensures mayForward <==> old(winnerID) != Some(Other(child))
    {
      if winnerID.Some? && winnerID.value != child {
        return false;
      }
      winnerID := Some(child);
      winnerGctx := Some(child);
      return true;
    }
  }

  // ----- The invariant -----

  /** The client has exactly these chunks, all from sub-call w. */
  ghost predicate Delivered(client: seq<(Id, string)>, w: Id, chunks: seq<string>) {
    |client| == |chunks| && forall i :: 0 <= i < |client| ==> client[i] == (w, chunks[i])
  }

  /** The chunks a sub-call wrote as the winner, less one still on its way. */
  function Arrived(sub: Sub): seq<string> {
    if InFlight(sub.write) && sub.forwarded != [] then sub.forwarded[..|sub.forwarded| - 1] else sub.forwarded
  }

  /** What a sub-call may have done, given who has won. */
  ghost predicate SubOk(sub: Sub, id: Id, winner: Option<Id>) {
    && (sub.isWinner ==> winner == Some(id))
    && (sub.forwarded != [] ==> sub.isWinner)
    && (sub.discarded != [] ==> winner == Some(Other(id)))
    && (sub.write != Quiet ==> sub.stage == Running)
    && (sub.write.Checked? ==> !sub.isWinner) && (sub.write.Claimed? ==> |sub.forwarded| == 1)
    && (InFlight(sub.write) ==> sub.forwarded != [] && sub.forwarded[|sub.forwarded| - 1] == sub.write.chunk)
    && (sub.stage == Idle ==> winner != Some(id))
    && (sub.failed ==> sub.stage == Pushed || sub.stage == Completed)
  }

  ghost predicate ClientOk(client: seq<(Id, string)>, winner: Option<Id>, a: Sub, b: Sub) {
    match winner
    case None => client == []
    case Some(A) => Delivered(client, A, Arrived(a))
    case Some(B) => Delivered(client, B, Arrived(b))
  }

  /** The winner sends the headers once, before its first bytes. */
  predicate HeadersOk(headers: seq<Id>, a: Sub, b: Sub) {
    headers == (if SentHeaders(a) then [A] else []) + (if SentHeaders(b) then [B] else [])
  }

  predicate SentHeaders(sub: Sub) { sub.isWinner && !sub.write.Claimed? }

  predicate FailedOf(id: Id, aFailed: bool, bFailed: bool) { if id == A then aFailed else bFailed }

  ghost predicate FailuresOk(received: set<Id>, chan: seq<Id>, aFailed: bool, bFailed: bool) {
    && (forall id :: id in received ==> FailedOf(id, aFailed, bFailed))
    && (forall i :: 0 <= i < |chan| ==> FailedOf(chan[i], aFailed, bFailed) && chan[i] !in received)
    && (forall i, j :: 0 <= i < j < |chan| ==> chan[i] != chan[j])
  }

  ghost predicate CallerOk(caller: Caller, winner: Option<Id>, received: set<Id>, a: Sub, b: Sub) {
    match caller
    case First => received == {} && b.stage == Idle
    case FirstJudge => |received| >= 1 && b.stage == Idle
    case Check(n) => n <= |received|
    case Look(n) => n <= |received|
    case Select(n) => n <= |received|
    case Judge(n) => n + 1 <= |received|
    case Recheck(n) => n + 1 <= |received|
    case Count(n) => n <= |received| && (n >= 2 ==> winner == None)
    case Picked(c) => winner == Some(c)
    case Awaiting(c, w) => winner == Some(c) && w == c
    case Done(Won(c)) => winner == Some(c) && (if c == A then a.stage else b.stage) == Completed
    case Done(AllFailed) => winner == None && a.failed && b.failed
    case Done(_) => true
  }

  ghost predicate Inv(s: Session) {
    && SubOk(s.a, A, s.winner) && SubOk(s.b, B, s.winner)
    && ClientOk(s.client, s.winner, s.a, s.b) && HeadersOk(s.headers, s.a, s.b)
    && FailuresOk(s.received, s.failuresChan, s.a.failed, s.b.failed)
    && CallerOk(s.caller, s.winner, s.received, s.a, s.b)
    && s.winnerContext == s.winner
  }

  lemma {:induction false} TwoReceived(s: set<Id>)
    requires |s| >= 2
    ensures A in s && B in s
  {
    if A !in s || B !in s {
      var rest := if A !in s then {B} else {A};
      forall x | x in s ensures x in rest {
        match x
        case A =>
        case B =>
      }
      SubsetSize(s, rest);
    }
  }

  lemma {:induction false} SubsetSize<T>(x: set<T>, y: set<T>)
    requires x <= y
    ensures |x| <= |y|
    decreases |x|
  {
    if x != {} {
      var e :| e in x;
      SubsetSize(x - {e}, y - {e});
    }
  }

  /** The caller is not disturbed by a sub-call that moves on, or that wins an open race
      in which it has not failed. */
  lemma {:induction false} CallerUndisturbed(s: Session, s': Session)
    requires CallerOk(s.caller, s.winner, s.received, s.a, s.b) && s'.caller == s.caller && s'.received == s.received
    requires FailuresOk(s.received, s.failuresChan, s.a.failed, s.b.failed)
    requires s'.winner == s.winner || (s.winner == None && !(s.a.failed && s.b.failed))
    requires (s.a.stage == Completed ==> s'.a.stage == Completed)
             && (s.b.stage == Completed ==> s'.b.stage == Completed)
    requires (s.b.stage == Idle ==> s'.b.stage == Idle) && (s.a.failed ==> s'.a.failed) && (s.b.failed ==> s'.b.failed)
    ensures CallerOk(s'.caller, s'.winner, s'.received, s'.a, s'.b)
  {
    if s.caller.Count? && s.caller.failures >= 2 { TwoReceived(s.received); }
  }

  /** A sub-call that changes nothing the others see. */
  lemma {:induction false} OneSub(s: Session, id: Id, sub: Sub)
    requires Inv(s) && SubOk(sub, id, s.winner) && Arrived(sub) == Arrived(Get(s, id))
    requires SentHeaders(sub) == SentHeaders(Get(s, id)) && sub.failed == Get(s, id).failed
    requires (Get(s, id).stage == Completed ==> sub.stage == Completed)
             && (Get(s, id).stage == Idle ==> sub.stage == Idle)
    ensures Inv(Set(s, id, sub))
  {
    hide SubOk, Arrived, Delivered, SentHeaders, FailuresOk, CallerOk;
    CallerUndisturbed(s, Set(s, id, sub));
  }

  /** Signals, the terminal flag and the session's cancellation bear on nothing else. */
  lemma {:induction false} Unrelated(s: Session, s': Session)
    requires Inv(s)
    requires s' == s.(terminal := s'.terminal, winnerChan := s'.winnerChan, sessionCancelled := s'.sessionCancelled)
    ensures Inv(s')
  {
    hide SubOk, ClientOk, HeadersOk, FailuresOk, CallerOk;
  }

  // ----- Writes -----

  lemma {:induction false} BeginWriteKeeps(s: Session, id: Id, chunk: string)
    requires Inv(s) && Get(s, id).stage == Running && Get(s, id).write == Quiet
    ensures Inv(DoBeginWrite(s, id, chunk))
  {
    hide CallerOk, FailuresOk;
    var sub := Get(s, id);
    assert (sub.forwarded + [chunk])[..|sub.forwarded|] == sub.forwarded;
    assert sub.cancelled ==> Arrived(Get(DoBeginWrite(s, id, chunk), id)) == Arrived(sub);
    hide Delivered;
    CallerUndisturbed(s, DoBeginWrite(s, id, chunk));
  }

  lemma {:induction false} WriterOk(client: seq<(Id, string)>, sub: Sub, id: Id, winner: Option<Id>)
    requires SubOk(sub, id, winner) && sub.write.Checked? && winner != Some(Other(id))
    requires if winner == Some(id) then Delivered(client, id, Arrived(sub)) else client == []
    ensures var sub' := sub.(isWinner := true, forwarded := sub.forwarded + [sub.write.chunk],
                             write := Claimed(sub.write.chunk));
            SubOk(sub', id, Some(id)) && Delivered(client, id, Arrived(sub'))
  {
    assert (sub.forwarded + [sub.write.chunk])[..|sub.forwarded|] == sub.forwarded;
  }

  lemma {:induction false} LoserOk(sub: Sub, id: Id, winner: Option<Id>)
    requires SubOk(sub, id, winner) && winner != Some(id)
    ensures SubOk(sub, id, Some(Other(id))) && !sub.isWinner
  {}

  lemma {:induction false} ClaimWriteKeeps(s: Session, id: Id)
    requires Inv(s) && Get(s, id).write.Checked?
    ensures Inv(DoClaimWrite(s, id))
  {
    hide CallerOk, FailuresOk, Arrived, Delivered;
    var s' := DoClaimWrite(s, id);
    if s.winner != Some(Other(id)) {
      assert !(s.a.failed && s.b.failed) && !Get(s, id).isWinner;
      hide SubOk;
      WriterOk(s.client, Get(s, id), id, s.winner);
      LoserOk(Get(s, Other(id)), Other(id), s.winner);
    } else {
      assert Arrived(s'.a) == Arrived(s.a) && Arrived(s'.b) == Arrived(s.b) by { LosesNothing(Get(s, id), id); }
    }
    CallerUndisturbed(s, s');
  }

  lemma {:induction false} LosesNothing(sub: Sub, id: Id)
    ensures Arrived(sub.(write := Quiet,
                         discarded := sub.discarded + [if sub.write.Checked? then sub.write.chunk else ""]))
            == if sub.write.Checked? then Arrived(sub) else sub.forwarded
  {}

  lemma {:induction false} HeadersKeep(s: Session, id: Id)
    requires Inv(s) && Get(s, id).write.Claimed?
    ensures Inv(Apply(s, SendHeaders(id)))
  {
    hide FailuresOk, CallerOk, Delivered;
    var s' := Apply(s, SendHeaders(id));
    assert Arrived(Get(s', id)) == Arrived(Get(s, id)) && !Get(s, Other(id)).isWinner;
    hide Arrived;
    CallerUndisturbed(s, s');
  }

  lemma {:induction false} SignalKeeps(s: Session, id: Id)
    requires Inv(s) && Get(s, id).write.Headed?
    ensures Inv(Apply(s, SignalWinner(id)))
  {
    var sub := Get(s, id).(write := Sending(Get(s, id).write.chunk));
    assert SubOk(sub, id, s.winner);
    OneSub(s, id, sub);
    hide Inv;
    Unrelated(Set(s, id, sub), Apply(s, SignalWinner(id)));
  }

  lemma {:induction false} ForwardKeeps(s: Session, id: Id)
    requires Inv(s) && Get(s, id).write.Sending?
    ensures Inv(DoForward(s, id))
  {
    hide CallerOk, FailuresOk;
    var sub := Get(s, id);
    assert sub.forwarded == Arrived(sub) + [sub.write.chunk];
    CallerUndisturbed(s, DoForward(s, id));
  }

  // ----- Ends of sub-calls -----

  lemma {:induction false} PushKeeps(s: Session, id: Id)
    requires Inv(s) && Get(s, id).stage == Noted
    ensures Inv(DoPush(s, id))
  {
    hide CallerOk, Delivered, Arrived;
    var sub, s' := Get(s, id), DoPush(s, id);
    SameArrived(sub, Get(s', id));
    assert SubOk(Get(s', id), id, s.winner);
    PushIsOk(s, id);
    hide SubOk, FailuresOk;
    CallerUndisturbed(s, s');
  }

  lemma {:induction false} SameArrived(sub: Sub, sub': Sub)
    requires sub'.write == sub.write && sub'.forwarded == sub.forwarded
    ensures Arrived(sub') == Arrived(sub)
  {}

  lemma {:induction false} PushIsOk(s: Session, id: Id)
    requires Inv(s) && Get(s, id).stage == Noted
    ensures var s' := DoPush(s, id); FailuresOk(s'.received, s'.failuresChan, s'.a.failed, s'.b.failed)
  {
    hide ClientOk, HeadersOk, CallerOk;
    assert !FailedOf(id, s.a.failed, s.b.failed);
  }

  /** A sub-call that succeeded without writing claims the race when it returns. */
  lemma {:induction false} ClaimKeeps(s: Session, id: Id)
    requires Inv(s) && Get(s, id).stage == Returned(true)
    ensures Inv(Apply(s, ClaimOnSuccess(id)))
  {
    hide Inv;
    ClaimedKeeps(s, id);
    RunningFacts(s, id);
    StageKeeps(Claim(s, id), id, Finishing);
  }

  lemma {:induction false} ClaimedKeeps(s: Session, id: Id)
    requires Inv(s) && Get(s, id).stage == Returned(true)
    ensures Inv(Claim(s, id))
  {
    if s.winner == None {
      hide CallerOk, FailuresOk;
      var s' := s.(winner := Some(id), winnerContext := Some(id));
      assert Delivered(s.client, id, []) && Get(s, id).forwarded == [];
      LoserOk(Get(s, Other(id)), Other(id), s.winner);
      CallerUndisturbed(s, s');
      hide Inv;
      Unrelated(s', Signal(s'));
    }
  }

  lemma {:induction false} StageKeeps(s: Session, id: Id, stage: Stage)
    requires Inv(s) && Get(s, id).write == Quiet && Get(s, id).stage != Idle && Get(s, id).stage != Completed
    requires stage != Idle && (Get(s, id).failed ==> stage == Completed)
    ensures Inv(Set(s, id, Get(s, id).(stage := stage)))
  {
    var sub := Get(s, id).(stage := stage);
    SameArrived(Get(s, id), sub);
    assert SubOk(sub, id, s.winner);
    OneSub(s, id, sub);
  }

  lemma {:induction false} RunningFacts(s: Session, id: Id)
    requires Inv(s)
    ensures Get(s, id).stage != Running ==> Get(s, id).write == Quiet
    ensures Get(s, id).failed ==> Get(s, id).stage == Pushed || Get(s, id).stage == Completed
  {}

  lemma {:induction false} StageMoveKeeps(s: Session, step: Step)
    requires Inv(s) && (step.AcquireFails? || step.ProviderReturns? || step.NoteFailure? || step.Complete?)
    ensures Inv(Apply(s, step))
  {
    hide Inv;
    var id := step.id;
    RunningFacts(s, id);
    if Apply(s, step) != s {
      var stage := Get(Apply(s, step), id).stage;
      StageKeeps(s, id, stage);
      if step.NoteFailure? { Unrelated(Set(s, id, Get(s, id).(stage := stage)), Apply(s, step)); }
    }
  }

  // ----- The caller -----

  lemma {:induction false} ReceiveKeeps(received: set<Id>, chan: seq<Id>, aFailed: bool, bFailed: bool)
    requires FailuresOk(received, chan, aFailed, bFailed) && chan != []
    ensures FailuresOk(received + {chan[0]}, chan[1..], aFailed, bFailed)
    ensures |received + {chan[0]}| == |received| + 1
  {
    assert forall i :: 0 <= i < |chan| - 1 ==> chan[1..][i] == chan[i + 1];
  }

  lemma {:induction false} ReceiveFailureKeeps(s: Session, step: Step)
    requires Inv(s) && (step == FirstFailure || step == ReceiveFailure)
    ensures Inv(Move(s, step))
  {
    hide SubOk, ClientOk, HeadersOk, FailuresOk;
    if s.failuresChan != [] { ReceiveKeeps(s.received, s.failuresChan, s.a.failed, s.b.failed); }
  }

  lemma {:induction false} ConcludeKeeps(s: Session)
    requires Inv(s)
    ensures Inv(Move(s, Conclude))
  {
    hide SubOk, ClientOk, HeadersOk;
    if s.caller.Count? && s.caller.failures >= 2 { TwoReceived(s.received); }
  }

  lemma {:induction false} RecheckKeeps(s: Session)
    requires Inv(s)
    ensures Inv(Move(s, RecheckWinner))
  {
    hide SubOk, ClientOk, HeadersOk, FailuresOk;
  }

  lemma {:induction false} CallerMoveKeeps(s: Session, step: Step)
    requires Inv(s)
    requires step.FirstWinner? || step.LookWinner? || step.ReceiveWinner? || step.AwaitWinner? || step.ContextDone?
    ensures Inv(Move(s, step))
  {
    hide SubOk, ClientOk, HeadersOk, FailuresOk;
  }

  lemma {:induction false} StartKeeps(s: Session, caller: Caller)
    requires Inv(s) && s.b.stage == Idle && (caller == Check(0) || (caller == Check(1) && |s.received| >= 1))
    ensures Inv(StartB(s).(caller := caller))
  {
    hide FailuresOk, Delivered;
    SameArrived(s.b, StartB(s).b);
    hide Arrived;
  }

  /** Steps of the caller that start or cancel sub-calls. */
  lemma {:induction false} ControlKeeps(s: Session, step: Step)
    requires Inv(s) && (step.Timer? || step.CheckTerminal?)
    ensures Inv(Move(s, step))
  {
    if s.caller.First? && step.Timer? {
      StartKeeps(s, Check(0));
    } else if s.caller.FirstJudge? && step.CheckTerminal? && !s.terminal {
      StartKeeps(s, Check(1));
    } else {
      hide SubOk, ClientOk, HeadersOk, FailuresOk;
    }
  }

  lemma {:induction false} CancelKeeps(s: Session, id: Id)
    requires Inv(s)
    ensures Inv(Cancel(s, id))
  {
    SameArrived(Get(s, id), Get(s, id).(cancelled := true));
    OneSub(s, id, Get(s, id).(cancelled := true));
  }

  lemma {:induction false} CancelStepKeeps(s: Session, step: Step)
    requires Inv(s) && (step.CancelLoser? || step.CancelSession?)
    ensures Inv(Move(s, step))
  {
    if step.CancelSession? {
      CancelKeeps(s, A);
      CancelKeeps(Cancel(s, A), B);
      Unrelated(Cancel(Cancel(s, A), B), Move(s, step));
    } else if s.caller.Picked? && s.winner.Some? {
      CancelKeeps(s, Other(s.winner.value));
      hide SubOk, ClientOk, HeadersOk, FailuresOk;
    }
  }

  lemma {:induction false} MoveKeeps(s: Session, step: Step)
    requires Inv(s)
    ensures Inv(Move(s, step))
  {
    hide Inv;
    match step {
      case FirstFailure => ReceiveFailureKeeps(s, step);
      case ReceiveFailure => ReceiveFailureKeeps(s, step);
      case RecheckWinner => RecheckKeeps(s);
      case Conclude => ConcludeKeeps(s);
      case Timer => ControlKeeps(s, step);
      case CheckTerminal => ControlKeeps(s, step);
      case CancelLoser => CancelStepKeeps(s, step);
      case CancelSession => CancelStepKeeps(s, step);
      case FirstWinner => CallerMoveKeeps(s, step);
      case LookWinner => CallerMoveKeeps(s, step);
      case ReceiveWinner => CallerMoveKeeps(s, step);
      case AwaitWinner => CallerMoveKeeps(s, step);
      case ContextDone => CallerMoveKeeps(s, step);
      case _ =>
    }
  }

  lemma {:induction false} StepKeepsInv(s: Session, step: Step)
    requires Inv(s)
    ensures Inv(Apply(s, step))
  {
    hide Inv, Move;
    if Apply(s, step) != s {
      match step {
        case BeginWrite(id, chunk) => BeginWriteKeeps(s, id, chunk);
        case ClaimWrite(id) => ClaimWriteKeeps(s, id);
        case SendHeaders(id) => HeadersKeep(s, id);
        case SignalWinner(id) => SignalKeeps(s, id);
        case Forward(id) => ForwardKeeps(s, id);
        case PushFailure(id) => PushKeeps(s, id);
        case ClaimOnSuccess(id) => ClaimKeeps(s, id);
        case AcquireFails(_) => StageMoveKeeps(s, step);
        case ProviderReturns(_, _) => StageMoveKeeps(s, step);
        case NoteFailure(_, _) => StageMoveKeeps(s, step);
        case Complete(_) => StageMoveKeeps(s, step);
        case _ => MoveKeeps(s, step);
      }
    }
  }

  lemma {:induction false} RunKeepsInv(steps: seq<Step>)
    ensures Inv(Run(steps))
    decreases |steps|
  {
    hide Apply;
    if steps != [] {
      RunKeepsInv(steps[..|steps| - 1]);
      StepKeepsInv(Run(steps[..|steps| - 1]), steps[|steps| - 1]);
    }
  }

  // ----- What the race promises -----

  lemma {:induction false} WinnerStands(s: Session, step: Step)
    requires s.winner.Some? && s.winnerContext == s.winner
    ensures Apply(s, step).winner == s.winner && Apply(s, step).winnerContext == s.winner
  {
    if step.ClaimWrite? {
      assert s.winner == Some(step.id) || s.winner == Some(Other(step.id)) by { EitherOne(s.winner.value, step.id); }
    }
  }

  lemma {:induction false} EitherOne(w: Id, id: Id)
    ensures w == id || w == Other(id)
  {
    match w
    case A =>
    case B =>
  }

  /** The winner is decided once: whatever follows, winner and winner context stay. */
  lemma {:induction false} WinnerIsFinal(steps: seq<Step>, more: seq<Step>)
    requires Run(steps).winner.Some?
    ensures Run(steps + more).winner == Run(steps).winner && Run(steps + more).winnerContext == Run(steps).winner
    decreases |more|
  {
    hide Apply;
    if more == [] {
      assert steps + more == steps;
      RunKeepsInv(steps);
    } else {
      var n := |more| - 1;
      assert (steps + more)[..|steps + more| - 1] == steps + more[..n];
      WinnerIsFinal(steps, more[..n]);
      WinnerStands(Run(steps + more[..n]), more[n]);
    }
  }

  /** In every run, what the client has is the winner's own writes in order, all but at
      most the last; the other sub-call contributes nothing. The headers of the response are
      sent at most once, by the winner, before its first bytes. */
  lemma {:induction false} ClientSeesOnlyTheWinner(steps: seq<Step>)
    ensures var s := Run(steps);
            match s.winner
            case None => s.client == [] && s.headers == []
            case Some(w) => && Delivered(s.client, w, Arrived(Get(s, w)))
                            && Get(s, w).discarded == [] && Get(s, Other(w)).forwarded == []
                            && (s.headers == [] || s.headers == [w]) && (s.client != [] ==> s.headers == [w])
  {
    hide Run;
    RunKeepsInv(steps);
  }

  /** A successful return copies back the context of the sub-call whose bytes the client
      has, after that sub-call has completed and all its bytes have arrived. */
  lemma {:induction false} ReturnedContextIsTheWinners(steps: seq<Step>, c: Id)
    requires Run(steps).caller == Done(Won(c))
    ensures Run(steps).winner == Some(c) && Get(Run(steps), c).stage == Completed
    ensures Delivered(Run(steps).client, c, Get(Run(steps), c).forwarded)
  {
    hide Run;
    RunKeepsInv(steps);
  }

  /** "All channels failed" is returned only when both sub-calls failed, neither won, and
      nothing reached the client. */
  lemma {:induction false} AllFailedMeansAllFailed(steps: seq<Step>)
    requires Run(steps).caller == Done(AllFailed)
    ensures Run(steps).a.failed && Run(steps).b.failed && Run(steps).winner == None && Run(steps).client == []
  {
    hide Run;
    RunKeepsInv(steps);
  }
}
