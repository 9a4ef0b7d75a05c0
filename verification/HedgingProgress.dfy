/** Who is cancelled in the hedged call, what becomes of the winner's writes, what justifies
    each result, and that the caller is never left waiting for nothing. */
module HedgingProgress {
  import opened Options
  import opened Hedging

  // ----- Cancellation and writes -----

  /** A sub-call is cancelled only with the session, after its own failure, or as the loser. */
  ghost predicate CancelOk(sub: Sub, id: Id, winner: Option<Id>, sessionCancelled: bool) {
    sub.cancelled ==> sessionCancelled || sub.failed || winner == Some(Other(id))
  }

  function Begun(write: WriteStage): seq<string> { if write.Checked? then [write.chunk] else [] }

  /** Every write of a sub-call that has not lost goes on, unless the session is cancelled. */
  ghost predicate WritesOk(sub: Sub, id: Id, winner: Option<Id>, sessionCancelled: bool) {
    winner != Some(Other(id)) && !sessionCancelled ==> sub.attempted == sub.forwarded + Begun(sub.write)
  }

  ghost predicate SubFair(s: Session, id: Id) {
    && CancelOk(Get(s, id), id, s.winner, s.sessionCancelled)
    && WritesOk(Get(s, id), id, s.winner, s.sessionCancelled)
  }

  // ----- The caller -----

  /** What a position of the caller says about cancellation and the reasons to return. */
  ghost predicate ResultOk(caller: Caller, a: Sub, b: Sub, terminal: bool, sessionCancelled: bool) {
    match caller
    case Awaiting(_, w) => if w == A then b.cancelled else a.cancelled
    case Done(Won(w)) => if w == A then b.cancelled else a.cancelled
    case Done(Terminal) => terminal
    case Done(Cancelled) => sessionCancelled
    case _ => true
  }

  predicate Unsignalled(sub: Sub) { sub.write.Claimed? || sub.write.Headed? }

  /** A signal means a winner, and a caller that waits has a signal to come if there is one. */
  ghost predicate WakeOk(caller: Caller, winner: Option<Id>, chan: nat, a: Sub, b: Sub) {
    && (chan > 0 ==> winner.Some?)
    && ((caller.First? || caller.Select?) && winner.Some? ==>
          chan > 0 || Unsignalled(if winner.value == A then a else b))
  }

  /** Without a winner the failures received are the failures counted. */
  ghost predicate CountOk(caller: Caller, winner: Option<Id>, received: set<Id>) {
    match caller
    case First => received == {}
    case FirstJudge => |received| == 1
    case Check(n) => n < 2 && (winner == None ==> n == |received|)
    case Look(n) => n < 2 && (winner == None ==> n == |received|)
    case Select(n) => n < 2 && (winner == None ==> n == |received|)
    case Judge(n) => n < 2 && (winner == None ==> n + 1 == |received|)
    case Recheck(n) => n < 2 && (winner == None ==> n + 1 == |received|)
    case Count(n) => winner == None ==> n == |received|
    case _ => true
  }

  /** The first sub-call runs from the start; once the caller has left its first wait, the
      second does too or there is a winner. */
  ghost predicate StartOk(caller: Caller, winner: Option<Id>, a: Sub, b: Sub) {
    && a.stage != Idle
    && (b.stage == Idle ==> caller.First? || caller.FirstJudge? || caller.Done? || winner.Some?)
  }

  ghost predicate EndOk(sub: Sub, id: Id, winner: Option<Id>, received: set<Id>, chan: seq<Id>) {
    && (sub.stage == Finishing ==> winner.Some?) && (sub.stage == Pushed ==> sub.failed)
    && (sub.stage == Completed ==> sub.failed || winner.Some?)
    && (sub.failed ==> id in received || id in chan)
  }

  ghost predicate Fair(s: Session) {
    && SubFair(s, A) && SubFair(s, B)
    && ResultOk(s.caller, s.a, s.b, s.terminal, s.sessionCancelled)
    && WakeOk(s.caller, s.winner, s.winnerChan, s.a, s.b)
    && CountOk(s.caller, s.winner, s.received) && StartOk(s.caller, s.winner, s.a, s.b)
    && EndOk(s.a, A, s.winner, s.received, s.failuresChan) && EndOk(s.b, B, s.winner, s.received, s.failuresChan)
  }

  // ----- Steps of the sub-calls -----

  predicate Writes(step: Step) {
    step.BeginWrite? || step.ClaimWrite? || step.SendHeaders? || step.SignalWinner? || step.Forward?
  }

  predicate Finishes(step: Step) {
    || step.AcquireFails? || step.ProviderReturns? || step.NoteFailure? || step.PushFailure? || step.ClaimOnSuccess?
    || step.Complete?
  }

  /** What a step of a sub-call leaves alone, and in which direction the rest moves. */
  ghost predicate OneMoves(s: Session, s': Session, id: Id) {
    && s'.caller == s.caller && s'.received == s.received && s'.sessionCancelled == s.sessionCancelled
    && Get(s', Other(id)) == Get(s, Other(id))
    && (s'.winner == s.winner || (s.winner == None && s'.winner == Some(id)))
    && (s.terminal ==> s'.terminal) && s.winnerChan <= s'.winnerChan && s.failuresChan <= s'.failuresChan
    && (Get(s, id).cancelled ==> Get(s', id).cancelled) && (Get(s', id).stage == Idle ==> Get(s, id).stage == Idle)
  }

  /** A write does not end a sub-call. */
  ghost predicate GoesOn(s: Session, s': Session, id: Id) {
    && Get(s', id).stage == Get(s, id).stage && Get(s', id).failed == Get(s, id).failed
    && s'.failuresChan == s.failuresChan
  }

  lemma {:induction false} BeginMoves(s: Session, id: Id, chunk: string)
    ensures OneMoves(s, Apply(s, BeginWrite(id, chunk)), id) && GoesOn(s, Apply(s, BeginWrite(id, chunk)), id)
  {}

  lemma {:induction false} ClaimMoves(s: Session, id: Id)
    ensures OneMoves(s, Apply(s, ClaimWrite(id)), id) && GoesOn(s, Apply(s, ClaimWrite(id)), id)
  {
    hide Apply;
    if s.winner.Some? { EitherOne(s.winner.value, id); }
    if Get(s, id).write.Checked? { ClaimSets(s, id); } else { ClaimIdles(s, id); }
  }

  lemma {:induction false} ClaimIdles(s: Session, id: Id)
    requires !Get(s, id).write.Checked?
    ensures Apply(s, ClaimWrite(id)) == s
  {}

  lemma {:induction false} ClaimSets(s: Session, id: Id)
    requires Get(s, id).write.Checked?
    ensures var s', sub := Apply(s, ClaimWrite(id)), Get(s, id); var sub' := Get(s', id);
            && s' == Set(s, id, sub').(winner := s'.winner, winnerContext := s'.winnerContext)
            && s'.winner == (if s.winner == Some(Other(id)) then s.winner else Some(id))
            && sub'.stage == sub.stage && sub'.failed == sub.failed && sub'.cancelled == sub.cancelled
  {}

  lemma {:induction false} SendMoves(s: Session, id: Id)
    ensures OneMoves(s, Apply(s, SendHeaders(id)), id) && GoesOn(s, Apply(s, SendHeaders(id)), id)
  {}

  lemma {:induction false} SignalMoves(s: Session, id: Id)
    ensures OneMoves(s, Apply(s, SignalWinner(id)), id) && GoesOn(s, Apply(s, SignalWinner(id)), id)
  {}

  lemma {:induction false} ForwardMoves(s: Session, id: Id)
    ensures OneMoves(s, Apply(s, Forward(id)), id) && GoesOn(s, Apply(s, Forward(id)), id)
  {}

  lemma {:induction false} AcquireMoves(s: Session, id: Id)
    ensures OneMoves(s, Apply(s, AcquireFails(id)), id)
  {}

  lemma {:induction false} ReturnMoves(s: Session, id: Id, ok: bool)
    ensures OneMoves(s, Apply(s, ProviderReturns(id, ok)), id)
  {}

  lemma {:induction false} NoteMoves(s: Session, id: Id, terminal: bool)
    ensures OneMoves(s, Apply(s, NoteFailure(id, terminal)), id)
  {}

  lemma {:induction false} PushMoves(s: Session, id: Id)
    ensures OneMoves(s, Apply(s, PushFailure(id)), id)
  {}

  lemma {:induction false} CompleteMoves(s: Session, id: Id)
    ensures OneMoves(s, Apply(s, Complete(id)), id)
  {}

  lemma {:induction false} SuccessMoves(s: Session, id: Id)
    ensures OneMoves(s, Apply(s, ClaimOnSuccess(id)), id)
  {}

  lemma {:induction false} SubStepMoves(s: Session, step: Step)
    requires Writes(step) || Finishes(step)
    ensures OneMoves(s, Apply(s, step), step.id)
    ensures Writes(step) ==> GoesOn(s, Apply(s, step), step.id)
  {
    hide OneMoves, GoesOn, Apply;
    match step
    case BeginWrite(id, chunk) => BeginMoves(s, id, chunk);
    case ClaimWrite(id) => ClaimMoves(s, id);
    case SendHeaders(id) => SendMoves(s, id);
    case SignalWinner(id) => SignalMoves(s, id);
    case Forward(id) => ForwardMoves(s, id);
    case AcquireFails(id) => AcquireMoves(s, id);
    case ProviderReturns(id, ok) => ReturnMoves(s, id, ok);
    case NoteFailure(id, terminal) => NoteMoves(s, id, terminal);
    case PushFailure(id) => PushMoves(s, id);
    case ClaimOnSuccess(id) => SuccessMoves(s, id);
    case Complete(id) => CompleteMoves(s, id);
  }

  /** The sub-call that moves stays fair. */
  lemma {:induction false} BeginFair(s: Session, id: Id, chunk: string)
    requires SubOk(Get(s, id), id, s.winner) && SubFair(s, id)
    ensures SubFair(Apply(s, BeginWrite(id, chunk)), id)
  {
    var sub := Get(s, id);
    assert sub.write == Quiet ==> sub.forwarded + [] + [chunk] == sub.forwarded + [chunk];
  }

  lemma {:induction false} ClaimFair(s: Session, id: Id)
    requires SubFair(s, id)
    ensures SubFair(Apply(s, ClaimWrite(id)), id)
  {
    if s.winner.Some? { EitherOne(s.winner.value, id); }
    assert Get(s, id).write.Checked? ==> Get(s, id).forwarded + [Get(s, id).write.chunk] + []
                                         == Get(s, id).forwarded + [Get(s, id).write.chunk];
  }

  lemma {:induction false} SenderFair(s: Session, step: Step)
    requires (step.SendHeaders? || step.SignalWinner? || step.Forward?) && SubFair(s, step.id)
    ensures SubFair(Apply(s, step), step.id)
  {}

  lemma {:induction false} WriterFair(s: Session, step: Step)
    requires Inv(s) && Writes(step) && SubFair(s, step.id)
    ensures SubFair(Apply(s, step), step.id)
  {
    assert SubOk(Get(s, step.id), step.id, s.winner);
    hide Inv, SubOk, SubFair, Apply;
    match step
    case BeginWrite(id, chunk) => BeginFair(s, id, chunk);
    case ClaimWrite(id) => ClaimFair(s, id);
    case _ => SenderFair(s, step);
  }

  lemma {:induction false} FinisherFair(s: Session, step: Step)
    requires Inv(s) && Finishes(step) && SubFair(s, step.id)
    ensures SubFair(Apply(s, step), step.id)
  {
    hide ClientOk, HeadersOk, FailuresOk, CallerOk, Arrived, SubOk;
  }

  /** And so does the other. */
  lemma {:induction false} OtherFair(s: Session, s': Session, id: Id)
    requires OneMoves(s, s', id) && SubFair(s, Other(id))
    ensures SubFair(s', Other(id))
  {
    hide Begun;
    if s.winner.Some? { EitherOne(s.winner.value, id); }
  }

  lemma {:induction false} FinisherEnds(s: Session, step: Step)
    requires Inv(s) && Finishes(step)
    requires EndOk(Get(s, step.id), step.id, s.winner, s.received, s.failuresChan)
    ensures var s' := Apply(s, step); EndOk(Get(s', step.id), step.id, s'.winner, s'.received, s'.failuresChan)
  {
    assert SubOk(Get(s, step.id), step.id, s.winner);
    hide Inv;
    if step.PushFailure? || step.ClaimOnSuccess? { LastEnds(s, step); } else { StageEnds(s, step); }
  }

  lemma {:induction false} StageEnds(s: Session, step: Step)
    requires Finishes(step) && !step.PushFailure? && !step.ClaimOnSuccess?
    requires SubOk(Get(s, step.id), step.id, s.winner)
    requires EndOk(Get(s, step.id), step.id, s.winner, s.received, s.failuresChan)
    ensures var s' := Apply(s, step); EndOk(Get(s', step.id), step.id, s'.winner, s'.received, s'.failuresChan)
  {}

  lemma {:induction false} LastEnds(s: Session, step: Step)
    requires (step.PushFailure? || step.ClaimOnSuccess?) && SubOk(Get(s, step.id), step.id, s.winner)
    requires EndOk(Get(s, step.id), step.id, s.winner, s.received, s.failuresChan)
    ensures var s' := Apply(s, step); EndOk(Get(s', step.id), step.id, s'.winner, s'.received, s'.failuresChan)
  {}

  lemma {:induction false} WriterEnds(s: Session, step: Step)
    requires Writes(step) && EndOk(Get(s, step.id), step.id, s.winner, s.received, s.failuresChan)
    ensures var s' := Apply(s, step); EndOk(Get(s', step.id), step.id, s'.winner, s'.received, s'.failuresChan)
  {
    SubStepMoves(s, step);
    hide Apply;
  }

  lemma {:induction false} OtherEnds(s: Session, s': Session, id: Id)
    requires OneMoves(s, s', id) && EndOk(Get(s, Other(id)), Other(id), s.winner, s.received, s.failuresChan)
    ensures EndOk(Get(s', Other(id)), Other(id), s'.winner, s'.received, s'.failuresChan)
  {}

  /** No signal is needed for what changes neither the winner nor a write past its claim. */
  lemma {:induction false} QuietWakes(s: Session, s': Session, id: Id)
    requires OneMoves(s, s', id) && WakeOk(s.caller, s.winner, s.winnerChan, s.a, s.b)
    requires s'.winner == s.winner && s'.winnerChan == s.winnerChan
    requires Unsignalled(Get(s, id)) ==> Unsignalled(Get(s', id))
    ensures WakeOk(s'.caller, s'.winner, s'.winnerChan, s'.a, s'.b)
  {
    hide Unsignalled;
  }

  lemma {:induction false} FinishIsQuiet(s: Session, step: Step)
    requires Finishes(step) && !step.ClaimOnSuccess? && SubOk(Get(s, step.id), step.id, s.winner)
    ensures var s' := Apply(s, step);
            && s'.winner == s.winner && s'.winnerChan == s.winnerChan
            && (Unsignalled(Get(s, step.id)) ==> Unsignalled(Get(s', step.id)))
  {
    hide Arrived;
  }

  lemma {:induction false} WriteIsQuiet(s: Session, step: Step)
    requires step.BeginWrite? || step.Forward? || step.SendHeaders?
    ensures var s' := Apply(s, step);
            && s'.winner == s.winner && s'.winnerChan == s.winnerChan
            && (Unsignalled(Get(s, step.id)) ==> Unsignalled(Get(s', step.id)))
  {}

  lemma {:induction false} ClaimWakes(s: Session, id: Id)
    requires SubOk(Get(s, id), id, s.winner) && WakeOk(s.caller, s.winner, s.winnerChan, s.a, s.b)
    ensures var s' := Apply(s, ClaimWrite(id)); WakeOk(s'.caller, s'.winner, s'.winnerChan, s'.a, s'.b)
  {
    if s.winner.Some? { EitherOne(s.winner.value, id); }
  }

  lemma {:induction false} SignalWakes(s: Session, id: Id)
    requires SubOk(Get(s, id), id, s.winner) && WakeOk(s.caller, s.winner, s.winnerChan, s.a, s.b)
    ensures var s' := Apply(s, SignalWinner(id)); WakeOk(s'.caller, s'.winner, s'.winnerChan, s'.a, s'.b)
  {}

  lemma {:induction false} SuccessWakes(s: Session, id: Id)
    requires SubOk(Get(s, id), id, s.winner) && WakeOk(s.caller, s.winner, s.winnerChan, s.a, s.b)
    ensures var s' := Apply(s, ClaimOnSuccess(id)); WakeOk(s'.caller, s'.winner, s'.winnerChan, s'.a, s'.b)
  {}

  lemma {:induction false} SubStepWakes(s: Session, step: Step)
    requires Inv(s) && (Writes(step) || Finishes(step)) && WakeOk(s.caller, s.winner, s.winnerChan, s.a, s.b)
    ensures var s' := Apply(s, step); WakeOk(s'.caller, s'.winner, s'.winnerChan, s'.a, s'.b)
  {
    assert SubOk(Get(s, step.id), step.id, s.winner);
    hide Inv, SubOk, WakeOk, Apply, OneMoves;
    SubStepMoves(s, step);
    if step.ClaimWrite? {
      ClaimWakes(s, step.id);
    } else if step.SignalWinner? {
      SignalWakes(s, step.id);
    } else if step.ClaimOnSuccess? {
      SuccessWakes(s, step.id);
    } else {
      if Writes(step) { WriteIsQuiet(s, step); } else { FinishIsQuiet(s, step); }
      QuietWakes(s, Apply(s, step), step.id);
    }
  }

  /** What the caller relies on. */
  lemma {:induction false} CallerStaysOk(s: Session, s': Session, id: Id)
    requires OneMoves(s, s', id)
    requires ResultOk(s.caller, s.a, s.b, s.terminal, s.sessionCancelled)
    requires CountOk(s.caller, s.winner, s.received) && StartOk(s.caller, s.winner, s.a, s.b)
    ensures ResultOk(s'.caller, s'.a, s'.b, s'.terminal, s'.sessionCancelled)
    ensures CountOk(s'.caller, s'.winner, s'.received) && StartOk(s'.caller, s'.winner, s'.a, s'.b)
  {}

  // ----- Steps of the caller -----

  lemma {:induction false} MoveFair(s: Session, step: Step, id: Id)
    requires SubFair(s, id)
    ensures SubFair(Move(s, step), id)
  {
    if s.winner.Some? { EitherOne(s.winner.value, id); }
  }

  lemma {:induction false} MoveResult(s: Session, step: Step)
    requires CallerOk(s.caller, s.winner, s.received, s.a, s.b)
    requires ResultOk(s.caller, s.a, s.b, s.terminal, s.sessionCancelled)
    ensures var s' := Move(s, step); ResultOk(s'.caller, s'.a, s'.b, s'.terminal, s'.sessionCancelled)
  {}

  lemma {:induction false} MoveWakes(s: Session, step: Step)
    requires s.winnerContext == s.winner && WakeOk(s.caller, s.winner, s.winnerChan, s.a, s.b)
    ensures var s' := Move(s, step); WakeOk(s'.caller, s'.winner, s'.winnerChan, s'.a, s'.b)
  {}

  lemma {:induction false} MoveCounts(s: Session, step: Step)
    requires FailuresOk(s.received, s.failuresChan, s.a.failed, s.b.failed) && CountOk(s.caller, s.winner, s.received)
    ensures var s' := Move(s, step); CountOk(s'.caller, s'.winner, s'.received)
  {
    hide FailuresOk;
    if step == FirstFailure || step == ReceiveFailure { ReceiveCounts(s, step); }
  }

  lemma {:induction false} ReceiveCounts(s: Session, step: Step)
    requires FailuresOk(s.received, s.failuresChan, s.a.failed, s.b.failed) && CountOk(s.caller, s.winner, s.received)
    requires step == FirstFailure || step == ReceiveFailure
    ensures var s' := Move(s, step); CountOk(s'.caller, s'.winner, s'.received)
  {
    if s.failuresChan != [] { ReceiveKeeps(s.received, s.failuresChan, s.a.failed, s.b.failed); }
    hide FailuresOk;
  }

  lemma {:induction false} MoveStarts(s: Session, step: Step)
    requires StartOk(s.caller, s.winner, s.a, s.b) && s.winnerContext == s.winner
    requires s.winnerChan > 0 ==> s.winner.Some?
    ensures var s' := Move(s, step); StartOk(s'.caller, s'.winner, s'.a, s'.b)
  {}

  lemma {:induction false} MoveEnds(s: Session, step: Step, id: Id)
    requires EndOk(Get(s, id), id, s.winner, s.received, s.failuresChan)
    ensures var s' := Move(s, step); EndOk(Get(s', id), id, s'.winner, s'.received, s'.failuresChan)
  {
    MoveSpares(s, step, id);
    if step == FirstFailure || step == ReceiveFailure { OneReceived(s, step, id); } else { NoneReceived(s, step); }
    hide Move;
  }

  /** The caller ends no sub-call. */
  lemma {:induction false} MoveSpares(s: Session, step: Step, id: Id)
    ensures var s' := Move(s, step);
            && s'.winner == s.winner && Get(s', id).failed == Get(s, id).failed
            && (Get(s', id).stage == Get(s, id).stage || Get(s', id).stage == Running)
  {}

  lemma {:induction false} NoneReceived(s: Session, step: Step)
    requires step != FirstFailure && step != ReceiveFailure
    ensures Move(s, step).received == s.received && Move(s, step).failuresChan == s.failuresChan
  {}

  lemma {:induction false} OneReceived(s: Session, step: Step, id: Id)
    requires step == FirstFailure || step == ReceiveFailure
    ensures id in s.received || id in s.failuresChan ==>
              id in Move(s, step).received || id in Move(s, step).failuresChan
  {
    if s.failuresChan != [] { assert s.failuresChan == [s.failuresChan[0]] + s.failuresChan[1..]; }
  }

  // ----- Every run -----

  lemma {:induction false} SubStepKeepsFair(s: Session, step: Step)
    requires Inv(s) && Fair(s) && (Writes(step) || Finishes(step))
    ensures Fair(Apply(s, step))
  {
    hide Inv, SubFair, ResultOk, WakeOk, CountOk, StartOk, EndOk, OneMoves, Apply;
    var id, s' := step.id, Apply(s, step);
    TheTwo(id);
    SubStepMoves(s, step);
    if Writes(step) {
      WriterFair(s, step);
      WriterEnds(s, step);
    } else {
      FinisherFair(s, step);
      FinisherEnds(s, step);
    }
    OtherFair(s, s', id);
    OtherEnds(s, s', id);
    SubStepWakes(s, step);
    CallerStaysOk(s, s', id);
  }

  lemma {:induction false} TheTwo(id: Id)
    ensures (id == A && Other(id) == B) || (id == B && Other(id) == A)
  {
    match id
    case A =>
    case B =>
  }

  lemma {:induction false} MoveKeepsFair(s: Session, step: Step)
    requires Inv(s) && Fair(s)
    ensures Fair(Move(s, step))
  {
    hide Inv, SubFair, ResultOk, WakeOk, CountOk, StartOk, EndOk, Move;
    InvParts(s);
    MoveFair(s, step, A);
    MoveFair(s, step, B);
    MoveResult(s, step);
    MoveWakes(s, step);
    MoveCounts(s, step);
    MoveStarts(s, step);
    MoveEnds(s, step, A);
    MoveEnds(s, step, B);
  }

  lemma {:induction false} StepKeepsFair(s: Session, step: Step)
    requires Inv(s) && Fair(s)
    ensures Fair(Apply(s, step))
  {
    hide Inv, Fair, Move;
    if Writes(step) || Finishes(step) { SubStepKeepsFair(s, step); } else { MoveKeepsFair(s, step); }
  }

  lemma {:induction false} InvParts(s: Session)
    requires Inv(s) && Fair(s)
    ensures CallerOk(s.caller, s.winner, s.received, s.a, s.b) && s.winnerContext == s.winner
    ensures FailuresOk(s.received, s.failuresChan, s.a.failed, s.b.failed) && (s.winnerChan > 0 ==> s.winner.Some?)
  {}

  lemma {:induction false} RunIsFair(steps: seq<Step>)
    ensures Fair(Run(steps))
    decreases |steps|
  {
    hide Apply;
    if steps != [] {
      RunIsFair(steps[..|steps| - 1]);
      RunKeepsInv(steps[..|steps| - 1]);
      StepKeepsFair(Run(steps[..|steps| - 1]), steps[|steps| - 1]);
    }
  }

  // ----- What the race promises -----

  /** In every run the winner is cancelled only with the session or after its own failure; and
      unless the session is cancelled, all it has ever begun to write has gone on to the
      client, in order, except a write still on its way. */
  lemma {:induction false} WinnerIsNotCut(steps: seq<Step>, w: Id)
    requires Run(steps).winner == Some(w)
    ensures var s := Run(steps); var sub := Get(s, w);
            && (sub.cancelled ==> s.sessionCancelled || sub.failed)
            && (!s.sessionCancelled ==>
                  && sub.attempted == sub.forwarded + Begun(sub.write)
                  && (sub.write == Quiet ==> Delivered(s.client, w, sub.attempted)))
  {
    hide Run;
    RunKeepsInv(steps);
    RunIsFair(steps);
  }

  /** Each result has its reason. With success the other sub-call has been cancelled, and
      unless the session is cancelled the client has everything the winner wrote. */
  lemma {:induction false} ResultsAreJustified(steps: seq<Step>)
    ensures var s := Run(steps);
            && (s.caller == Done(Terminal) ==> s.terminal)
            && (s.caller == Done(Cancelled) ==> s.sessionCancelled)
            && (forall w :: s.caller == Done(Won(w)) ==>
                  && Get(s, Other(w)).cancelled && Get(s, w).stage == Completed
                  && (!s.sessionCancelled ==> Delivered(s.client, w, Get(s, w).attempted)))
  {
    hide Run;
    RunKeepsInv(steps);
    RunIsFair(steps);
  }

  // ----- Terminal failures -----

  /** Step i of the run reports a failure as terminal. */
  predicate ReportsAt(steps: seq<Step>, i: nat)
    requires i < |steps|
  {
    steps[i].NoteFailure? && steps[i].terminal && Get(Run(steps[..i]), steps[i].id).stage == Returned(false)
  }

  /** The session is terminal if and only if some failure was reported so. */
  lemma {:induction false} TerminalIffReported(steps: seq<Step>)
    ensures Run(steps).terminal <==> exists i :: 0 <= i < |steps| && ReportsAt(steps, i)
    decreases |steps|
  {
    hide Apply;
    if steps != [] {
      var n := |steps| - 1;
      TerminalIffReported(steps[..n]);
      TerminalStep(Run(steps[..n]), steps[n]);
      hide Run;
      assert forall i :: 0 <= i < n ==> steps[..n][..i] == steps[..i] && steps[..n][i] == steps[i];
      assert forall i :: 0 <= i < n ==> (ReportsAt(steps[..n], i) <==> ReportsAt(steps, i));
      assert ReportsAt(steps, n) <==>
               steps[n].NoteFailure? && steps[n].terminal && Get(Run(steps[..n]), steps[n].id).stage == Returned(false);
    }
  }

  lemma {:induction false} TerminalStep(s: Session, step: Step)
    ensures Apply(s, step).terminal <==>
              s.terminal || (step.NoteFailure? && step.terminal && Get(s, step.id).stage == Returned(false))
  {}

  /** "All failed" is not on its way once a failure is terminal. */
  ghost predicate TermOk(caller: Caller, received: set<Id>, terminal: bool) {
    && ((caller.Recheck? || caller.Count?) && |received| >= 2 ==> !terminal)
    && (caller == Done(AllFailed) ==> !terminal)
  }

  lemma {:induction false} SubStepTerm(s: Session, step: Step)
    requires Inv(s) && TermOk(s.caller, s.received, s.terminal) && (Writes(step) || Finishes(step))
    ensures var s' := Apply(s, step); TermOk(s'.caller, s'.received, s'.terminal)
  {
    hide ClientOk, HeadersOk, Apply;
    SubStepMoves(s, step);
    TerminalStep(s, step);
    if step.NoteFailure? && Get(s, step.id).stage == Returned(false) {
      TheTwo(step.id);
      assert !Get(s, step.id).failed;
      if |s.received| >= 2 { TwoReceived(s.received); }
    }
  }

  lemma {:induction false} MoveTerm(s: Session, step: Step)
    requires CallerOk(s.caller, s.winner, s.received, s.a, s.b) && TermOk(s.caller, s.received, s.terminal)
    ensures var s' := Move(s, step); TermOk(s'.caller, s'.received, s'.terminal)
  {
    if step != FirstFailure && step != ReceiveFailure { NoneReceived(s, step); }
  }

  lemma {:induction false} RunTerm(steps: seq<Step>)
    ensures TermOk(Run(steps).caller, Run(steps).received, Run(steps).terminal)
    decreases |steps|
  {
    hide Move, Inv, TermOk;
    if steps == [] {
      assert TermOk(First, {}, false) by { NoTerm(); }
    } else {
      var s, step := Run(steps[..|steps| - 1]), steps[|steps| - 1];
      RunTerm(steps[..|steps| - 1]);
      RunKeepsInv(steps[..|steps| - 1]);
      if Writes(step) || Finishes(step) {
        SubStepTerm(s, step);
      } else {
        RunIsFair(steps[..|steps| - 1]);
        InvParts(s);
        MoveTerm(s, step);
      }
    }
  }

  lemma {:induction false} NoTerm()
    ensures TermOk(First, {}, false)
  {}

  /** A terminal failure is the answer: where it has been reported the caller does not answer
      that all failed, and at its next check it returns, without another sub-call. */
  lemma {:induction false} TerminalEndsRace(steps: seq<Step>)
    requires Run(steps).terminal
    ensures Run(steps).caller != Done(AllFailed)
    ensures var s := Run(steps);
            s.caller.FirstJudge? || s.caller.Check? || s.caller.Judge? ==>
              Apply(s, CheckTerminal) == s.(caller := Done(Terminal))
  {
    hide Run;
    RunTerm(steps);
  }

  // ----- Progress -----

  /** The caller has a step to take. */
  ghost predicate CanMove(s: Session) { exists step :: Move(s, step) != s }

  /** In every run, once no sub-call has anything left to do, the caller has returned or can
      take a step: it never waits for a signal that has been missed, nor for a sub-call that
      was not started. */
  lemma {:induction false} CallerIsNeverStuck(steps: seq<Step>)
    requires var s := Run(steps);
             (s.a.stage == Completed || s.a.stage == Idle) && (s.b.stage == Completed || s.b.stage == Idle)
    ensures Run(steps).caller.Done? || CanMove(Run(steps))
  {
    hide Run, Inv, Fair;
    var s := Run(steps);
    RunKeepsInv(steps);
    RunIsFair(steps);
    match s.caller
    case First => assert Move(s, Timer) != s;
    case Awaiting(_, w) => AwaitMoves(s);
    case Picked(_) => PickedMoves(s);
    case FirstJudge => assert Move(s, CheckTerminal) != s;
    case Check(_) => assert Move(s, CheckTerminal) != s;
    case Look(_) => assert Move(s, LookWinner) != s;
    case Select(n) => SelectMoves(s);
    case Judge(_) => assert Move(s, CheckTerminal) != s;
    case Recheck(_) => assert Move(s, RecheckWinner) != s;
    case Count(_) => assert Move(s, Conclude) != s;
    case Done(_) =>
  }

  lemma {:induction false} AwaitMoves(s: Session)
    requires Inv(s) && s.caller.Awaiting?
    requires (s.a.stage == Completed || s.a.stage == Idle) && (s.b.stage == Completed || s.b.stage == Idle)
    ensures CanMove(s)
  {
    TheTwo(s.caller.winner);
    assert Move(s, AwaitWinner) != s;
  }

  lemma {:induction false} PickedMoves(s: Session)
    requires Inv(s) && s.caller.Picked?
    ensures CanMove(s)
  {
    hide ClientOk, HeadersOk, FailuresOk, SubOk;
    assert Move(s, CancelLoser) != s;
  }

  lemma {:induction false} SelectMoves(s: Session)
    requires Inv(s) && Fair(s) && s.caller.Select?
    requires (s.a.stage == Completed || s.a.stage == Idle) && (s.b.stage == Completed || s.b.stage == Idle)
    ensures CanMove(s)
  {
    hide ClientOk, HeadersOk;
    if s.winner.Some? {
      assert Move(s, ReceiveWinner) != s;
    } else if s.failuresChan != [] {
      assert Move(s, ReceiveFailure) != s;
    } else {
      BothReceived(s);
      assert false;
    }
  }

  lemma {:induction false} BothReceived(s: Session)
    requires Fair(s) && s.caller.Select? && s.winner == None && s.failuresChan == [] && s.a.stage != Idle
    requires (s.a.stage == Completed || s.a.stage == Idle) && (s.b.stage == Completed || s.b.stage == Idle)
    ensures |s.received| >= 2
  {
    assert A in s.received && B in s.received;
    SubsetSize({A, B}, s.received);
  }
}
