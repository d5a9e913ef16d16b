/**
  The JSONL turn protocol between the Textual client and the Agent: what the adapter reads, asks
  and writes, in one trace, and the grammar that every trace follows.
 */
module Adapter {
  import opened Wrappers
  import opened Text
  import opened AgentTypes

  const PROTOCOL_VERSION := 1

  datatype InputFrame =
    | Submit(v: nat, sessionId: SessionId, turnId: TurnId, input: string)
    | Cancel(v: nat, sessionId: SessionId, turnId: TurnId)
    | Shutdown(v: nat, sessionId: SessionId)

  datatype CancelStatus = WasRequested | WasTerminal | WasNotActive

  datatype OutputFrame =
    | Ready
    | CancelReply(turnId: TurnId, status: CancelStatus)
    | TurnTerminalFrame(turnId: TurnId, terminal: TurnTerminal)
    | TurnErrorFrame(turnId: TurnId)
    | StoppedFrame

  /** What one `next_command` delivers. */
  datatype Incoming = Command(frame: InputFrame) | EndOfInput | Fault

  /** One thing the adapter does: it reads, hears from the Agent or the clock, or writes. */
  datatype Step =
    | Took(incoming: Incoming)
    | SubmissionEnded(terminal: Option<TurnTerminal>)
    | CancelAnswered(result: Option<CancelResult>)
    | GaveUpWaiting
    | ClientClosed(ok: bool)
    | Sent(frame: OutputFrame)

  /** `ensure_version` and `ensure_session`. */
  predicate Addressed(frame: InputFrame, session: SessionId) {
    frame.v == PROTOCOL_VERSION && frame.sessionId == session
  }

  /** `cancel_status`. */
  function StatusOf(result: CancelResult): (status: CancelStatus) {
    match result
    case CancellationRequested => WasRequested
    case AlreadyTerminal(_) => WasTerminal
    case NotActive => WasNotActive
  }

  // -------------------------------------------------------------- the client

  datatype WireResponse =
    | TurnResponse(sessionId: SessionId, turnId: TurnId, terminal: TurnTerminal)
    | CancelResponse(sessionId: SessionId, turnId: TurnId, result: CancelResult)

  /** What the conversation client takes from a response to a submit, which must name the same turn. */
  function SubmitReply(response: Option<WireResponse>, session: SessionId, turn: TurnId)
    : (terminal: Option<TurnTerminal>)
    ensures forall x :: terminal == Some(x) <==> response == Some(TurnResponse(session, turn, x))
  {
    if response.Some? && response.value.TurnResponse? && response.value.sessionId == session
       && response.value.turnId == turn
    then Some(response.value.terminal) else None
  }

  function CancelReplyOf(response: Option<WireResponse>, session: SessionId, turn: TurnId)
    : (result: Option<CancelResult>)
    ensures forall x :: result == Some(x) <==> response == Some(CancelResponse(session, turn, x))
  {
    if response.Some? && response.value.CancelResponse? && response.value.sessionId == session
       && response.value.turnId == turn
    then Some(response.value.result) else None
  }

  // -------------------------------------------------------------- the grammar

  /** What follows the terminal of a turn: the next turn, a graceful end, or an end with an error. */
  datatype After = Resume | Stop | Abort

  /** Where a trace stands; `Owes` names the one frame that must be written next. */
  datatype Phase =
    | Owes(frame: OutputFrame, after: Phase)
    | Idle
    | Active(turnId: TurnId)
    | Asking(turnId: TurnId, mood: After)
    | Settling(turnId: TurnId, mood: After)
    | Over(graceful: bool)
    | Ended(stopped: bool)

  const START := Owes(Ready, Idle)

  function Ending(mood: After): (p: Phase) {
    match mood
    case Resume => Idle
    case Stop => Over(true)
    case Abort => Over(false)
  }

  function OwesError(turn: TurnId): (p: Phase) {
    Owes(TurnErrorFrame(turn), Over(false))
  }

  function OwesTerminal(turn: TurnId, terminal: TurnTerminal, mood: After): (p: Phase) {
    Owes(TurnTerminalFrame(turn, terminal), Ending(mood))
  }

  /** A command read between turns. */
  function WhenIdle(session: SessionId, incoming: Incoming): (p: Phase) {
    match incoming
    case EndOfInput => Over(true)
    case Fault => Over(false)
    case Command(frame) =>
      if !Addressed(frame, session) then Over(false)
      else
        match frame
        case Submit(_, _, turn, _) => Active(turn)
        case Cancel(_, _, turn) => Owes(CancelReply(turn, WasNotActive), Idle)
        case Shutdown(_, _) => Over(true)
  }

  /** A command read while a turn is active. */
  function WhenActive(session: SessionId, turn: TurnId, incoming: Incoming): (p: Phase) {
    match incoming
    case EndOfInput => Asking(turn, Stop)
    case Fault => Asking(turn, Abort)
    case Command(frame) =>
      if !Addressed(frame, session) then Asking(turn, Abort)
      else
        match frame
        case Submit(_, _, other, _) => Owes(TurnErrorFrame(other), Asking(turn, Abort))
        case Cancel(_, _, other) =>
          if other == turn then Asking(turn, Resume) else Owes(CancelReply(other, WasNotActive), Active(turn))
        case Shutdown(_, _) => Asking(turn, Stop)
  }

  /** What the answer to a cancel request leads to. */
  function WhenAnswered(turn: TurnId, mood: After, result: CancelResult): (p: Phase) {
    Owes(
      CancelReply(turn, StatusOf(result)),
      if result.AlreadyTerminal? then OwesTerminal(turn, result.terminal, mood)
      else if mood == Resume then Active(turn)
      else Settling(turn, mood))
  }

  function Next(session: SessionId, p: Phase, step: Step): (r: Option<Phase>) {
    match p
    case Owes(frame, after) => if step == Sent(frame) then Some(after) else None
    case Idle => if step.Took? then Some(WhenIdle(session, step.incoming)) else None
    case Active(turn) =>
      (match step
       case Took(incoming) => Some(WhenActive(session, turn, incoming))
       case SubmissionEnded(Some(terminal)) => Some(OwesTerminal(turn, terminal, Resume))
       case SubmissionEnded(None) => Some(OwesError(turn))
       case _ => None)
    case Asking(turn, mood) =>
      (match step
       case CancelAnswered(Some(result)) => Some(WhenAnswered(turn, mood, result))
       case CancelAnswered(None) => Some(OwesError(turn))
       case _ => None)
    case Settling(turn, mood) =>
      (match step
       case SubmissionEnded(Some(terminal)) => Some(OwesTerminal(turn, terminal, mood))
       case SubmissionEnded(None) => Some(OwesError(turn))
       case GaveUpWaiting => Some(OwesError(turn))
       case _ => None)
    case Over(graceful) =>
      if step.ClientClosed? then
        Some(if graceful && step.ok then Owes(StoppedFrame, Ended(true)) else Ended(false))
      else None
    case Ended(_) => None
  }

  /** The phase after a trace, or none when the trace leaves the grammar. */
  function PhaseAfter(session: SessionId, trace: seq<Step>): (p: Option<Phase>) {
    if trace == [] then Some(START)
    else
      var n := |trace| - 1;
      var before := PhaseAfter(session, trace[..n]);
      if before.Some? then Next(session, before.value, trace[n]) else None
  }

  /** The commands read in a trace, a malformed one as `None`. */
  function Taken(trace: seq<Step>): (commands: seq<Option<InputFrame>>) {
    if trace == [] then []
    else
      var n := |trace| - 1;
      Taken(trace[..n]) +
      match trace[n]
      case Took(Command(frame)) => [Some(frame)]
      case Took(Fault) => [None]
      case _ => []
  }

  /** How many frames a trace writes. */
  function Writes(trace: seq<Step>): (n: nat) {
    if trace == [] then 0 else Writes(trace[..|trace| - 1]) + if trace[|trace| - 1].Sent? then 1 else 0
  }

  lemma OneMore(session: SessionId, trace: seq<Step>, step: Step)
    ensures var before := PhaseAfter(session, trace);
      PhaseAfter(session, trace + [step]) == if before.Some? then Next(session, before.value, step) else None
    ensures Taken(trace + [step]) == Taken(trace) + Taken([step])
    ensures Taken([step]) ==
      match step
      case Took(Command(frame)) => [Some(frame)]
      case Took(Fault) => [None]
      case _ => []
    ensures Writes(trace + [step]) == Writes(trace) + if step.Sent? then 1 else 0
  {
    assert (trace + [step])[..|trace|] == trace;
    assert [step][..0] == [];
  }

  /** What the reader delivers when some commands are still to come. */
  function Delivered(pending: seq<Option<InputFrame>>): (next: Incoming) {
    if pending == [] then EndOfInput else if pending[0].Some? then Command(pending[0].value) else Fault
  }

  lemma TakesTheNext(session: SessionId, trace: seq<Step>, pending: seq<Option<InputFrame>>)
    ensures Taken(trace + [Took(Delivered(pending))]) + (if pending == [] then [] else pending[1..])
      == Taken(trace) + pending
  {
    OneMore(session, trace, Took(Delivered(pending)));
    if pending != [] {
      Assoc(Taken(trace), [pending[0]], pending[1..]);
    }
  }

  // -------------------------------------------------------------- the program

  datatype ActiveOutcome = Continue | GracefulShutdown | Fatal | Errored

  datatype ProtocolOutcome = ProtocolGraceful | ProtocolFatal | ProtocolFailed

  class TextualAdapter {
    const session: SessionId
    /** All that the reader delivers; a `None` is a malformed command or a read error. */
    ghost const input: seq<Option<InputFrame>>
    /** What it will still deliver. */
    var incoming: seq<Option<InputFrame>>
    var trace: seq<Step>
    /** The number of the first write that fails or times out, if any does. */
    const badWrite: Option<nat>
    var written: nat
    var broken: bool

    constructor (session: SessionId, input: seq<Option<InputFrame>>, badWrite: Option<nat>)
      ensures this.session == session && this.input == input && this.badWrite == badWrite
      ensures incoming == input && trace == [] && written == 0 && !broken
    {
      this.session := session;
      this.badWrite := badWrite;
      written := 0;
      this.input := input;
      this.incoming := input;
      trace := [];
      broken := false;
    }

    /**
      The trace follows the grammar and reads the input in order, none of it twice; the output is
      broken only by the write that fails, with its frame still owed.
     */
    ghost predicate InGrammar()
      reads this
    {
      && PhaseAfter(session, trace).Some? && Taken(trace) + incoming == input
      && (Took(EndOfInput) in trace ==> incoming == [])
      && written == Writes(trace) && (broken ==> badWrite == Some(written) && PhaseAfter(session, trace).value.Owes?)
    }

    ghost predicate Stands(p: Phase)
      reads this
    {
      InGrammar() && PhaseAfter(session, trace) == Some(p)
    }

    /** In the grammar; a call that failed has settled every debt unless a write failed. */
    ghost predicate Proper(failed: bool)
      reads this
    {
      InGrammar() && (failed && !broken ==> Stands(Over(false)))
    }

    method Note(step: Step, ghost p: Phase, ghost next: Phase)
      requires Stands(p) && Next(session, p, step) == Some(next) && !step.Took? && !step.Sent?
      modifies this`trace
      ensures Stands(next) && trace == old(trace) + [step]
    {
      OneMore(session, trace, step);
      trace := trace + [step];
    }

    /** A write adds its frame, or it is the bad one. */
    method Send(frame: OutputFrame, ghost after: Phase) returns (ok: bool)
      requires Stands(Owes(frame, after)) && !broken
      modifies this`trace, this`written, this`broken
      ensures ok == (badWrite != Some(old(written))) && broken == !ok
      ensures ok ==> Stands(after) && trace == old(trace) + [Sent(frame)]
      ensures !ok ==> InGrammar() && trace == old(trace)
    {
      if badWrite == Some(written) {
        broken := true;
        return false;
      }
      OneMore(session, trace, Sent(frame));
      trace := trace + [Sent(frame)];
      written := written + 1;
      return true;
    }

    /** `next_command`. */
    method NextCommand(ghost p: Phase) returns (next: Incoming)
      requires Stands(p) && (p.Idle? || p.Active?)
      modifies this`trace, this`incoming
      ensures Stands(if p.Idle? then WhenIdle(session, next) else WhenActive(session, p.turnId, next))
      ensures trace == old(trace) + [Took(next)] && broken == old(broken)
      ensures match next
              case EndOfInput => old(incoming) == []
              case Command(frame) => old(incoming) != [] && old(incoming)[0] == Some(frame)
              case Fault => old(incoming) != [] && old(incoming)[0] == None
      ensures incoming == if old(incoming) == [] then [] else old(incoming)[1..]
    {
      next := Delivered(incoming);
      OneMore(session, trace, Took(next));
      TakesTheNext(session, trace, incoming);
      trace := trace + [Took(next)];
      if |incoming| > 0 {
        incoming := incoming[1..];
      }
    }

    /** The end of the submission, as the conversation client reports it. */
    method AwaitSubmission(turn: TurnId, ghost p: Phase) returns (terminal: Option<TurnTerminal>)
      requires Stands(p) && (p == Active(turn) || (p.Settling? && p.turnId == turn))
      modifies this`trace
      ensures trace == old(trace) + [SubmissionEnded(terminal)]
      ensures Stands(
        if terminal.Some? then OwesTerminal(turn, terminal.value, if p.Active? then Resume else p.mood)
        else OwesError(turn))
    {
      var response: Option<WireResponse> := *;
      terminal := SubmitReply(response, session, turn);
      Note(SubmissionEnded(terminal), p,
        if terminal.Some? then OwesTerminal(turn, terminal.value, if p.Active? then Resume else p.mood)
        else OwesError(turn));
    }

    method RequestCancel(turn: TurnId, ghost mood: After) returns (result: Option<CancelResult>)
      requires Stands(Asking(turn, mood))
      modifies this`trace
      ensures trace == old(trace) + [CancelAnswered(result)]
      ensures Stands(if result.Some? then WhenAnswered(turn, mood, result.value) else OwesError(turn))
    {
      var response: Option<WireResponse> := *;
      result := CancelReplyOf(response, session, turn);
      Note(CancelAnswered(result), Asking(turn, mood),
        if result.Some? then WhenAnswered(turn, mood, result.value) else OwesError(turn));
    }

    /** `finish_active_shutdown`. */
    method FinishActiveShutdown(turn: TurnId, ghost mood: After) returns (outcome: ActiveOutcome)
      requires Stands(Asking(turn, mood)) && mood != Resume && !broken
      modifies this`trace, this`written, this`broken
      ensures outcome == GracefulShutdown ==> Stands(Ending(mood)) && !broken
      ensures outcome == Fatal ==> Stands(Over(false)) && !broken
      ensures outcome == Errored ==> InGrammar() && broken
      ensures outcome != Continue && old(trace) <= trace
    {
      var result := RequestCancel(turn, mood);
      if result.None? {
        var ok := Send(TurnErrorFrame(turn), Over(false));
        return if ok then Fatal else Errored;
      }
      var status := StatusOf(result.value);
      var sent := Send(CancelReply(turn, status), WhenAnswered(turn, mood, result.value).after);
      if !sent {
        return Errored;
      }
      if result.value.AlreadyTerminal? {
        sent := Send(TurnTerminalFrame(turn, result.value.terminal), Ending(mood));
        return if sent then GracefulShutdown else Errored;
      }
      outcome := AwaitConfirmation(turn, mood);
    }

    /** After a cancel that did not carry the terminal, the submission has a bounded time to end. */
    method AwaitConfirmation(turn: TurnId, ghost mood: After) returns (outcome: ActiveOutcome)
      requires Stands(Settling(turn, mood)) && !broken
      modifies this`trace, this`written, this`broken
      ensures outcome == GracefulShutdown ==> Stands(Ending(mood)) && !broken
      ensures outcome == Fatal ==> Stands(Over(false)) && !broken
      ensures outcome == Errored ==> InGrammar() && broken
      ensures outcome != Continue && old(trace) <= trace
    {
      var timedOut: bool := *;
      var terminal: Option<TurnTerminal> := None;
      if timedOut {
        Note(GaveUpWaiting, Settling(turn, mood), OwesError(turn));
      } else {
        terminal := AwaitSubmission(turn, Settling(turn, mood));
      }
      if terminal.Some? {
        var sent := Send(TurnTerminalFrame(turn, terminal.value), Ending(mood));
        return if sent then GracefulShutdown else Errored;
      }
      var sent := Send(TurnErrorFrame(turn), Over(false));
      return if sent then Fatal else Errored;
    }

    /** `fail_active_protocol`: shut the turn down, then report the protocol error whatever came of it. */
    method FailActiveProtocol(turn: TurnId) returns (outcome: ActiveOutcome)
      requires Stands(Asking(turn, Abort)) && !broken
      modifies this`trace, this`written, this`broken
      ensures outcome == Errored && Proper(true) && old(trace) <= trace
    {
      var ignored := FinishActiveShutdown(turn, Abort);
      return Errored;
    }

    /** `drive_turn`. */
    method DriveTurn(turn: TurnId) returns (outcome: ActiveOutcome)
      requires Stands(Active(turn)) && !broken
      modifies this
      ensures outcome == Continue ==> Stands(Idle) && !broken
      ensures outcome == GracefulShutdown ==> Stands(Over(true)) && !broken
      ensures outcome == Fatal ==> Stands(Over(false)) && !broken
      ensures Proper(outcome == Errored) && old(trace) <= trace
      ensures |incoming| <= |old(incoming)|
    {
      while true
        invariant Stands(Active(turn)) && !broken
        invariant |incoming| <= |old(incoming)| && old(trace) <= trace
        decreases |incoming|
      {
        var finished: bool := *;
        if finished {
          outcome := DeliverTerminal(turn);
          return;
        }
        var next := NextCommand(Active(turn));
        if next == EndOfInput {
          outcome := FinishActiveShutdown(turn, Stop);
          return;
        }
        if next == Fault || next.frame.v != PROTOCOL_VERSION || next.frame.sessionId != session {
          outcome := FailActiveProtocol(turn);
          return;
        }
        match next.frame {
          case Cancel(_, _, requested) =>
            if requested != turn {
              var ok := Send(CancelReply(requested, WasNotActive), Active(turn));
              if !ok {
                return Errored;
              }
              continue;
            }
            var ended := CancelActive(turn);
            if ended.Some? {
              return ended.value;
            }
          case Submit(_, _, submitted, _) =>
            outcome := RefuseSubmit(turn, submitted);
            return;
          case Shutdown(_, _) =>
            outcome := FinishActiveShutdown(turn, Stop);
            return;
        }
      }
    }

    /** A submit while a turn is active ends both. */
    method RefuseSubmit(turn: TurnId, submitted: TurnId) returns (outcome: ActiveOutcome)
      requires Stands(Owes(TurnErrorFrame(submitted), Asking(turn, Abort))) && !broken
      modifies this`trace, this`written, this`broken
      ensures outcome in {Fatal, Errored}
      ensures outcome == Fatal ==> Stands(Over(false)) && !broken
      ensures Proper(outcome == Errored) && old(trace) <= trace
    {
      var ok := Send(TurnErrorFrame(submitted), Asking(turn, Abort));
      if !ok {
        return Errored;
      }
      var shutdown := FinishActiveShutdown(turn, Abort);
      return if shutdown == Errored then Errored else Fatal;
    }

    /** The submission ended first. */
    method DeliverTerminal(turn: TurnId) returns (outcome: ActiveOutcome)
      requires Stands(Active(turn)) && !broken
      modifies this`trace, this`written, this`broken
      ensures outcome in {Continue, Fatal, Errored}
      ensures outcome == Continue ==> Stands(Idle) && !broken
      ensures outcome == Fatal ==> Stands(Over(false)) && !broken
      ensures Proper(outcome == Errored) && old(trace) <= trace
    {
      var terminal := AwaitSubmission(turn, Active(turn));
      if terminal.Some? {
        var ok := Send(TurnTerminalFrame(turn, terminal.value), Idle);
        return if ok then Continue else Errored;
      }
      var ok := Send(TurnErrorFrame(turn), Over(false));
      return if ok then Fatal else Errored;
    }

    /** A cancel of the active turn; `None` when the turn goes on. */
    method CancelActive(turn: TurnId) returns (outcome: Option<ActiveOutcome>)
      requires Stands(Asking(turn, Resume)) && !broken
      modifies this`trace, this`written, this`broken
      ensures outcome == None ==> Stands(Active(turn)) && !broken
      ensures outcome != None ==> outcome.value in {Continue, Fatal, Errored}
      ensures outcome == Some(Continue) ==> Stands(Idle) && !broken
      ensures outcome == Some(Fatal) ==> Stands(Over(false)) && !broken
      ensures Proper(outcome == Some(Errored)) && old(trace) <= trace
    {
      var result := RequestCancel(turn, Resume);
      if result.None? {
        var ok := Send(TurnErrorFrame(turn), Over(false));
        return Some(if ok then Fatal else Errored);
      }
      var ok := Send(CancelReply(turn, StatusOf(result.value)), WhenAnswered(turn, Resume, result.value).after);
      if !ok {
        return Some(Errored);
      }
      if result.value.AlreadyTerminal? {
        ok := Send(TurnTerminalFrame(turn, result.value.terminal), Idle);
        return Some(if ok then Continue else Errored);
      }
      return None;
    }

    /** `run_protocol`. */
    method RunProtocol() returns (outcome: ProtocolOutcome)
      requires Stands(Idle) && !broken
      modifies this
      ensures outcome == ProtocolGraceful ==> Stands(Over(true)) && !broken
      ensures outcome == ProtocolFatal ==> Stands(Over(false)) && !broken
      ensures Proper(outcome == ProtocolFailed) && old(trace) <= trace
    {
      while true
        invariant Stands(Idle) && !broken && old(trace) <= trace
        decreases |incoming|
      {
        var next := NextCommand(Idle);
        if next == EndOfInput {
          return ProtocolGraceful;
        }
        if next == Fault || next.frame.v != PROTOCOL_VERSION || next.frame.sessionId != session {
          return ProtocolFailed;
        }
        match next.frame {
          case Submit(_, _, turn, _) =>
            var outcome := DriveTurn(turn);
            match outcome {
              case Continue =>
              case GracefulShutdown => return ProtocolGraceful;
              case Fatal => return ProtocolFatal;
              case Errored => return ProtocolFailed;
            }
          case Cancel(_, _, turn) =>
            var ok := Send(CancelReply(turn, WasNotActive), Idle);
            if !ok {
              return ProtocolFailed;
            }
          case Shutdown(_, _) => return ProtocolGraceful;
        }
      }
    }

    /** `run_textual_stdio`: every trace follows the grammar, and only a whole one ends well. */
    method Run() returns (ok: bool)
      requires trace == [] && written == 0 && !broken && incoming == input
      modifies this
      ensures InGrammar()
      ensures ok <==> Stands(Ended(true))
      ensures ok ==> NoErrors(trace) && TurnsIn(Terminals(trace)) == Submits(session, trace)
      ensures broken ==> badWrite == Some(Writes(trace))
      ensures !broken ==> forall turn :: Endings(trace, turn) == Submissions(session, trace, turn)
    {
      ok := RunAndClose();
      if PhaseAfter(session, trace).value.Ended? {
        forall turn ensures Endings(trace, turn) == Submissions(session, trace, turn) {
          EverySubmitEnds(session, trace, turn);
        }
      }
      if ok {
        TerminalsFollowSubmits(session, trace);
      }
    }

    method RunAndClose() returns (ok: bool)
      requires trace == [] && written == 0 && !broken && incoming == input
      modifies this
      ensures InGrammar()
      ensures ok <==> Stands(Ended(true))
      ensures !broken ==> PhaseAfter(session, trace).value.Ended?
    {
      var sent := Send(Ready, Idle);
      if !sent {
        return false;
      }
      var outcome := RunProtocol();
      var closed: bool := *;
      if outcome == ProtocolGraceful {
        Note(ClientClosed(closed), Over(true), if closed then Owes(StoppedFrame, Ended(true)) else Ended(false));
        if closed {
          ok := Send(StoppedFrame, Ended(true));
          return;
        }
      } else if !broken {
        Note(ClientClosed(closed), Over(false), Ended(false));
      }
      return false;
    }
  }

  // ------------------------------------------------------ laws of the grammar

  /** The turn that a step submits. */
  function SubmittedBy(session: SessionId, step: Step): (turn: Option<TurnId>) {
    match step
    case Took(Command(Submit(v, s, turn, _))) => if v == PROTOCOL_VERSION && s == session then Some(turn) else None
    case _ => None
  }

  /** The turn that a step ends, by a terminal or an error. */
  function EndedBy(step: Step): (turn: Option<TurnId>) {
    match step
    case Sent(TurnTerminalFrame(turn, _)) => Some(turn)
    case Sent(TurnErrorFrame(turn)) => Some(turn)
    case _ => None
  }

  function Submissions(session: SessionId, trace: seq<Step>, turn: TurnId): (n: nat) {
    if trace == [] then 0
    else
      var last := |trace| - 1;
      Submissions(session, trace[..last], turn) + if SubmittedBy(session, trace[last]) == Some(turn) then 1 else 0
  }

  function Endings(trace: seq<Step>, turn: TurnId): (n: nat) {
    if trace == [] then 0
    else
      var last := |trace| - 1;
      Endings(trace[..last], turn) + if EndedBy(trace[last]) == Some(turn) then 1 else 0
  }

  /** How many endings of a turn a phase still has to bring. */
  function Debt(p: Phase, turn: TurnId): (n: nat) {
    match p
    case Owes(frame, after) => Debt(after, turn) + if EndedBy(Sent(frame)) == Some(turn) then 1 else 0
    case Active(t) => if t == turn then 1 else 0
    case Asking(t, _) => if t == turn then 1 else 0
    case Settling(t, _) => if t == turn then 1 else 0
    case _ => 0
  }

  lemma DebtsAreKept(session: SessionId, p: Phase, step: Step, turn: TurnId)
    requires Next(session, p, step).Some?
    ensures Debt(p, turn) + (if SubmittedBy(session, step) == Some(turn) then 1 else 0)
      == Debt(Next(session, p, step).value, turn) + if EndedBy(step) == Some(turn) then 1 else 0
  {
    if Reported(step) != [] && !p.Owes? {
      var frame := TurnTerminalFrame(p.turnId, Reported(step)[0]);
      var mood := if p.Active? then Resume else p.mood;
      assert Debt(Owes(frame, Ending(mood)), turn) == if p.turnId == turn then 1 else 0;
    }
  }

  /** Every submitted turn has been ended once for each time it was submitted, or the trace stands where it will be. */
  lemma {:induction false} SubmitsAreEnded(session: SessionId, trace: seq<Step>, turn: TurnId)
    requires PhaseAfter(session, trace).Some?
    ensures Submissions(session, trace, turn) ==
      Endings(trace, turn) + Debt(PhaseAfter(session, trace).value, turn)
    decreases |trace|
  {
    if trace != [] {
      var n := |trace| - 1;
      SubmitsAreEnded(session, trace[..n], turn);
      DebtsAreKept(session, PhaseAfter(session, trace[..n]).value, trace[n], turn);
    }
  }

  lemma {:induction false} PrefixesAreInGrammar(session: SessionId, trace: seq<Step>, i: nat)
    requires PhaseAfter(session, trace).Some? && i <= |trace|
    ensures PhaseAfter(session, trace[..i]).Some?
    decreases |trace|
  {
    if i == |trace| {
      assert trace[..i] == trace;
    } else {
      var n := |trace| - 1;
      PrefixesAreInGrammar(session, trace[..n], i);
      assert trace[..n][..i] == trace[..i];
    }
  }

  /**
    The frames a phase may owe: a live cancel reply only while its turn is open, an error
    only before a fatal end, `Stopped` only at the end.
   */
  predicate WellFormed(p: Phase) {
    match p
    case Owes(CancelReply(turn, status), after) =>
      && (status != WasNotActive ==> Debt(after, turn) == 1)
      && (after.Idle? || after.Active? || after.Settling?
          || (after.Owes? && after.frame.TurnTerminalFrame? && WellFormed(after)))
    case Owes(TurnTerminalFrame(_, _), after) => after.Idle? || after.Over?
    case Owes(Ready, after) => after == Idle
    case Owes(TurnErrorFrame(_), after) => after == Over(false) || (after.Asking? && after.mood == Abort)
    case Owes(StoppedFrame, after) => after == Ended(true)
    case _ => true
  }

  lemma NextIsWellFormed(session: SessionId, p: Phase, step: Step)
    requires WellFormed(p) && Next(session, p, step).Some?
    ensures WellFormed(Next(session, p, step).value)
  {
  }

  lemma {:induction false} PhasesAreWellFormed(session: SessionId, trace: seq<Step>)
    requires PhaseAfter(session, trace).Some?
    ensures WellFormed(PhaseAfter(session, trace).value)
    decreases |trace|
  {
    if trace != [] {
      var n := |trace| - 1;
      PhasesAreWellFormed(session, trace[..n]);
      NextIsWellFormed(session, PhaseAfter(session, trace[..n]).value, trace[n]);
    }
  }

  /** What one step of a trace does to the phase. */
  lemma StepAt(session: SessionId, trace: seq<Step>, i: nat) returns (before: Phase, after: Phase)
    requires PhaseAfter(session, trace).Some? && i < |trace|
    ensures PhaseAfter(session, trace[..i]) == Some(before) && PhaseAfter(session, trace[..i + 1]) == Some(after)
    ensures Next(session, before, trace[i]) == Some(after) && WellFormed(before)
  {
    PrefixesAreInGrammar(session, trace, i);
    PrefixesAreInGrammar(session, trace, i + 1);
    PhasesAreWellFormed(session, trace[..i]);
    assert trace[..i + 1][..i] == trace[..i];
    before, after := PhaseAfter(session, trace[..i]).value, PhaseAfter(session, trace[..i + 1]).value;
  }

  /**
    A cancel reply other than `not_active` is only written for a turn that has been submitted more
    often than ended: with fresh turn ids, before the turn's one ending.
   */
  lemma CancelRepliesPrecedeTheEnding(session: SessionId, trace: seq<Step>, i: nat)
    requires PhaseAfter(session, trace).Some? && i < |trace|
    requires trace[i].Sent? && trace[i].frame.CancelReply? && trace[i].frame.status != WasNotActive
    ensures Endings(trace[..i], trace[i].frame.turnId) < Submissions(session, trace[..i], trace[i].frame.turnId)
  {
    var before, after := StepAt(session, trace, i);
    SubmitsAreEnded(session, trace[..i], trace[i].frame.turnId);
  }

  /** A whole trace ends every submitted turn exactly as often as it was submitted, whatever ended the trace. */
  lemma EverySubmitEnds(session: SessionId, trace: seq<Step>, turn: TurnId)
    requires PhaseAfter(session, trace).Some? && PhaseAfter(session, trace).value.Ended?
    ensures Endings(trace, turn) == Submissions(session, trace, turn)
  {
    SubmitsAreEnded(session, trace, turn);
  }

  lemma {:induction false} CountsOnlyGrow(session: SessionId, trace: seq<Step>, i: nat, turn: TurnId)
    requires i <= |trace|
    ensures Submissions(session, trace[..i], turn) <= Submissions(session, trace, turn)
    ensures Endings(trace[..i], turn) <= Endings(trace, turn)
    decreases |trace|
  {
    if i == |trace| {
      assert trace[..i] == trace;
    } else {
      var n := |trace| - 1;
      CountsOnlyGrow(session, trace[..n], i, turn);
      assert trace[..n][..i] == trace[..i];
    }
  }

  /** With a fresh turn id, everything is in order: one submit, then the live cancel replies, then one ending. */
  lemma FreshTurnsEndOnceAfterTheirCancels(session: SessionId, trace: seq<Step>, i: nat)
    requires PhaseAfter(session, trace).Some? && PhaseAfter(session, trace).value.Ended? && i < |trace|
    requires trace[i].Sent? && trace[i].frame.CancelReply? && trace[i].frame.status != WasNotActive
    requires Submissions(session, trace, trace[i].frame.turnId) <= 1
    ensures Submissions(session, trace[..i], trace[i].frame.turnId) == 1
    ensures Endings(trace[..i], trace[i].frame.turnId) == 0
    ensures Endings(trace, trace[i].frame.turnId) == 1
  {
    var turn := trace[i].frame.turnId;
    CancelRepliesPrecedeTheEnding(session, trace, i);
    CountsOnlyGrow(session, trace, i, turn);
    EverySubmitEnds(session, trace, turn);
  }

  // --------------------------------------------------------- graceful traces

  /** The turns submitted in a trace, in order. */
  function Submits(session: SessionId, trace: seq<Step>): (turns: seq<TurnId>) {
    if trace == [] then []
    else
      var last := |trace| - 1;
      var turn := SubmittedBy(session, trace[last]);
      Submits(session, trace[..last]) + if turn.Some? then [turn.value] else []
  }

  /** The terminals written, with their turns, in order. */
  function Terminals(trace: seq<Step>): (frames: seq<(TurnId, TurnTerminal)>) {
    if trace == [] then []
    else
      var last := |trace| - 1;
      Terminals(trace[..last]) +
      match trace[last]
      case Sent(TurnTerminalFrame(turn, terminal)) => [(turn, terminal)]
      case _ => []
  }

  function TurnsIn(frames: seq<(TurnId, TurnTerminal)>): (turns: seq<TurnId>) {
    seq(|frames|, i requires 0 <= i < |frames| => frames[i].0)
  }

  /** Phases that can still come to a graceful end. */
  predicate CanStop(p: Phase) {
    match p
    case Owes(TurnErrorFrame(_), _) => false
    case Owes(_, after) => CanStop(after)
    case Asking(_, mood) => mood != Abort
    case Settling(_, mood) => mood != Abort
    case Over(graceful) => graceful
    case Ended(stopped) => stopped
    case _ => true
  }

  /** The turn that is open in a phase that can still stop. */
  function Open(p: Phase): (turns: seq<TurnId>) {
    match p
    case Owes(TurnTerminalFrame(turn, _), after) => [turn] + Open(after)
    case Owes(_, after) => Open(after)
    case Active(turn) => [turn]
    case Asking(turn, _) => [turn]
    case Settling(turn, _) => [turn]
    case _ => []
  }

  predicate NoErrors(trace: seq<Step>) {
    forall i :: 0 <= i < |trace| ==> !(trace[i].Sent? && trace[i].frame.TurnErrorFrame?)
  }

  lemma CanStopStep(session: SessionId, p: Phase, step: Step)
    requires WellFormed(p) && Next(session, p, step).Some? && CanStop(Next(session, p, step).value)
    ensures CanStop(p) && !(step.Sent? && step.frame.TurnErrorFrame?)
    ensures var turn := SubmittedBy(session, step);
      if step.Sent? && step.frame.TurnTerminalFrame?
      then Open(p) == [step.frame.turnId] + Open(Next(session, p, step).value) && turn.None?
      else Open(p) + (if turn.Some? then [turn.value] else []) == Open(Next(session, p, step).value)
  {
    match p
    case Asking(turn, mood) =>
      if step.CancelAnswered? && step.result.Some? && step.result.value.AlreadyTerminal? {
        var owed := OwesTerminal(turn, step.result.value.terminal, mood);
        assert CanStop(owed) == CanStop(Ending(mood)) && Open(owed) == [turn] + Open(Ending(mood));
      }
    case _ =>
  }

  /** While a trace can still stop gracefully, its terminals are its submits, one for one and in order. */
  lemma {:induction false} TerminalsFollowSubmits(session: SessionId, trace: seq<Step>)
    requires PhaseAfter(session, trace).Some? && CanStop(PhaseAfter(session, trace).value)
    ensures NoErrors(trace)
    ensures TurnsIn(Terminals(trace)) + Open(PhaseAfter(session, trace).value) == Submits(session, trace)
    decreases |trace|
  {
    if trace != [] {
      var n := |trace| - 1;
      var p := PhaseAfter(session, trace[..n]).value;
      PhasesAreWellFormed(session, trace[..n]);
      CanStopStep(session, p, trace[n]);
      TerminalsFollowSubmits(session, trace[..n]);
    }
  }

  lemma OnlyWholeTracesHaveEnded(session: SessionId, trace: seq<Step>, i: nat)
    requires PhaseAfter(session, trace).Some? && i < |trace|
    ensures PhaseAfter(session, trace[..i]).Some? && !PhaseAfter(session, trace[..i]).value.Ended?
  {
    var before, after := StepAt(session, trace, i);
  }

  /**
    A `Stopped` frame is the last thing in its trace; the trace then holds no error, and its
    terminals are its submits, one for one and in order.
   */
  lemma StoppedMeansAllDone(session: SessionId, trace: seq<Step>, i: nat)
    requires PhaseAfter(session, trace).Some? && i < |trace| && trace[i] == Sent(StoppedFrame)
    ensures i == |trace| - 1 && NoErrors(trace) && TurnsIn(Terminals(trace)) == Submits(session, trace)
  {
    var before, after := StepAt(session, trace, i);
    assert after == Ended(true);
    if i + 1 < |trace| {
      OnlyWholeTracesHaveEnded(session, trace, i + 1);
      assert false;
    }
    assert trace[..i + 1] == trace;
    TerminalsFollowSubmits(session, trace);
  }

  // ---------------------------------------------------------------- relaying

  /** The terminal that the Agent reports in a step, by ending a submission or in answer to a cancel. */
  function Reported(step: Step): (terminals: seq<TurnTerminal>) {
    match step
    case SubmissionEnded(Some(terminal)) => [terminal]
    case CancelAnswered(Some(AlreadyTerminal(terminal))) => [terminal]
    case _ => []
  }

  /** The terminals that the Agent reported, in order. */
  function Heard(trace: seq<Step>): (terminals: seq<TurnTerminal>) {
    if trace == [] then [] else Heard(trace[..|trace| - 1]) + Reported(trace[|trace| - 1])
  }

  function WrittenBy(step: Step): (terminals: seq<TurnTerminal>) {
    if step.Sent? && step.frame.TurnTerminalFrame? then [step.frame.terminal] else []
  }

  /** The terminals written to the client, in order. */
  function Written(trace: seq<Step>): (terminals: seq<TurnTerminal>) {
    if trace == [] then [] else Written(trace[..|trace| - 1]) + WrittenBy(trace[|trace| - 1])
  }

  function Owed(p: Phase): (terminals: seq<TurnTerminal>) {
    match p
    case Owes(TurnTerminalFrame(_, terminal), after) => [terminal] + Owed(after)
    case Owes(_, after) => Owed(after)
    case _ => []
  }

  lemma OwedStep(session: SessionId, p: Phase, step: Step)
    requires Next(session, p, step).Some?
    ensures Owed(p) + Reported(step) == WrittenBy(step) + Owed(Next(session, p, step).value)
  {
    if Reported(step) != [] && !p.Owes? {
      var terminal := Reported(step)[0];
      var mood := if p.Active? then Resume else p.mood;
      assert Owed(OwesTerminal(p.turnId, terminal, mood)) == [terminal] + Owed(Ending(mood));
    }
  }

  /** Every terminal the Agent reports is written exactly once, unchanged and in order. */
  lemma {:induction false} TerminalsAreRelayed(session: SessionId, trace: seq<Step>)
    requires PhaseAfter(session, trace).Some?
    ensures Written(trace) + Owed(PhaseAfter(session, trace).value) == Heard(trace)
    decreases |trace|
  {
    if trace != [] {
      var n := |trace| - 1;
      var p := PhaseAfter(session, trace[..n]).value;
      TerminalsAreRelayed(session, trace[..n]);
      OwedStep(session, p, trace[n]);
      Assoc(Written(trace[..n]), Owed(p), Reported(trace[n]));
      Assoc(Written(trace[..n]), WrittenBy(trace[n]), Owed(PhaseAfter(session, trace).value));
    }
  }

  // -------------------------------------------- what follows what, step by step

  /** Position `i` of a trace holds a submit for this session. */
  predicate SubmitsAt(session: SessionId, trace: seq<Step>, i: int) {
    0 <= i < |trace| && SubmittedBy(session, trace[i]).Some?
  }

  /**
    The turn that is open after a trace: a submit opens one if none is open, a terminal ends it, and
    so does an error, unless it is the one that refuses a submit just read.
   */
  function OpenTurn(session: SessionId, trace: seq<Step>): (turn: Option<TurnId>)
    decreases |trace|
  {
    if trace == [] then None
    else
      var last := |trace| - 1;
      var before := OpenTurn(session, trace[..last]);
      match trace[last]
      case Took(_) => if before.None? then SubmittedBy(session, trace[last]) else before
      case Sent(TurnTerminalFrame(_, _)) => None
      case Sent(TurnErrorFrame(_)) => if RefusesNext(session, trace[..last]) then before else None
      case _ => before
  }

  /** The last thing read is a submit, and another turn was open before it. */
  predicate RefusesNext(session: SessionId, trace: seq<Step>)
    decreases |trace|
  {
    SubmitsAt(session, trace, |trace| - 1) && OpenTurn(session, trace[..|trace| - 1]).Some?
  }

  function TurnOf(p: Phase): (turn: Option<TurnId>) {
    match p
    case Owes(TurnTerminalFrame(turn, _), _) => Some(turn)
    case Owes(TurnErrorFrame(turn), after) => if after.Asking? then Some(after.turnId) else Some(turn)
    case Owes(_, after) => TurnOf(after)
    case Active(turn) => Some(turn)
    case Asking(turn, _) => Some(turn)
    case Settling(turn, _) => Some(turn)
    case _ => None
  }

  predicate OwesRefusal(p: Phase) {
    p.Owes? && p.frame.TurnErrorFrame? && p.after.Asking?
  }

  lemma TurnStep(session: SessionId, p: Phase, step: Step)
    requires WellFormed(p) && Next(session, p, step).Some?
    ensures var q := Next(session, p, step).value;
      && TurnOf(q) ==
         (match step
          case Took(_) => if TurnOf(p).None? then SubmittedBy(session, step) else TurnOf(p)
          case Sent(TurnTerminalFrame(_, _)) => None
          case Sent(TurnErrorFrame(_)) => if OwesRefusal(p) then TurnOf(p) else None
          case _ => TurnOf(p))
      && (OwesRefusal(q) <==> SubmittedBy(session, step).Some? && TurnOf(p).Some?)
  {
    if p.Asking? && step.CancelAnswered? && step.result.Some? {
      var owed := WhenAnswered(p.turnId, p.mood, step.result.value);
      assert TurnOf(owed) == TurnOf(owed.after);
    }
  }

  lemma {:induction false} OpenTurnIsThePhases(session: SessionId, trace: seq<Step>)
    requires PhaseAfter(session, trace).Some?
    ensures OpenTurn(session, trace) == TurnOf(PhaseAfter(session, trace).value)
    ensures RefusesNext(session, trace) <==> OwesRefusal(PhaseAfter(session, trace).value)
    decreases |trace|
  {
    if trace != [] {
      var n := |trace| - 1;
      OpenTurnIsThePhases(session, trace[..n]);
      PhasesAreWellFormed(session, trace[..n]);
      TurnStep(session, PhaseAfter(session, trace[..n]).value, trace[n]);
    }
  }

  /** Two steps of a trace, with the phases around them. */
  lemma TwoSteps(session: SessionId, trace: seq<Step>, i: nat) returns (p: Phase, q: Phase, r: Phase)
    requires PhaseAfter(session, trace).Some? && i + 1 < |trace|
    ensures Next(session, p, trace[i]) == Some(q) && Next(session, q, trace[i + 1]) == Some(r)
    ensures WellFormed(p) && OpenTurn(session, trace[..i]) == TurnOf(p)
    ensures PhaseAfter(session, trace[..i + 2]) == Some(r)
  {
    p, q := StepAt(session, trace, i);
    q, r := StepAt(session, trace, i + 1);
    OpenTurnIsThePhases(session, trace[..i]);
  }

  /** A cancel of the open turn is put to the Agent, and a cancel of any other is answered at once. */
  lemma CancelsAreAsked(session: SessionId, trace: seq<Step>, i: nat, turn: TurnId)
    requires PhaseAfter(session, trace).Some? && i + 1 < |trace|
    requires trace[i] == Took(Command(Cancel(1, session, turn)))
    ensures if OpenTurn(session, trace[..i]) == Some(turn)
            then trace[i + 1].CancelAnswered?
            else trace[i + 1] == Sent(CancelReply(turn, WasNotActive))
  {
    var p, q, r := TwoSteps(session, trace, i);
  }

  /** What the Agent answers to a cancel is written next, for the open turn, and a terminal right after it. */
  lemma CancelAnswersAreWritten(session: SessionId, trace: seq<Step>, i: nat)
    requires PhaseAfter(session, trace).Some? && i + 1 < |trace| && trace[i].CancelAnswered?
    ensures OpenTurn(session, trace[..i]).Some?
    ensures var turn := OpenTurn(session, trace[..i]).value;
      match trace[i].result
      case None => trace[i + 1] == Sent(TurnErrorFrame(turn))
      case Some(CancellationRequested) => trace[i + 1] == Sent(CancelReply(turn, WasRequested))
      case Some(NotActive) => trace[i + 1] == Sent(CancelReply(turn, WasNotActive))
      case Some(AlreadyTerminal(_)) => trace[i + 1] == Sent(CancelReply(turn, WasTerminal))
    ensures trace[i].result.Some? && trace[i].result.value.AlreadyTerminal? && i + 2 < |trace| ==>
      trace[i + 2] ==
        Sent(TurnTerminalFrame(OpenTurn(session, trace[..i]).value, trace[i].result.value.terminal))
  {
    var p, q, r := TwoSteps(session, trace, i);
    if i + 2 < |trace| {
      var before, after := StepAt(session, trace, i + 2);
    }
  }

  /** How a submission ended is written next, for the open turn; giving up on it is an error. */
  lemma SubmissionEndsAreWritten(session: SessionId, trace: seq<Step>, i: nat)
    requires PhaseAfter(session, trace).Some? && i + 1 < |trace|
    requires trace[i].SubmissionEnded? || trace[i].GaveUpWaiting?
    ensures OpenTurn(session, trace[..i]).Some?
    ensures var turn := OpenTurn(session, trace[..i]).value;
      if trace[i].SubmissionEnded? && trace[i].terminal.Some?
      then trace[i + 1] == Sent(TurnTerminalFrame(turn, trace[i].terminal.value))
      else trace[i + 1] == Sent(TurnErrorFrame(turn))
  {
    var p, q, r := TwoSteps(session, trace, i);
  }

  /**
    What is read between turns: a submit opens its turn; a shutdown or the end of the input closes the
    client, and `Stopped` follows if that goes well; anything else but a cancel closes it for good.
   */
  lemma CommandsBetweenTurns(session: SessionId, trace: seq<Step>, i: nat)
    requires PhaseAfter(session, trace).Some? && i + 1 < |trace|
    requires trace[i].Took? && OpenTurn(session, trace[..i]).None?
    ensures match trace[i].incoming
      case EndOfInput => ClosesWell(trace, i + 1)
      case Fault => trace[i + 1].ClientClosed? && i + 2 == |trace|
      case Command(frame) =>
        if frame.v != 1 || frame.sessionId != session then trace[i + 1].ClientClosed? && i + 2 == |trace|
        else if frame.Shutdown? then ClosesWell(trace, i + 1)
        else if frame.Cancel? then trace[i + 1] == Sent(CancelReply(frame.turnId, WasNotActive))
        else trace[i + 1].Took? || trace[i + 1].SubmissionEnded?
  {
    var p, q, r := TwoSteps(session, trace, i);
    if i + 2 < |trace| {
      var before, after := StepAt(session, trace, i + 2);
    }
  }

  /** The client is closed, and `Stopped` is written exactly if that succeeds. */
  ghost predicate ClosesWell(trace: seq<Step>, i: nat) {
    && i < |trace| && trace[i].ClientClosed?
    && (i + 1 < |trace| ==> trace[i].ok && trace[i + 1] == Sent(StoppedFrame))
  }

  /**
    What is read while a turn is open: a shutdown, the end of the input and any fault put a cancel to
    the Agent, and another submit is refused first and then does the same.
   */
  lemma CommandsDuringATurn(session: SessionId, trace: seq<Step>, i: nat)
    requires PhaseAfter(session, trace).Some? && i + 1 < |trace|
    requires trace[i].Took? && OpenTurn(session, trace[..i]).Some?
    ensures match trace[i].incoming
      case EndOfInput => trace[i + 1].CancelAnswered?
      case Fault => trace[i + 1].CancelAnswered?
      case Command(frame) =>
        if frame.v != 1 || frame.sessionId != session || frame.Shutdown? then trace[i + 1].CancelAnswered?
        else if frame.Submit? then
          && trace[i + 1] == Sent(TurnErrorFrame(frame.turnId))
          && (i + 2 < |trace| ==> trace[i + 2].CancelAnswered?)
        else if OpenTurn(session, trace[..i]) == Some(frame.turnId) then trace[i + 1].CancelAnswered?
        else trace[i + 1] == Sent(CancelReply(frame.turnId, WasNotActive))
  {
    var p, q, r := TwoSteps(session, trace, i);
    if i + 2 < |trace| {
      var before, after := StepAt(session, trace, i + 2);
    }
  }

  // -------------------------------------------------------- and what precedes it

  /** The phases that a cancel reply to the open turn comes from. */
  lemma ReplyComesFromAnswer(session: SessionId, p: Phase, step: Step)
    requires WellFormed(p) && Next(session, p, step).Some?
    requires var q := Next(session, p, step).value;
      q.Owes? && q.frame.CancelReply? && TurnOf(q) == Some(q.frame.turnId)
    ensures step.CancelAnswered? && step.result.Some?
    ensures Next(session, p, step).value.frame.status ==
      (match step.result.value
       case CancellationRequested => WasRequested
       case AlreadyTerminal(_) => WasTerminal
       case NotActive => WasNotActive)
  {
  }

  /**
    A cancel reply for the open turn, whatever it says, is written only directly after the Agent has
    answered so; for any other turn it says `not_active` and comes directly after that cancel was read.
   */
  lemma CancelRepliesComeFromAnswers(session: SessionId, trace: seq<Step>, i: nat)
    requires PhaseAfter(session, trace).Some? && i < |trace|
    requires trace[i].Sent? && trace[i].frame.CancelReply?
    ensures i > 0
    ensures if OpenTurn(session, trace[..i]) == Some(trace[i].frame.turnId)
      then
        && trace[i - 1].CancelAnswered? && trace[i - 1].result.Some?
        && trace[i].frame.status ==
           (match trace[i - 1].result.value
            case CancellationRequested => WasRequested
            case AlreadyTerminal(_) => WasTerminal
            case NotActive => WasNotActive)
      else
        trace[i].frame.status == WasNotActive
        && trace[i - 1] == Took(Command(Cancel(1, session, trace[i].frame.turnId)))
  {
    var before, after := StepAt(session, trace, i);
    OpenTurnIsThePhases(session, trace[..i]);
    assert i > 0;
    var p, q := StepAt(session, trace, i - 1);
    if TurnOf(q) == Some(q.frame.turnId) {
      ReplyComesFromAnswer(session, p, trace[i - 1]);
    }
  }

  /** A terminal is written only directly after the Agent has reported it, or after the reply that it came with. */
  lemma TerminalsComeFromTheAgent(session: SessionId, trace: seq<Step>, i: nat)
    requires PhaseAfter(session, trace).Some? && i < |trace|
    requires trace[i].Sent? && trace[i].frame.TurnTerminalFrame?
    ensures OpenTurn(session, trace[..i]) == Some(trace[i].frame.turnId)
    ensures i > 0
    ensures || trace[i - 1] == SubmissionEnded(Some(trace[i].frame.terminal))
            || (i > 1 && trace[i - 1] == Sent(CancelReply(trace[i].frame.turnId, WasTerminal))
                && trace[i - 2] == CancelAnswered(Some(AlreadyTerminal(trace[i].frame.terminal))))
  {
    var before, after := StepAt(session, trace, i);
    OpenTurnIsThePhases(session, trace[..i]);
    assert i > 0;
    var p, q := StepAt(session, trace, i - 1);
    OwedTerminalComesFrom(session, p, trace[i - 1]);
    if p.Owes? {
      assert i > 1;
      var o, p' := StepAt(session, trace, i - 2);
      AnsweredTerminalComesFrom(session, o, trace[i - 2]);
    }
  }

  lemma OwedTerminalComesFrom(session: SessionId, p: Phase, step: Step)
    requires WellFormed(p) && Next(session, p, step).Some?
    requires var q := Next(session, p, step).value; q.Owes? && q.frame.TurnTerminalFrame?
    ensures var q := Next(session, p, step).value;
      || (step == SubmissionEnded(Some(q.frame.terminal)) && !p.Owes?)
      || (p.Owes? && p.frame.CancelReply? && step == Sent(p.frame) && p.after == q)
  {
  }

  lemma AnsweredTerminalComesFrom(session: SessionId, o: Phase, step: Step)
    requires WellFormed(o) && Next(session, o, step).Some?
    requires var p := Next(session, o, step).value;
      p.Owes? && p.frame.CancelReply? && p.after.Owes? && p.after.frame.TurnTerminalFrame?
    ensures var p := Next(session, o, step).value;
      && step == CancelAnswered(Some(AlreadyTerminal(p.after.frame.terminal)))
      && p.frame == CancelReply(p.after.frame.turnId, WasTerminal)
  {
  }

  // ------------------------------------------------------- how a trace winds down

  /** Phases in which a graceful end has been asked for and nothing has gone wrong. */
  predicate Gracious(p: Phase) {
    match p
    case Owes(TurnErrorFrame(_), _) => false
    case Owes(_, after) => Gracious(after)
    case Asking(_, mood) => mood == Stop
    case Settling(_, mood) => mood == Stop
    case Over(graceful) => graceful
    case Ended(stopped) => stopped
    case _ => false
  }

  /** What can go wrong while a trace winds down. */
  predicate GoesWrong(step: Step) {
    || step == SubmissionEnded(None) || step == CancelAnswered(None)
    || step == GaveUpWaiting || step == ClientClosed(false)
  }

  lemma GraciousStep(session: SessionId, p: Phase, step: Step)
    requires Gracious(p) && Next(session, p, step).Some? && !GoesWrong(step)
    ensures Gracious(Next(session, p, step).value) && !step.Took?
  {
    if p.Asking? || p.Settling? {
      assert forall x :: Gracious(OwesTerminal(p.turnId, x, Stop)) by {
        forall x ensures Gracious(OwesTerminal(p.turnId, x, Stop)) {
          assert Gracious(Ending(Stop));
        }
      }
    }
  }

  lemma {:induction false} StaysGracious(session: SessionId, trace: seq<Step>, i: nat)
    requires PhaseAfter(session, trace).Some? && i <= |trace|
    requires PhaseAfter(session, trace[..i]).Some? && Gracious(PhaseAfter(session, trace[..i]).value)
    requires forall j :: i <= j < |trace| ==> !GoesWrong(trace[j])
    ensures Gracious(PhaseAfter(session, trace).value)
    ensures forall j :: i <= j < |trace| ==> !trace[j].Took?
    decreases |trace|
  {
    if i == |trace| {
      assert trace[..i] == trace;
    } else {
      var n := |trace| - 1;
      assert trace[..n][..i] == trace[..i];
      StaysGracious(session, trace[..n], i);
      GraciousStep(session, PhaseAfter(session, trace[..n]).value, trace[n]);
    }
  }

  /**
    A shutdown, or the end of the input, is the last thing read; if nothing goes wrong after it, a
    whole trace ends with `Stopped`.
   */
  lemma ShutdownEndsWithStopped(session: SessionId, trace: seq<Step>, i: nat)
    requires PhaseAfter(session, trace).Some? && i < |trace|
    requires trace[i] in {Took(EndOfInput), Took(Command(Shutdown(1, session)))}
    requires forall j :: i < j < |trace| ==> !GoesWrong(trace[j])
    ensures forall j :: i < j < |trace| ==> !trace[j].Took?
    ensures PhaseAfter(session, trace).value.Ended? ==> trace[|trace| - 1] == Sent(StoppedFrame)
  {
    var p, q := StepAt(session, trace, i);
    StaysGracious(session, trace, i + 1);
    if PhaseAfter(session, trace).value.Ended? {
      var n := |trace| - 1;
      var before, after := StepAt(session, trace, n);
      assert trace[..n + 1] == trace;
    }
  }

  /** A fault, a command for another session or version, and a second submit rule `Stopped` out. */
  lemma FaultsRuleStoppedOut(session: SessionId, trace: seq<Step>, i: nat)
    requires PhaseAfter(session, trace).Some? && i < |trace| && trace[i].Took?
    requires match trace[i].incoming
      case EndOfInput => false
      case Fault => true
      case Command(frame) =>
        || frame.v != 1 || frame.sessionId != session
        || (frame.Submit? && OpenTurn(session, trace[..i]).Some?)
    ensures Sent(StoppedFrame) !in trace
  {
    var p, q := StepAt(session, trace, i);
    OpenTurnIsThePhases(session, trace[..i]);
    if Sent(StoppedFrame) in trace {
      var k :| 0 <= k < |trace| && trace[k] == Sent(StoppedFrame);
      StoppedMeansAllDone(session, trace, k);
      var before, after := StepAt(session, trace, k);
      assert trace[..k + 1] == trace;
      CouldStopBefore(session, trace, i + 1);
    }
  }

  lemma {:induction false} CouldStopBefore(session: SessionId, trace: seq<Step>, i: nat)
    requires PhaseAfter(session, trace).Some? && CanStop(PhaseAfter(session, trace).value) && i <= |trace|
    ensures PhaseAfter(session, trace[..i]).Some? && CanStop(PhaseAfter(session, trace[..i]).value)
    decreases |trace|
  {
    if i == |trace| {
      assert trace[..i] == trace;
    } else {
      var n := |trace| - 1;
      PhasesAreWellFormed(session, trace[..n]);
      CanStopStep(session, PhaseAfter(session, trace[..n]).value, trace[n]);
      CouldStopBefore(session, trace[..n], i);
      assert trace[..n][..i] == trace[..i];
    }
  }
}
