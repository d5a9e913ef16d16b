/**
  The state behind the Agent's mutex.  Each method is one locked region, run in place, and leaves
  exactly the ledger that its function in `AgentLedger` says.
 */
module AgentStates {
  import opened Wrappers
  import opened Text
  import opened AgentTypes
  import opened AgentContext
  import opened AgentLedger

  class AgentState {
    var lifecycle: Lifecycle
    var activeProfile: Option<Profile>
    var sessions: map<SessionId, Session>
    var sessionOrder: seq<SessionId>
    var activeTurn: Option<ActiveTurn>

    ghost function View(): (v: Ledger)
      reads this
    {
      Ledger(lifecycle, activeProfile, sessions, sessionOrder, activeTurn)
    }

    constructor ()
      ensures View() == INITIAL_LEDGER
    {
      lifecycle := Created;
      activeProfile := None;
      sessions := map[];
      sessionOrder := [];
      activeTurn := None;
    }

    // ------------------------------------------------------------- searching

    method FindCompleted(sessionId: SessionId, turnId: TurnId) returns (r: Option<CompletedTurn>)
      ensures r == Recorded(View(), sessionId, turnId)
    {
      if sessionId !in sessions {
        return None;
      }
      var turns := sessions[sessionId].turns;
      assert turns[0..] == turns;
      for i := 0 to |turns|
        invariant FindTurn(turns, turnId) == FindTurn(turns[i..], turnId)
      {
        if turns[i].turnId == turnId {
          return Some(turns[i]);
        }
        assert turns[i..][1..] == turns[i + 1..];
      }
      return None;
    }

    method PendingPosition(pending: seq<TurnId>, turnId: TurnId) returns (r: Option<nat>)
      ensures r == Position(pending, turnId)
    {
      for i := 0 to |pending|
        invariant forall j :: 0 <= j < i ==> pending[j] != turnId
      {
        if pending[i] == turnId {
          return Some(i);
        }
      }
      return None;
    }

    method EvictablePosition(protected: Option<SessionId>) returns (r: Option<nat>)
      ensures r == VictimPosition(sessionOrder, protected)
    {
      for i := 0 to |sessionOrder|
        invariant forall j :: 0 <= j < i ==> Some(sessionOrder[j]) == protected
      {
        if Some(sessionOrder[i]) != protected {
          return Some(i);
        }
      }
      return None;
    }

    // ------------------------------------------------- helpers under the lock

    method EnsureSession(sessionId: SessionId) returns (error: Option<AgentError>)
      modifies this
      ensures match AgentLedger.EnsureSession(old(View()), sessionId)
              case Ok(v) => View() == v && error == None
              case Err(e) => View() == old(View()) && error == Some(e)
    {
      if sessionId in sessions {
        return None;
      }
      if |sessions| == MAX_SESSIONS {
        var protected := if activeTurn.Some? then Some(activeTurn.value.sessionId) else None;
        var position := EvictablePosition(protected);
        if position.None? {
          return Some(NoEvictableSession);
        }
        var expired := sessionOrder[position.value];
        sessionOrder := RemoveAt(sessionOrder, position.value);
        sessions := sessions - {expired};
      }
      sessions := sessions[sessionId := NEW_SESSION];
      sessionOrder := sessionOrder + [sessionId];
      return None;
    }

    method EnsureTurnSlot(sessionId: SessionId) returns (error: Option<AgentError>)
      requires sessionId in sessions
      ensures error == if HasSlot(View(), sessionId) then None else Some(CapacityFull)
    {
      var session := sessions[sessionId];
      var activeReservation := if activeTurn.Some? && activeTurn.value.sessionId == sessionId then 1 else 0;
      if |session.turns| + |session.pending| + activeReservation >= MAX_RETAINED_TURNS_PER_SESSION {
        return Some(CapacityFull);
      }
      return None;
    }

    method RecordCompletedTurn(sessionId: SessionId, turnId: TurnId, input: string, terminal: TurnTerminal)
      requires sessionId in sessions
      modifies this`sessions
      ensures View() == RecordTurn(old(View()), sessionId, CompletedTurn(turnId, input, terminal))
    {
      var session := sessions[sessionId];
      sessions := sessions[sessionId := session.(turns := session.turns + [CompletedTurn(turnId, input, terminal)])];
    }

    method CancelActiveTurn()
      modifies this`activeTurn
      ensures View() == SetFlag(old(View()))
    {
      if activeTurn.Some? {
        activeTurn := Some(activeTurn.value.(cancelled := true));
      }
    }

    // -------------------------------------------------------- locked regions

    /** The admission half of `submit_turn`. */
    method AdmitTurn(owned: bool, sessionId: SessionId, turnId: TurnId, input: string, deadlineNanos: nat)
      returns (outcome: SubmitOutcome)
      modifies this
      ensures (View(), outcome) == SubmitCall(old(View()), owned, sessionId, turnId, input, deadlineNanos)
    {
      var fault := InputFaultOf(input);
      if fault.Some? {
        return Rejected(BadInput(fault.value));
      }
      if !ValidDeadline(deadlineNanos) {
        return Rejected(BadDeadline);
      }
      if !owned {
        return Rejected(OwnerUnavailable);
      }
      if lifecycle != Running {
        return Rejected(NotRunning);
      }
      if activeProfile.None? {
        return Rejected(NoActiveCard);
      }
      var completed := FindCompleted(sessionId, turnId);
      if completed.Some? {
        if completed.value.input != input {
          return Rejected(DifferentInput);
        }
        return Answered(completed.value.terminal);
      }
      if sessionId in sessions {
        var session := sessions[sessionId];
        var position := PendingPosition(session.pending, turnId);
        if position.Some? {
          sessions := sessions[sessionId := session.(pending := RemoveAt(session.pending, position.value))];
          assert View() == ClearPending(old(View()), sessionId, turnId);
          RecordCompletedTurn(sessionId, turnId, input, Cancelled);
          return Answered(Cancelled);
        }
      }
      if activeTurn.Some? {
        return Rejected(Busy);
      }
      outcome := AdmitFresh(sessionId, turnId, input);
    }

    /** The part of admission that starts a new turn. */
    method AdmitFresh(sessionId: SessionId, turnId: TurnId, input: string) returns (outcome: SubmitOutcome)
      requires lifecycle == Running && activeProfile.Some? && activeTurn.None?
      requires Recorded(View(), sessionId, turnId).None?
      requires sessionId in sessions ==> turnId !in sessions[sessionId].pending
      modifies this
      ensures (View(), outcome) == Submit(old(View()), sessionId, turnId, input)
    {
      var error := EnsureSession(sessionId);
      if error.Some? {
        return Rejected(error.value);
      }
      error := EnsureTurnSlot(sessionId);
      if error.Some? {
        return Rejected(error.value);
      }
      var context := BuildModelContext(activeProfile.value.systemPrompt, sessions[sessionId].turns, input);
      if context.Err? {
        RecordCompletedTurn(sessionId, turnId, input, Failed(context.error));
        return Answered(Failed(context.error));
      }
      activeTurn := Some(ActiveTurn(sessionId, turnId, false));
      return Admitted(context.value);
    }

    method Cancel(owned: bool, sessionId: SessionId, turnId: TurnId)
      returns (r: Result<CancelResult, AgentError>)
      modifies this
      ensures (View(), r) == CancelCall(old(View()), owned, sessionId, turnId)
    {
      if !owned {
        return Err(OwnerUnavailable);
      }
      var completed := FindCompleted(sessionId, turnId);
      if completed.Some? {
        return Ok(AlreadyTerminal(completed.value.terminal));
      }
      if activeTurn.Some? && activeTurn.value.sessionId == sessionId && activeTurn.value.turnId == turnId {
        activeTurn := Some(activeTurn.value.(cancelled := true));
        return Ok(CancellationRequested);
      }
      if lifecycle != Running || activeProfile.None? {
        return Ok(NotActive);
      }
      var error := EnsureSession(sessionId);
      if error.Some? {
        return Err(error.value);
      }
      var session := sessions[sessionId];
      if turnId !in session.pending {
        error := EnsureTurnSlot(sessionId);
        if error.Some? {
          return Err(error.value);
        }
        sessions := sessions[sessionId := session.(pending := session.pending + [turnId])];
      }
      return Ok(CancellationRequested);
    }

    /** The locked region of `ActiveTurnGuard::complete`. */
    method Complete(sessionId: SessionId, turnId: TurnId, input: string, proposed: TurnTerminal)
      returns (r: Result<TurnTerminal, AgentError>)
      requires Coherent(View())
      modifies this
      ensures (View(), r) == AgentLedger.Complete(old(View()), sessionId, turnId, input, proposed)
    {
      if activeTurn.None? {
        return Err(LostOwnership);
      }
      if activeTurn.value.sessionId != sessionId || activeTurn.value.turnId != turnId {
        return Err(IdentityChanged);
      }
      var terminal :=
        if activeTurn.value.cancelled || lifecycle != Running || activeProfile.None? then Cancelled else proposed;
      activeTurn := None;
      RecordCompletedTurn(sessionId, turnId, input, terminal);
      return Ok(terminal);
    }

    /** The locked region of dropping an armed guard. */
    method DropGuard(sessionId: SessionId, turnId: TurnId, input: string) returns (cleared: bool)
      modifies this
      ensures (View(), cleared) == AgentLedger.DropGuard(old(View()), sessionId, turnId, input)
    {
      var activeMatches :=
        activeTurn.Some? && activeTurn.value.sessionId == sessionId && activeTurn.value.turnId == turnId;
      if !activeMatches {
        return false;
      }
      activeTurn := None;
      if sessionId in sessions {
        RecordCompletedTurn(sessionId, turnId, input, Cancelled);
      }
      return true;
    }

    method ActivateProfile(owned: bool, definitionMatches: bool, profile: Profile)
      returns (error: Option<AgentError>)
      modifies this`activeProfile
      ensures (View(), error) == ActivateCall(old(View()), owned, definitionMatches, profile)
    {
      if !owned {
        return Some(OwnerUnavailable);
      }
      if !definitionMatches {
        return Some(WrongDefinition);
      }
      if lifecycle != Running {
        return Some(NotRunning);
      }
      if activeProfile.Some? {
        return Some(ProfileAlreadyActive);
      }
      activeProfile := Some(profile);
      return None;
    }

    method DeactivateProfile(owned: bool, cardInstanceId: nat) returns (outcome: BeginOutcome)
      modifies this`activeProfile, this`activeTurn
      ensures (View(), outcome) == DeactivateCall(old(View()), owned, cardInstanceId)
    {
      if !owned {
        return Refused(OwnerUnavailable);
      }
      if activeProfile.None? {
        return Done;
      }
      if activeProfile.value.cardInstanceId != cardInstanceId {
        return Refused(OtherCardOwnsProfile);
      }
      activeProfile := None;
      CancelActiveTurn();
      return MustWait;
    }

    method Start() returns (error: Option<AgentError>)
      modifies this`lifecycle
      ensures (View(), error) == AgentLedger.Start(old(View()))
    {
      if lifecycle != Created {
        return Some(NotCreated);
      }
      lifecycle := Running;
      return None;
    }

    /** The first region of `stop_inner`. */
    method StopBegin() returns (outcome: BeginOutcome)
      modifies this
      ensures (View(), outcome) == AgentLedger.StopBegin(old(View()))
    {
      match lifecycle {
        case Created =>
          lifecycle := Stopped;
          return Done;
        case Running =>
          lifecycle := Stopping;
        case Stopping =>
        case Stopped =>
          return Done;
      }
      activeProfile := None;
      CancelActiveTurn();
      return MustWait;
    }

    /** The last region of `stop_inner`. */
    method StopFinish()
      modifies this`lifecycle
      ensures View() == AgentLedger.StopFinish(old(View()))
    {
      lifecycle := Stopped;
    }

    /** Dropping the service itself. */
    method DropService()
      modifies this
      ensures View() == AgentLedger.DropService(old(View()))
    {
      activeProfile := None;
      lifecycle := Stopped;
      CancelActiveTurn();
    }
  }
}
