/**
  What the Agent service promises its callers over whole runs: one terminal per turn, cancellation
  that is never forgotten, eviction of the oldest idle session, and a shutdown that ends.
 */
module AgentLaws {
  import opened Wrappers
  import opened Text
  import opened AgentTypes
  import opened AgentContext
  import opened AgentLedger
  import opened AgentRuns

  function LedgerAt(run: Run, i: nat): (v: Ledger)
    requires i < |run.worlds|
  {
    run.worlds[i].ledger
  }

  /** A session is held from one world of a run to another. */
  ghost predicate Retained(run: Run, session: SessionId, from: nat, to: nat) {
    to < |run.worlds| && forall k :: from <= k <= to ==> session in run.worlds[k].ledger.sessions
  }

  // ------------------------------------------------------------- write once

  lemma {:induction false} FindInPrefix(turns: seq<CompletedTurn>, more: seq<CompletedTurn>, id: TurnId)
    requires FindTurn(turns, id).Some?
    ensures FindTurn(turns + more, id) == FindTurn(turns, id)
  {
    assert (turns + more)[0] == turns[0];
    if turns[0].turnId != id {
      assert (turns + more)[1..] == turns[1..] + more;
      FindInPrefix(turns[1..], more, id);
    }
  }

  lemma OneStepGrows(run: Run, i: nat, session: SessionId)
    requires IsRun(run) && i < |run.events| && session in LedgerAt(run, i + 1).sessions
    ensures TurnsOf(LedgerAt(run, i), session) <= TurnsOf(LedgerAt(run, i + 1), session)
  {
    var turnover := RunStep(run, i);
  }

  lemma OneStepKeepsPromise(run: Run, i: nat, session: SessionId, turn: TurnId)
    requires IsRun(run) && i < |run.events| && session in LedgerAt(run, i + 1).sessions
    requires Doomed(LedgerAt(run, i), session, turn)
    ensures Doomed(LedgerAt(run, i + 1), session, turn)
  {
    var turnover := RunStep(run, i);
  }

  /** While a session is retained its turn list only grows, by appending. */
  lemma {:induction false} TurnListsOnlyGrow(run: Run, session: SessionId, i: nat, j: nat)
    requires IsRun(run) && i <= j && Retained(run, session, i, j)
    ensures TurnsOf(LedgerAt(run, i), session) <= TurnsOf(LedgerAt(run, j), session)
    decreases j - i
  {
    if i < j {
      TurnListsOnlyGrow(run, session, i, j - 1);
      OneStepGrows(run, j - 1, session);
    }
  }

  /** A recorded turn stays as it is for as long as its session is retained. */
  lemma RecordsPersist(run: Run, session: SessionId, turn: TurnId, i: nat, j: nat)
    requires IsRun(run) && i <= j && Retained(run, session, i, j)
    requires Recorded(LedgerAt(run, i), session, turn).Some?
    ensures Recorded(LedgerAt(run, j), session, turn) == Recorded(LedgerAt(run, i), session, turn)
  {
    TurnListsOnlyGrow(run, session, i, j);
    var before, after := TurnsOf(LedgerAt(run, i), session), TurnsOf(LedgerAt(run, j), session);
    assert after == before + after[|before|..];
    FindInPrefix(before, after[|before|..], turn);
  }

  /** Whatever terminal a caller is told, by a result or by a late cancel, is the recorded one. */
  lemma ToldTerminalsAreRecorded(w: World, event: Event)
    requires Sound(w) && Enabled(w, event) && Lockable(w, event) && Emit(w, event).Terminal?
    ensures var told := Emit(w, event);
      var recorded := Recorded(LedgerAfter(w, event), told.sessionId, told.turnId);
      recorded.Some? && recorded.value.terminal == told.terminal
  {
    match event
    case Submits(_, session, turn, input, deadline, upgraded) =>
      SubmitCallKeeps(w.ledger, upgraded, session, turn, input, deadline);
    case Cancels(session, turn, upgraded) =>
      CancelCallKeeps(w.ledger, upgraded, session, turn);
    case Completes(call, proposed) =>
      var g := w.guards[call];
      CompleteKeeps(w.ledger, g.sessionId, g.turnId, g.input, proposed);
    case _ =>
  }

  lemma ToldAt(run: Run, i: nat, session: SessionId, turn: TurnId, terminal: TurnTerminal)
    requires IsRun(run) && i < |run.events| && run.outputs[i] == Terminal(session, turn, terminal)
    ensures var recorded := Recorded(LedgerAt(run, i + 1), session, turn);
      recorded.Some? && recorded.value.terminal == terminal
  {
    EveryWorldIsSound(run, i);
    assert Follows(run.worlds[i], run.events[i], run.outputs[i], run.worlds[i + 1]);
    ToldTerminalsAreRecorded(run.worlds[i], run.events[i]);
  }

  /** Every terminal ever told for a turn while its session is retained is the same one. */
  lemma WriteOnce(
    run: Run, i: nat, j: nat, session: SessionId, turn: TurnId, first: TurnTerminal, second: TurnTerminal)
    requires IsRun(run) && i <= j < |run.events| && Retained(run, session, i + 1, j + 1)
    requires run.outputs[i] == Terminal(session, turn, first)
    requires run.outputs[j] == Terminal(session, turn, second)
    ensures first == second
  {
    ToldAt(run, i, session, turn, first);
    ToldAt(run, j, session, turn, second);
    RecordsPersist(run, session, turn, i + 1, j + 1);
  }

  /**
    A resubmit: once a turn has been told, a later submit of the same turn by an admitted caller is
    answered with the recorded terminal if its input is the recorded one, and is refused otherwise;
    either way the ledger does not change.
   */
  lemma ResubmitReplays(
    run: Run, i: nat, j: nat, session: SessionId, turn: TurnId, input: string, deadlineNanos: nat)
    requires IsRun(run) && i <= j < |run.worlds| && Retained(run, session, i, j)
    requires Recorded(LedgerAt(run, i), session, turn).Some?
    requires LedgerAt(run, j).lifecycle == Running && LedgerAt(run, j).profile.Some?
    requires ValidInput(input) && ValidDeadline(deadlineNanos)
    ensures var recorded := Recorded(LedgerAt(run, i), session, turn).value;
      SubmitCall(LedgerAt(run, j), true, session, turn, input, deadlineNanos)
      == (LedgerAt(run, j),
          if input == recorded.input then Answered(recorded.terminal) else Rejected(DifferentInput))
  {
    RecordsPersist(run, session, turn, i, j);
  }

  // ------------------------------------------------------------- cancellation

  /** A promise of cancellation holds for as long as its session is retained. */
  lemma {:induction false} PromisesPersist(run: Run, session: SessionId, turn: TurnId, i: nat, j: nat)
    requires IsRun(run) && i <= j && Retained(run, session, i, j)
    requires Doomed(LedgerAt(run, i), session, turn)
    ensures Doomed(LedgerAt(run, j), session, turn)
    decreases j - i
  {
    if i < j {
      PromisesPersist(run, session, turn, i, j - 1);
      OneStepKeepsPromise(run, j - 1, session, turn);
    }
  }

  lemma RequestedIsDoomed(run: Run, i: nat, session: SessionId, turn: TurnId)
    requires IsRun(run) && i < |run.events| && run.outputs[i] == Requested(session, turn)
    ensures Doomed(LedgerAt(run, i + 1), session, turn)
  {
    EveryWorldIsSound(run, i);
    assert Follows(run.worlds[i], run.events[i], run.outputs[i], run.worlds[i + 1]);
    CancelCallKeeps(LedgerAt(run, i), run.events[i].upgraded, session, turn);
  }

  /**
    Once a cancel has answered that cancellation was requested, the only terminal that can be
    recorded for that turn, for as long as its session is retained, is `Cancelled`.
   */
  lemma CancellationIsKept(run: Run, i: nat, j: nat, session: SessionId, turn: TurnId)
    requires IsRun(run) && i < j < |run.worlds| && run.outputs[i] == Requested(session, turn)
    requires Retained(run, session, i + 1, j)
    ensures var recorded := Recorded(LedgerAt(run, j), session, turn);
      recorded.Some? ==> recorded.value.terminal == Cancelled
  {
    RequestedIsDoomed(run, i, session, turn);
    PromisesPersist(run, session, turn, i + 1, j);
  }

  /** Nor is any other terminal told for it. */
  lemma CancellationIsWhatIsTold(
    run: Run, i: nat, j: nat, session: SessionId, turn: TurnId, terminal: TurnTerminal)
    requires IsRun(run) && i < j < |run.events| && run.outputs[i] == Requested(session, turn)
    requires Retained(run, session, i + 1, j + 1)
    requires run.outputs[j] == Terminal(session, turn, terminal)
    ensures terminal == Cancelled
  {
    CancellationIsKept(run, i, j + 1, session, turn);
    ToldAt(run, j, session, turn, terminal);
  }

  /** The session of the active turn cannot be evicted. */
  lemma {:induction false} ActiveIsRetained(run: Run, session: SessionId, turn: TurnId, i: nat, j: nat)
    requires IsRun(run) && i <= j < |run.worlds|
    requires forall k :: i <= k < j ==> IsActive(LedgerAt(run, k), session, turn)
    requires session in LedgerAt(run, i).sessions
    ensures Retained(run, session, i, j)
    decreases j - i
  {
    if i < j {
      ActiveIsRetained(run, session, turn, i, j - 1);
      ActiveAt(run, j - 1, session, turn);
    }
  }

  lemma ActiveAt(run: Run, i: nat, session: SessionId, turn: TurnId)
    requires IsRun(run) && i < |run.events| && IsActive(LedgerAt(run, i), session, turn)
    ensures session in LedgerAt(run, i).sessions && session in LedgerAt(run, i + 1).sessions
    ensures || IsActive(LedgerAt(run, i + 1), session, turn)
            || Recorded(LedgerAt(run, i + 1), session, turn).Some?
  {
    var turnover := RunStep(run, i);
    ActiveStaysOrIsRecorded(run.worlds[i], run.events[i], session, turn);
  }

  /** A step leaves the active turn active or records it. */
  lemma ActiveStaysOrIsRecorded(w: World, event: Event, session: SessionId, turn: TurnId)
    requires Sound(w) && Enabled(w, event) && Lockable(w, event) && IsActive(w.ledger, session, turn)
    ensures session in LedgerAfter(w, event).sessions
    ensures IsActive(LedgerAfter(w, event), session, turn) || Recorded(LedgerAfter(w, event), session, turn).Some?
  {
    var turnover := EveryStepMoves(w, event);
    if turnover.Clears? {
      var g := w.guards[event.call];
      CompleteKeeps(w.ledger, session, turn, g.input, if event.Completes? then event.proposed else Cancelled);
    }
  }

  /** A doomed active turn stays active until it is recorded as cancelled; its session is retained meanwhile. */
  lemma DoomedActiveEndsCancelled(run: Run, i: nat, j: nat, session: SessionId, turn: TurnId)
    requires IsRun(run) && i < j < |run.worlds|
    requires Doomed(LedgerAt(run, i), session, turn)
    requires forall k :: i <= k < j ==> IsActive(LedgerAt(run, k), session, turn)
    ensures var recorded := Recorded(LedgerAt(run, j), session, turn);
      IsActive(LedgerAt(run, j), session, turn) || (recorded.Some? && recorded.value.terminal == Cancelled)
  {
    ActiveAt(run, i, session, turn);
    ActiveIsRetained(run, session, turn, i, j);
    PromisesPersist(run, session, turn, i, j);
    ActiveAt(run, j - 1, session, turn);
  }

  /** For a turn that is active when it is cancelled, the promise needs no assumption of retention. */
  lemma ActiveCancellationIsUnconditional(run: Run, i: nat, j: nat, session: SessionId, turn: TurnId)
    requires IsRun(run) && i + 1 < j < |run.worlds| && run.outputs[i] == Requested(session, turn)
    requires forall k :: i < k < j ==> IsActive(LedgerAt(run, k), session, turn)
    ensures var recorded := Recorded(LedgerAt(run, j), session, turn);
      IsActive(LedgerAt(run, j), session, turn) || (recorded.Some? && recorded.value.terminal == Cancelled)
  {
    RequestedIsDoomed(run, i, session, turn);
    DoomedActiveEndsCancelled(run, i + 1, j, session, turn);
  }

  /**
    A turn that was active at any moment without a profile ends cancelled, even if another profile
    is activated before it completes: deactivation, stop and drop cannot be undone for it.
   */
  lemma ProfileLossEndsTheTurn(run: Run, i: nat, j: nat, session: SessionId, turn: TurnId)
    requires IsRun(run) && i < j < |run.worlds| && LedgerAt(run, i).profile.None?
    requires forall k :: i <= k < j ==> IsActive(LedgerAt(run, k), session, turn)
    ensures var recorded := Recorded(LedgerAt(run, j), session, turn);
      IsActive(LedgerAt(run, j), session, turn) || (recorded.Some? && recorded.value.terminal == Cancelled)
  {
    ProfileLossDooms(run, i);
    DoomedActiveEndsCancelled(run, i, j, session, turn);
  }

  lemma ProfileLossDooms(run: Run, i: nat)
    requires IsRun(run) && i < |run.worlds| && LedgerAt(run, i).profile.None?
    ensures ActiveIsDoomed(LedgerAt(run, i))
  {
    EveryWorldIsSound(run, i);
    NoProfileDooms(LedgerAt(run, i));
  }

  // ------------------------------------------------------------------ eviction

  lemma VictimIsOldest(order: seq<SessionId>, born: map<SessionId, nat>, clock: nat, protected: Option<SessionId>)
    requires AgesOk(order, born, clock) && VictimPosition(order, protected).Some?
    ensures var victim := order[VictimPosition(order, protected).value];
      forall other :: other in born && Some(other) != protected && other != victim ==> born[victim] < born[other]
  {
    var p := VictimPosition(order, protected).value;
    forall other | other in born && Some(other) != protected && other != order[p]
      ensures born[order[p]] < born[other]
    {
      assert other in order;
      var q :| 0 <= q < |order| && order[q] == other;
    }
  }

  lemma OnlyTheVictimGoes(v: Ledger, asked: SessionId, w: Ledger, session: SessionId)
    requires MayEnsure(v, asked, w) && session in v.sessions && session !in w.sessions
    ensures |v.sessions| == MAX_SESSIONS && asked !in v.sessions
    ensures var p := VictimPosition(v.order, Protected(v)); p.Some? && v.order[p.value] == session
  {
    assert session !in w.sessions.Keys;
    assert session in v.sessions.Keys;
  }

  /**
    A session disappears only when a submit or a cancel asks for a new one while all 64 places are
    taken; it is never the session of the active turn, and every other candidate was created later.
   */
  lemma EvictionTakesTheOldest(run: Run, i: nat, session: SessionId)
    requires IsRun(run) && i < |run.events|
    requires session in LedgerAt(run, i).sessions && session !in LedgerAt(run, i + 1).sessions
    ensures (run.events[i].Submits? || run.events[i].Cancels?)
    ensures |LedgerAt(run, i).sessions| == 64 && run.events[i].sessionId !in LedgerAt(run, i).sessions
    ensures Some(session) != Protected(LedgerAt(run, i))
    ensures var born := run.worlds[i].born;
      && born.Keys == LedgerAt(run, i).sessions.Keys
      && forall other :: other in born && Some(other) != Protected(LedgerAt(run, i)) && other != session ==>
           born[session] < born[other]
  {
    EveryWorldIsSound(run, i);
    assert Follows(run.worlds[i], run.events[i], run.outputs[i], run.worlds[i + 1]);
    var w := run.worlds[i];
    EvictionStep(w, run.events[i], session);
    VictimIsOldest(w.ledger.order, w.born, w.clock, Protected(w.ledger));
  }

  lemma EvictionStep(w: World, event: Event, session: SessionId)
    requires Enabled(w, event) && Lockable(w, event)
    requires session in w.ledger.sessions && session !in LedgerAfter(w, event).sessions
    ensures (event.Submits? || event.Cancels?) && event.sessionId !in w.ledger.sessions
    ensures |w.ledger.sessions| == MAX_SESSIONS
    ensures var p := VictimPosition(w.ledger.order, Protected(w.ledger)); p.Some? && w.ledger.order[p.value] == session
  {
    OnlyEnsuresSessions(w, event);
    assert session in w.ledger.sessions.Keys && session !in LedgerAfter(w, event).sessions.Keys;
    OnlyTheVictimGoes(w.ledger, event.sessionId, LedgerAfter(w, event), session);
  }

  /** A session's age is the step that created it, and is kept while the session is retained. */
  lemma AgeIsCreationTime(run: Run, i: nat, session: SessionId)
    requires IsRun(run) && i < |run.events| && session in LedgerAt(run, i + 1).sessions
    ensures run.worlds[i].born.Keys == LedgerAt(run, i).sessions.Keys && session in run.worlds[i + 1].born
    ensures run.worlds[i + 1].born[session] ==
      if session in LedgerAt(run, i).sessions then run.worlds[i].born[session] else i
  {
    ClockCounts(run, i);
    EveryWorldIsSound(run, i);
    EveryWorldIsSound(run, i + 1);
    assert Follows(run.worlds[i], run.events[i], run.outputs[i], run.worlds[i + 1]);
    assert session in run.worlds[i + 1].born.Keys;
    AgeOf(run.worlds[i].born, LedgerAt(run, i + 1).sessions.Keys, Asked(run.events[i]), i, session);
  }

  lemma AgeOf(
    born: map<SessionId, nat>, retained: set<SessionId>, asked: Option<SessionId>, clock: nat, session: SessionId)
    requires session in Ages(born, retained, asked, clock)
    ensures Ages(born, retained, asked, clock)[session] == if session in born then born[session] else clock
  {
  }

  lemma {:induction false} ClockCounts(run: Run, i: nat)
    requires IsRun(run) && i < |run.worlds|
    ensures run.worlds[i].clock == i
  {
    if i > 0 {
      ClockCounts(run, i - 1);
      assert Follows(run.worlds[i - 1], run.events[i - 1], run.outputs[i - 1], run.worlds[i]);
    }
  }

  // -------------------------------------------------------- internal error paths

  /**
    The error paths that guard the joint invariant are dead: `complete` always owns its turn, a
    dropped guard always clears it, and a session can always be evicted.
   */
  lemma InternalErrorsAreUnreachable(run: Run, i: nat)
    requires IsRun(run) && i < |run.events|
    ensures Lockable(run.worlds[i], run.events[i])
    ensures run.events[i].Completes? ==> run.outputs[i].Terminal?
    ensures run.events[i].DropsGuard? ==> run.worlds[i + 1].guards == map[] && run.worlds[i + 1].ledger.active == None
    ensures run.events[i].Submits? ==>
      var e := run.events[i];
      SubmitCall(LedgerAt(run, i), e.upgraded, e.sessionId, e.turnId, e.input, e.deadlineNanos).1
        != Rejected(NoEvictableSession)
    ensures run.events[i].Cancels? ==>
      var e := run.events[i];
      CancelCall(LedgerAt(run, i), e.upgraded, e.sessionId, e.turnId).1 != Err(NoEvictableSession)
  {
    var turnover := RunStep(run, i);
    var w, e := run.worlds[i], run.events[i];
    match e
    case Submits(_, session, turn, input, deadline, upgraded) =>
      SubmitCallKeeps(w.ledger, upgraded, session, turn, input, deadline);
    case Cancels(session, turn, upgraded) => CancelCallKeeps(w.ledger, upgraded, session, turn);
    case _ =>
  }

  /** A submit rejected before admission, and a cancel that fails, leave the ledger and the guards as they were. */
  lemma FailuresChangeNothing(run: Run, i: nat)
    requires IsRun(run) && i < |run.events|
    ensures run.events[i].Submits? ==>
      var e := run.events[i];
      SubmitCall(LedgerAt(run, i), e.upgraded, e.sessionId, e.turnId, e.input, e.deadlineNanos).1.Rejected? ==>
      LedgerAt(run, i + 1) == LedgerAt(run, i) && run.worlds[i + 1].guards == run.worlds[i].guards
    ensures run.events[i].Cancels? ==>
      var e := run.events[i];
      CancelCall(LedgerAt(run, i), e.upgraded, e.sessionId, e.turnId).1.Err? ==>
      LedgerAt(run, i + 1) == LedgerAt(run, i) && run.worlds[i + 1].guards == run.worlds[i].guards
  {
    var turnover := RunStep(run, i);
    var w, e := run.worlds[i], run.events[i];
    match e
    case Submits(_, session, turn, input, deadline, upgraded) =>
      SubmitCallKeeps(w.ledger, upgraded, session, turn, input, deadline);
    case Cancels(session, turn, upgraded) => CancelCallKeeps(w.ledger, upgraded, session, turn);
    case _ =>
  }

  // ------------------------------------------------------------ waiting for idle

  /**
    No wakeup is lost: once no guard is armed and no notification is outstanding, every sleeping
    stop or deactivate call has been woken.
   */
  lemma NoWakeupIsLost(run: Run, i: nat, waiter: nat)
    requires IsRun(run) && i < |run.worlds|
    requires run.worlds[i].guards == map[] && run.worlds[i].unnotified == {}
    requires waiter in run.worlds[i].waiters && run.worlds[i].waiters[waiter].phase.Asleep?
    ensures Enabled(run.worlds[i], Wakes(waiter))
  {
    EveryWorldIsSound(run, i);
    assert run.worlds[i].ledger.active.None?;
  }

  // ------------------------------------------------------------------ shutdown

  /** The service has stopped and nothing is in progress. */
  ghost predicate Closed(w: World) {
    w.ledger.lifecycle == Stopped && w.ledger.active.None? && w.ledger.profile.None? && w.guards == map[]
  }

  lemma StopClosesTheService(w: World, event: Event)
    requires Sound(w) && Enabled(w, event) && Lockable(w, event) && Emit(w, event) == StopReturned
    ensures Closed(Step(w, event))
  {
  }

  lemma ClosedIsFinal(w: World, event: Event)
    requires Closed(w) && Enabled(w, event) && Lockable(w, event)
    ensures LedgerAfter(w, event) == w.ledger && Closed(Step(w, event))
  {
  }

  lemma {:induction false} ClosedForGood(run: Run, i: nat, j: nat)
    requires IsRun(run) && i <= j < |run.worlds| && Closed(run.worlds[i])
    ensures LedgerAt(run, j) == LedgerAt(run, i) && Closed(run.worlds[j])
    decreases j - i
  {
    if i < j {
      ClosedForGood(run, i, j - 1);
      assert Follows(run.worlds[j - 1], run.events[j - 1], run.outputs[j - 1], run.worlds[j]);
      ClosedIsFinal(run.worlds[j - 1], run.events[j - 1]);
    }
  }

  /** When a stop call returns there is no active turn, and nothing ever changes the ledger again. */
  lemma ShutdownIsFinal(run: Run, i: nat, j: nat)
    requires IsRun(run) && i < j < |run.worlds| && run.outputs[i] == StopReturned
    ensures LedgerAt(run, i + 1).active.None? && LedgerAt(run, i + 1).lifecycle == Stopped
    ensures LedgerAt(run, j) == LedgerAt(run, i + 1)
  {
    var turnover := RunStep(run, i);
    StopClosesTheService(run.worlds[i], run.events[i]);
    ClosedForGood(run, i + 1, j);
  }

  /** The lifecycle only moves forward. */
  lemma {:induction false} LifecycleMovesForward(run: Run, i: nat, j: nat)
    requires IsRun(run) && i <= j < |run.worlds|
    ensures Rank(LedgerAt(run, i).lifecycle) <= Rank(LedgerAt(run, j).lifecycle)
    decreases j - i
  {
    if i < j {
      LifecycleMovesForward(run, i, j - 1);
      LifecycleStep(run, j - 1);
    }
  }

  lemma LifecycleStep(run: Run, i: nat)
    requires IsRun(run) && i < |run.events|
    ensures Rank(LedgerAt(run, i).lifecycle) <= Rank(LedgerAt(run, i + 1).lifecycle)
  {
    var turnover := RunStep(run, i);
  }

  // ------------------------------------------------------------- stops finish

  /** How far a stop call is from returning, from its own phase and what is still in progress. */
  function PhaseDistance(phase: Phase, notified: nat): (n: nat) {
    match phase
    case SawIdle => 0
    case Asleep(since) => if since < notified then 4 else 1
    case Looping => 3
    case Registered(since) => if since < notified then 5 else 2
  }

  /** The work that a stop call may have to wait for. */
  function InProgress(guards: map<nat, Guard>, unnotified: set<nat>): (n: nat) {
    2 * |guards| + |unnotified|
  }

  function Distance(w: World, waiter: nat): (n: nat)
    requires waiter in w.waiters
  {
    4 * InProgress(w.guards, w.unnotified) + PhaseDistance(w.waiters[waiter].phase, w.notified)
  }

  predicate EndsWork(event: Event) {
    event.Completes? || event.DropsGuard? || event.Notifies?
  }

  /** The steps the program takes by itself: a turn ends, a notification is sent, the stop call goes on. */
  predicate IsProgress(event: Event, waiter: nat) {
    || EndsWork(event)
    || event in {Registers(waiter), Checks(waiter), Wakes(waiter), FinishesStop(waiter)}
  }

  /** A stop call that has begun and is waiting. */
  ghost predicate WaitsToStop(w: World, waiter: nat) {
    waiter in w.waiters && w.waiters[waiter].kind == ForStop
  }

  lemma RemovalShrinks(guards: map<nat, Guard>, unnotified: set<nat>, call: nat)
    requires call in guards
    ensures InProgress(guards - {call}, unnotified + {call}) < InProgress(guards, unnotified)
  {
    assert (guards - {call}).Keys == guards.Keys - {call};
    assert |guards.Keys - {call}| == |guards.Keys| - 1;
    assert |unnotified + {call}| <= |unnotified| + 1;
  }

  /** Once the service is stopping, every step leaves the same work or less. */
  lemma WorkShrinks(w: World, event: Event, turnover: Turnover)
    requires Enabled(w, event) && Lockable(w, event) && Rank(w.ledger.lifecycle) >= 2
    requires Turns(w, LedgerAfter(w, event), GuardsAfter(w, event), UnnotifiedAfter(w, event), turnover)
    requires event.Completes? || event.DropsGuard? ==> turnover == Clears(event.call)
    ensures var before, after :=
        InProgress(w.guards, w.unnotified), InProgress(GuardsAfter(w, event), UnnotifiedAfter(w, event));
      if EndsWork(event) then after < before else after == before
  {
    if event.Completes? || event.DropsGuard? {
      RemovalShrinks(w.guards, w.unnotified, event.call);
      assert UnnotifiedAfter(w, event) <= w.unnotified + {event.call};
    }
  }

  /** The phase of a stop call moves toward the end, unless a notification sends it round the loop once more. */
  lemma PhaseMoves(w: World, event: Event, waiter: nat)
    requires Enabled(w, event) && WaitsToStop(w, waiter) && waiter in WaitersAfter(w, event)
    ensures var before, after :=
        PhaseDistance(w.waiters[waiter].phase, w.notified),
        PhaseDistance(
          WaitersAfter(w, event)[waiter].phase, w.notified + if event.Notifies? then 1 else 0);
      if event.Notifies? then after <= before + 3
      else if IsProgress(event, waiter) && !EndsWork(event) then after < before
      else after == before
    ensures WaitersAfter(w, event)[waiter].kind == ForStop
  {
  }

  lemma StoppingWorkShrinks(w: World, event: Event)
    requires Coherent(w.ledger) && GuardsOk(w.ledger.active, w.guards)
    requires Enabled(w, event) && Lockable(w, event) && Rank(w.ledger.lifecycle) >= 2
    ensures var before, after :=
        InProgress(w.guards, w.unnotified), InProgress(GuardsAfter(w, event), UnnotifiedAfter(w, event));
      if EndsWork(event) then after < before else after == before
  {
    var turnover: Turnover;
    if event.Submits? {
      turnover := SubmitMoves(w, event);
    } else if event.Completes? || event.DropsGuard? {
      turnover := CompletionMoves(w, event);
    } else if event.Cancels? {
      turnover := CancelMoves(w, event);
    } else {
      turnover := ControlMoves(w, event);
    }
    WorkShrinks(w, event, turnover);
  }

  /** While a stop call waits, no step takes it farther from its end, and the program's own steps bring it nearer. */
  lemma StopCallsApproachTheirEnd(w: World, event: Event, waiter: nat)
    requires Sound(w) && Enabled(w, event) && Lockable(w, event) && WaitsToStop(w, waiter)
    requires waiter in Step(w, event).waiters
    ensures WaitsToStop(Step(w, event), waiter)
    ensures Distance(Step(w, event), waiter) <= Distance(w, waiter)
    ensures IsProgress(event, waiter) ==> Distance(Step(w, event), waiter) < Distance(w, waiter)
  {
    StoppingWorkShrinks(w, event);
    PhaseMoves(w, event, waiter);
  }

  /** A stop call that has not returned can always go on, or somebody it waits for can. */
  lemma StopIsNeverStuck(w: World, waiter: nat) returns (event: Event)
    requires Sound(w) && WaitsToStop(w, waiter)
    ensures IsProgress(event, waiter) && Enabled(w, event)
  {
    match w.waiters[waiter].phase
    case Looping => event := Registers(waiter);
    case Registered(_) => event := Checks(waiter);
    case SawIdle => event := FinishesStop(waiter);
    case Asleep(since) =>
      if since < w.notified {
        event := Wakes(waiter);
      } else if w.ledger.active.Some? {
        var call :| call in w.guards;
        event := DropsGuard(call);
      } else {
        var call :| call in w.unnotified;
        event := Notifies(call);
      }
  }

  /** How many of some events are steps of the program itself. */
  function ProgressCount(events: seq<Event>, waiter: nat): (n: nat) {
    if events == [] then 0
    else
      var last := |events| - 1;
      ProgressCount(events[..last], waiter) + if IsProgress(events[last], waiter) then 1 else 0
  }

  /** A step after which a stop call is still waiting, but nearer its end if the program took it. */
  ghost predicate Approaches(w: World, event: Event, r: World, waiter: nat) {
    && WaitsToStop(w, waiter) && WaitsToStop(r, waiter)
    && Distance(r, waiter) + (if IsProgress(event, waiter) then 1 else 0) <= Distance(w, waiter)
  }

  lemma StopStep(run: Run, i: nat, waiter: nat)
    requires IsRun(run) && i < |run.events|
    requires WaitsToStop(run.worlds[i], waiter) && waiter in run.worlds[i + 1].waiters
    ensures Approaches(run.worlds[i], run.events[i], run.worlds[i + 1], waiter)
  {
    var turnover := RunStep(run, i);
    StopCallsApproachTheirEnd(run.worlds[i], run.events[i], waiter);
  }

  lemma {:induction false} StopKeepsWaiting(run: Run, i: nat, j: nat, waiter: nat)
    requires IsRun(run) && i <= j < |run.worlds| && WaitsToStop(run.worlds[i], waiter)
    requires forall k :: i <= k <= j ==> waiter in run.worlds[k].waiters
    ensures WaitsToStop(run.worlds[j], waiter)
    decreases j - i
  {
    if i < j {
      StopKeepsWaiting(run, i, j - 1, waiter);
      StopStep(run, j - 1, waiter);
    }
  }

  lemma {:induction false} ProgressIsBounded(run: Run, i: nat, j: nat, waiter: nat)
    requires i <= j <= |run.events| < |run.worlds|
    requires WaitsToStop(run.worlds[i], waiter)
    requires forall k {:trigger run.events[k]} :: i <= k < j ==>
      Approaches(run.worlds[k], run.events[k], run.worlds[k + 1], waiter)
    ensures WaitsToStop(run.worlds[j], waiter)
    ensures ProgressCount(run.events[i..j], waiter) + Distance(run.worlds[j], waiter) <= Distance(run.worlds[i], waiter)
    decreases j - i
  {
    if i < j {
      ProgressIsBounded(run, i, j - 1, waiter);
      CountOneMore(run.events, i, j, waiter);
      assert Approaches(run.worlds[j - 1], run.events[j - 1], run.worlds[j], waiter);
    }
  }

  /** The program takes at most a bounded number of steps before a stop call returns, whatever callers do meanwhile. */
  lemma StopReturnsWithinBound(run: Run, i: nat, j: nat, waiter: nat)
    requires IsRun(run) && i <= j < |run.worlds| && WaitsToStop(run.worlds[i], waiter)
    requires forall k :: i <= k <= j ==> waiter in run.worlds[k].waiters
    ensures ProgressCount(run.events[i..j], waiter) <= Distance(run.worlds[i], waiter)
  {
    forall k | i <= k < j ensures Approaches(run.worlds[k], run.events[k], run.worlds[k + 1], waiter) {
      StopKeepsWaiting(run, i, k, waiter);
      StopStep(run, k, waiter);
    }
    ProgressIsBounded(run, i, j, waiter);
  }

  lemma CountOneMore(events: seq<Event>, i: nat, j: nat, waiter: nat)
    requires i < j <= |events|
    ensures ProgressCount(events[i..j], waiter)
      == ProgressCount(events[i..j - 1], waiter) + if IsProgress(events[j - 1], waiter) then 1 else 0
  {
    assert events[i..j][..j - 1 - i] == events[i..j - 1];
  }

  // -------------------------------------------------------------- wire bounds

  /** Completions propose what `wire_safe_terminal` makes of a provider's outcome. */
  ghost predicate BoundedForWire(w: World, event: Event) {
    event.Completes? && event.call in w.guards ==>
      var g := w.guards[event.call];
      exists raw :: event.proposed == WireSafe(g.sessionId, g.turnId, raw)
  }

  ghost predicate IsBoundedRun(run: Run) {
    && IsRun(run)
    && forall i {:trigger run.events[i]} :: 0 <= i < |run.events| ==> BoundedForWire(run.worlds[i], run.events[i])
  }

  ghost predicate CleanRecord(session: SessionId, turn: CompletedTurn) {
    FitsWire(session, turn.turnId, turn.terminal) && ValidInput(turn.input)
  }

  ghost predicate CleanTurns(session: SessionId, turns: seq<CompletedTurn>) {
    forall k :: 0 <= k < |turns| ==> CleanRecord(session, turns[k])
  }

  /** A context built for an admitted input from a history of admitted inputs. */
  ghost predicate WellBuilt(context: ModelContext, input: string) {
    && ValidInput(input)
    && exists prompt, turns :: ValidInputs(turns) && context == Projection(prompt, turns, input)
  }

  ghost predicate Clean(w: World) {
    && (forall s :: s in w.ledger.sessions ==> CleanTurns(s, w.ledger.sessions[s].turns))
    && (forall call :: call in w.guards ==> WellBuilt(w.guards[call].context, w.guards[call].input))
  }

  lemma AppendsClean(v: Ledger, w: Ledger, record: Option<Record>)
    requires Appends(v, w, record)
    requires forall s :: s in v.sessions ==> CleanTurns(s, v.sessions[s].turns)
    requires record.Some? ==> CleanRecord(record.value.session, record.value.turn)
    ensures forall s :: s in w.sessions ==> CleanTurns(s, w.sessions[s].turns)
  {
    forall s | s in w.sessions ensures CleanTurns(s, w.sessions[s].turns) {
      assert CleanTurns(s, TurnsOf(v, s));
    }
  }

  lemma FreshAnswersHaveNoContent(v: Ledger, session: SessionId, turn: TurnId, input: string)
    requires Recorded(v, session, turn).None?
    ensures var outcome := Submit(v, session, turn, input).1;
      outcome.Answered? ==> outcome.terminal == Cancelled || outcome.terminal.Failed?
  {
  }

  lemma SubmitsRecordClean(v: Ledger, owned: bool, session: SessionId, turn: TurnId, input: string, deadline: nat)
    ensures var outcome := SubmitCall(v, owned, session, turn, input, deadline).1;
      var record := SubmitRecord(v, outcome, session, turn, input);
      record.Some? ==> CleanRecord(session, record.value.turn)
  {
    var outcome := SubmitCall(v, owned, session, turn, input, deadline).1;
    if SubmitRecord(v, outcome, session, turn, input).Some? {
      FreshAnswersHaveNoContent(v, session, turn, input);
      SmallTerminalsFit(session, turn, outcome.terminal);
    }
  }

  lemma CleanInputs(session: SessionId, turns: seq<CompletedTurn>)
    requires CleanTurns(session, turns)
    ensures ValidInputs(turns)
  {
    forall k | 0 <= k < |turns| ensures ValidInput(turns[k].input) {
      assert CleanRecord(session, turns[k]);
    }
  }

  lemma ContextIsWellBuilt(prompt: string, turns: seq<CompletedTurn>, input: string, context: ModelContext)
    requires ValidInputs(turns) && ValidInput(input) && ContextOf(prompt, turns, input) == Ok(context)
    ensures WellBuilt(context, input)
  {
    assert context == Projection(prompt, turns, input);
  }

  lemma AdmittedContextIsWellBuilt(
    v: Ledger, owned: bool, session: SessionId, turn: TurnId, input: string, deadline: nat)
    requires Coherent(v) && (session in v.sessions ==> CleanTurns(session, v.sessions[session].turns))
    ensures var outcome := SubmitCall(v, owned, session, turn, input, deadline).1;
      outcome.Admitted? ==> WellBuilt(outcome.context, input)
  {
    var outcome := SubmitCall(v, owned, session, turn, input, deadline).1;
    if outcome.Admitted? {
      SubmitCallKeeps(v, owned, session, turn, input, deadline);
      CleanInputs(session, TurnsOf(v, session));
      ContextIsWellBuilt(v.profile.value.systemPrompt, TurnsOf(v, session), input, outcome.context);
    }
  }

  lemma CompletionRecordsClean(w: World, event: Event)
    requires Sound(w) && Enabled(w, event) && Lockable(w, event) && (event.Completes? || event.DropsGuard?)
    requires WellBuilt(w.guards[event.call].context, w.guards[event.call].input) && BoundedForWire(w, event)
    requires RecordOf(w, event).Some?
    ensures CleanRecord(RecordOf(w, event).value.session, RecordOf(w, event).value.turn)
  {
    var g := w.guards[event.call];
    SmallTerminalsFit(g.sessionId, g.turnId, Cancelled);
    if event.Completes? {
      var raw :| event.proposed == WireSafe(g.sessionId, g.turnId, raw);
      WireSafeFits(g.sessionId, g.turnId, raw);
    }
  }

  lemma StepKeepsRecordsClean(w: World, event: Event)
    requires Sound(w) && Clean(w) && Enabled(w, event) && Lockable(w, event) && BoundedForWire(w, event)
    ensures forall s :: s in LedgerAfter(w, event).sessions ==> CleanTurns(s, LedgerAfter(w, event).sessions[s].turns)
  {
    var turnover := EveryStepMoves(w, event);
    var record := RecordOf(w, event);
    if event.Submits? {
      SubmitsRecordClean(w.ledger, event.upgraded, event.sessionId, event.turnId, event.input, event.deadlineNanos);
    } else if record.Some? {
      CompletionRecordsClean(w, event);
    }
    AppendsClean(w.ledger, LedgerAfter(w, event), record);
  }

  lemma StepKeepsGuardsWellBuilt(w: World, event: Event)
    requires Coherent(w.ledger) && Clean(w) && Enabled(w, event) && Lockable(w, event)
    ensures var guards := GuardsAfter(w, event);
      forall call :: call in guards ==> WellBuilt(guards[call].context, guards[call].input)
  {
    if event.Submits? {
      AdmittedContextIsWellBuilt(
        w.ledger, event.upgraded, event.sessionId, event.turnId, event.input, event.deadlineNanos);
    }
  }

  ghost predicate CleanAt(run: Run, i: nat) {
    i < |run.worlds| && Clean(run.worlds[i])
  }

  lemma CleanAtFirst(run: Run)
    requires IsBoundedRun(run)
    ensures CleanAt(run, 0)
  {
  }

  lemma CleanStep(run: Run, i: nat)
    requires IsBoundedRun(run) && 0 < i < |run.worlds| && CleanAt(run, i - 1)
    ensures CleanAt(run, i)
  {
    var w, event := run.worlds[i - 1], run.events[i - 1];
    EveryWorldIsSound(run, i - 1);
    assert BoundedForWire(w, event) && Follows(w, event, run.outputs[i - 1], run.worlds[i]);
    StepKeepsClean(w, event, run.outputs[i - 1], run.worlds[i]);
  }

  lemma EveryWorldIsClean(run: Run, i: nat)
    requires IsBoundedRun(run) && i < |run.worlds|
    ensures CleanAt(run, i)
  {
    CleanAtFirst(run);
    for k := 0 to i
      invariant CleanAt(run, k)
    {
      CleanStep(run, k + 1);
    }
  }

  lemma StepKeepsClean(w: World, event: Event, output: Output, r: World)
    requires Sound(w) && Clean(w) && Follows(w, event, output, r) && BoundedForWire(w, event)
    ensures Clean(r)
  {
    StepKeepsRecordsClean(w, event);
    StepKeepsGuardsWellBuilt(w, event);
  }

  /** Every stored terminal fits the three messages in which it may travel. */
  lemma EveryStoredTerminalFits(run: Run, i: nat, session: SessionId, k: nat)
    requires IsBoundedRun(run) && i < |run.worlds|
    requires session in LedgerAt(run, i).sessions && k < |LedgerAt(run, i).sessions[session].turns|
    ensures var turn := LedgerAt(run, i).sessions[session].turns[k];
      && ByteLen(TurnResponseJson(session, turn.turnId, turn.terminal)) <= 61440
      && ByteLen(CancelResponseJson(session, turn.turnId, turn.terminal)) <= 65536
      && ByteLen(TerminalFrameJson(session, turn.turnId, turn.terminal)) <= 65536
  {
    EveryWorldIsClean(run, i);
    var turn := LedgerAt(run, i).sessions[session].turns[k];
    assert CleanTurns(session, LedgerAt(run, i).sessions[session].turns);
    assert CleanRecord(session, turn);
    StoredTerminalFitsEverywhere(session, turn.turnId, turn.terminal);
  }

  /** Whatever either provider can reply to an admitted turn is stored as it is. */
  lemma EveryReplyIsStoredUnchanged(run: Run, i: nat, call: nat, provider: Provider, content: string)
    requires IsBoundedRun(run) && i < |run.worlds| && call in run.worlds[i].guards
    requires CanReply(provider, run.worlds[i].guards[call].context, content)
    ensures var g := run.worlds[i].guards[call];
      WireSafe(g.sessionId, g.turnId, Final(content)) == Final(content)
  {
    EveryWorldIsClean(run, i);
    var g := run.worlds[i].guards[call];
    assert WellBuilt(g.context, g.input);
    var prompt, turns :| ValidInputs(turns) && g.context == Projection(prompt, turns, g.input);
    EveryReplyIsWireSafe(provider, g.sessionId, g.turnId, prompt, turns, g.input, content);
  }

  /**
    The deterministic provider's reply to an admitted turn quotes the input of the latest turn of
    that session that ended in `Final` when it was admitted, and of no other turn.
   */
  lemma AdmittedReplyQuotesHistory(run: Run, i: nat, call: nat)
    requires IsRun(run) && i < |run.events|
    requires call in run.worlds[i + 1].guards && call !in run.worlds[i].guards
    ensures var g := run.worlds[i + 1].guards[call];
      var latest := LatestFinal(TurnsOf(LedgerAt(run, i), g.sessionId));
      && UserInputsReversed(g.context) != []
      && DeterministicFinal(g.context)
         == (if latest.Some? then "previous: " + latest.value.input + "; " else "") + ("current: " + g.input)
  {
    EveryWorldIsSound(run, i);
    assert Follows(run.worlds[i], run.events[i], run.outputs[i], run.worlds[i + 1]);
    NewGuardsHaveTheirContext(run.worlds[i], run.events[i], call);
    var v, g := LedgerAt(run, i), run.worlds[i + 1].guards[call];
    ReplyQuotesLatestFinal(v.profile.value.systemPrompt, TurnsOf(v, g.sessionId), g.input);
  }

  /** The guard of a newly admitted turn holds the projection of its session's history. */
  lemma NewGuardsHaveTheirContext(w: World, event: Event, call: nat)
    requires Coherent(w.ledger) && Enabled(w, event) && Lockable(w, event)
    requires call in GuardsAfter(w, event) && call !in w.guards
    ensures var g := GuardsAfter(w, event)[call];
      && w.ledger.profile.Some?
      && g.context == Projection(w.ledger.profile.value.systemPrompt, TurnsOf(w.ledger, g.sessionId), g.input)
  {
    if event.Submits? {
      SubmitCallKeeps(
        w.ledger, event.upgraded, event.sessionId, event.turnId, event.input, event.deadlineNanos);
    }
  }

  // --------------------------------------------------- what the events of a run are

  /** Every event runs its own locked region, and no other event touches the ledger. */
  lemma EventsAreTheirRegions(run: Run, i: nat)
    requires IsRun(run) && i < |run.events|
    ensures var v, w := LedgerAt(run, i), LedgerAt(run, i + 1);
      match run.events[i]
      case Submits(_, session, turn, input, deadline, upgraded) =>
        w == SubmitCall(v, upgraded, session, turn, input, deadline).0
      case Cancels(session, turn, upgraded) => w == CancelCall(v, upgraded, session, turn).0
      case Activates(matches, profile, upgraded) => w == ActivateCall(v, upgraded, matches, profile).0
      case Deactivates(_, card, upgraded) => w == DeactivateCall(v, upgraded, card).0
      case Starts => w == Start(v).0
      case BeginsStop(_) => w == StopBegin(v).0
      case FinishesStop(_) => w == StopFinish(v)
      case DropsService => w == DropService(v)
      case Completes(call, proposed) => call in run.worlds[i].guards
      case DropsGuard(call) => call in run.worlds[i].guards
      case _ => w == v
  {
    assert Follows(run.worlds[i], run.events[i], run.outputs[i], run.worlds[i + 1]);
  }

  /** A completion records the proposal unless the turn was flagged; a dropped guard records `Cancelled`. */
  lemma CompletionsRecord(run: Run, i: nat)
    requires IsRun(run) && i < |run.events| && (run.events[i].Completes? || run.events[i].DropsGuard?)
    ensures var v, event := LedgerAt(run, i), run.events[i];
      && event.call in run.worlds[i].guards && v.active.Some?
      && var g := run.worlds[i].guards[event.call];
         var terminal :=
           if event.Completes? && !v.active.value.cancelled then event.proposed else Cancelled;
         && v.active.value.sessionId == g.sessionId && v.active.value.turnId == g.turnId
         && LedgerAt(run, i + 1).active == None && run.worlds[i + 1].guards == map[]
         && Recorded(LedgerAt(run, i + 1), g.sessionId, g.turnId)
            == Some(CompletedTurn(g.turnId, g.input, terminal))
         && (event.Completes? ==> run.outputs[i] == Terminal(g.sessionId, g.turnId, terminal))
  {
    EveryWorldIsSound(run, i);
    var w, event := run.worlds[i], run.events[i];
    assert Follows(w, event, run.outputs[i], run.worlds[i + 1]);
    var g := w.guards[event.call];
    var turnover := CompletionMoves(w, event);
    CompleteKeeps(w.ledger, g.sessionId, g.turnId, g.input, if event.Completes? then event.proposed else Cancelled);
    TheOnlyGuard(w, event.call);
  }

  lemma TheOnlyGuard(w: World, call: nat)
    requires GuardsOk(w.ledger.active, w.guards) && call in w.guards
    ensures w.guards - {call} == map[]
  {
  }

  /** A stop or deactivate call that must wait begins to wait; a deactivate call returns only over an idle ledger. */
  lemma WaitersBeginAndEnd(run: Run, i: nat)
    requires IsRun(run) && i < |run.events|
    ensures run.events[i].BeginsStop? && LedgerAt(run, i).lifecycle in {Running, Lifecycle.Stopping} ==>
      var id := run.events[i].waiter;
      id in run.worlds[i + 1].waiters && run.worlds[i + 1].waiters[id] == Waiter(ForStop, Looping)
    ensures run.events[i].BeginsStop? && LedgerAt(run, i).lifecycle !in {Running, Lifecycle.Stopping} ==>
      run.outputs[i] == StopReturned
    ensures run.events[i].Deactivates? && DeactivateCall(
        LedgerAt(run, i), run.events[i].upgraded, run.events[i].cardInstanceId).1 == MustWait ==>
      var id := run.events[i].waiter;
      id in run.worlds[i + 1].waiters && run.worlds[i + 1].waiters[id] == Waiter(ForDeactivate, Looping)
    ensures run.outputs[i] == DeactivateReturned ==>
      run.events[i].Checks? && LedgerAt(run, i).active.None? && run.events[i].waiter !in run.worlds[i + 1].waiters
    ensures run.events[i].FinishesStop? ==>
      run.outputs[i] == StopReturned && run.events[i].waiter !in run.worlds[i + 1].waiters
  {
    assert Follows(run.worlds[i], run.events[i], run.outputs[i], run.worlds[i + 1]);
  }

  /** In every world of every run: at most 64 sessions, and at most 32 turns of any kind in each. */
  lemma CapacityIsNeverExceeded(run: Run, i: nat, session: SessionId)
    requires IsRun(run) && i < |run.worlds| && session in LedgerAt(run, i).sessions
    ensures |LedgerAt(run, i).sessions| <= 64
    ensures var v := LedgerAt(run, i);
      |v.sessions[session].turns| + |v.sessions[session].pending|
      + (if v.active.Some? && v.active.value.sessionId == session then 1 else 0) <= 32
  {
    EveryWorldIsSound(run, i);
    CapacityIsKept(LedgerAt(run, i), session);
  }

  /** The context of a newly admitted turn, message by message. */
  lemma AdmittedContextIsHistory(run: Run, i: nat, call: nat)
    requires IsRun(run) && i < |run.events|
    requires call in run.worlds[i + 1].guards && call !in run.worlds[i].guards
    ensures var v, g := LedgerAt(run, i), run.worlds[i + 1].guards[call];
      && v.profile.Some?
      && IsContextOf(g.context, v.profile.value.systemPrompt, Finals(TurnsOf(v, g.sessionId)), g.input)
  {
    EveryWorldIsSound(run, i);
    assert Follows(run.worlds[i], run.events[i], run.outputs[i], run.worlds[i + 1]);
    NewGuardsHaveTheirContext(run.worlds[i], run.events[i], call);
    var v, g := LedgerAt(run, i), run.worlds[i + 1].guards[call];
    ProjectionByIndex(v.profile.value.systemPrompt, TurnsOf(v, g.sessionId), g.input);
  }
}
