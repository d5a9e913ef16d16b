/**
  Runs of the Agent service that callers can bring about: a turn is served, a turn is cancelled
  before it is submitted, and a stop waits for the turn that it cancels.
 */
module AgentScenarios {
  import opened Wrappers
  import opened Text
  import opened AgentTypes
  import opened AgentContext
  import opened AgentLedger
  import opened AgentRuns
  import opened AgentLaws

  /** A turn that nothing prevents from being admitted first. */
  datatype Request = Request(
    profile: Profile, call: nat, sessionId: SessionId, turnId: TurnId, input: string, deadlineNanos: nat)

  ghost predicate Admissible(q: Request) {
    && ValidInput(q.input) && 0 < q.deadlineNanos <= 60_000_000_000
    && ByteLen(q.profile.systemPrompt) + ByteLen(q.input) <= 262144
  }

  function SubmitOf(q: Request): (event: Event) {
    Submits(q.call, q.sessionId, q.turnId, q.input, q.deadlineNanos, true)
  }

  /** A service with no session and nothing in progress. */
  ghost predicate IsFresh(w: World, lifecycle: Lifecycle, profile: Option<Profile>) {
    && w.ledger == Ledger(lifecycle, profile, map[], [], None)
    && w.owned && w.guards == map[] && w.unnotified == {} && w.waiters == map[] && w.notified == 0
  }

  /** The turn of a request is active, with its guard armed, beside some waiting calls. */
  ghost predicate IsServing(w: World, q: Request, lifecycle: Lifecycle, cancelled: bool, waiters: map<nat, Waiter>) {
    && w.ledger.lifecycle == lifecycle && w.owned && w.unnotified == {} && w.waiters == waiters && w.notified == 0
    && w.ledger.active == Some(ActiveTurn(q.sessionId, q.turnId, cancelled))
    && w.guards.Keys == {q.call}
    && w.guards[q.call].sessionId == q.sessionId && w.guards[q.call].turnId == q.turnId
  }

  /** The turn of a request is over. */
  ghost predicate IsServed(
    w: World, q: Request, lifecycle: Lifecycle, unnotified: set<nat>, waiters: map<nat, Waiter>, notified: nat) {
    && w.ledger.lifecycle == lifecycle && w.ledger.active == None && w.notified == notified
    && w.owned && w.guards == map[] && w.unnotified == unnotified && w.waiters == waiters
  }

  lemma FirstContext(q: Request)
    requires Admissible(q)
    ensures ContextOf(q.profile.systemPrompt, [], q.input).Ok?
  {
    var messages := Projection(q.profile.systemPrompt, [], q.input);
    assert messages == [ModelMessage(System, q.profile.systemPrompt)] + [ModelMessage(User, q.input)];
    ContextBytesAppend([ModelMessage(System, q.profile.systemPrompt)], [ModelMessage(User, q.input)]);
  }

  lemma Started(w: World)
    requires Sound(w) && IsFresh(w, Lifecycle.Created, None)
    ensures Follows(w, Starts, Nothing, Step(w, Starts))
    ensures Sound(Step(w, Starts)) && IsFresh(Step(w, Starts), Running, None)
  {
    StepKeepsSound(w, Starts);
  }

  lemma Activated(w: World, profile: Profile)
    requires Sound(w) && IsFresh(w, Running, None)
    ensures var e := Activates(true, profile, true);
      Follows(w, e, Nothing, Step(w, e)) && Sound(Step(w, e)) && IsFresh(Step(w, e), Running, Some(profile))
  {
    StepKeepsSound(w, Activates(true, profile, true));
  }

  lemma Admits(w: World, q: Request)
    requires Sound(w) && IsFresh(w, Running, Some(q.profile)) && Admissible(q)
    ensures var e := SubmitOf(q);
      Follows(w, e, Nothing, Step(w, e)) && Sound(Step(w, e)) && IsServing(Step(w, e), q, Running, false, map[])
  {
    var e := SubmitOf(q);
    FirstSubmit(w.ledger, q);
    AdmissionArms(w, e);
    Take(w, e);
  }

  lemma FirstSubmit(v: Ledger, q: Request)
    requires Coherent(v) && v == Ledger(Running, Some(q.profile), map[], [], None) && Admissible(q)
    ensures var (w, outcome) := SubmitCall(v, true, q.sessionId, q.turnId, q.input, q.deadlineNanos);
      && outcome.Admitted? && w.lifecycle == Running && w.active == Some(ActiveTurn(q.sessionId, q.turnId, false))
  {
    FirstContext(q);
    AdmissionIsExact(v, q.sessionId, q.turnId, q.input);
    SubmitCallKeeps(v, true, q.sessionId, q.turnId, q.input, q.deadlineNanos);
    SubmitCallIsExact(v, true, q.sessionId, q.turnId, q.input, q.deadlineNanos);
  }

  lemma AdmissionArms(w: World, e: Event)
    requires e.Submits? && Enabled(w, e)
    requires SubmitCall(w.ledger, e.upgraded, e.sessionId, e.turnId, e.input, e.deadlineNanos).1.Admitted?
    ensures GuardsAfter(w, e).Keys == w.guards.Keys + {e.call}
    ensures GuardsAfter(w, e)[e.call].sessionId == e.sessionId && GuardsAfter(w, e)[e.call].turnId == e.turnId
    ensures UnnotifiedAfter(w, e) == w.unnotified && WaitersAfter(w, e) == w.waiters && Emit(w, e) == Nothing
  {
  }

  /** A step that may be taken, with the world and the output it gives. */
  lemma Take(w: World, e: Event)
    requires Sound(w) && Enabled(w, e)
    ensures Lockable(w, e) && Follows(w, e, Emit(w, e), Step(w, e)) && Sound(Step(w, e))
  {
    StepKeepsSound(w, e);
  }

  lemma Completion(
    w: World, q: Request, lifecycle: Lifecycle, cancelled: bool, waiters: map<nat, Waiter>, x: TurnTerminal)
    requires Coherent(w.ledger) && IsServing(w, q, lifecycle, cancelled, waiters)
    ensures var e := Completes(q.call, x);
      && Enabled(w, e) && Lockable(w, e)
      && Emit(w, e) == Terminal(q.sessionId, q.turnId, if cancelled then Cancelled else x)
      && LedgerAfter(w, e).active == None && LedgerAfter(w, e).lifecycle == lifecycle
  {
    CompleteKeeps(w.ledger, q.sessionId, q.turnId, w.guards[q.call].input, x);
  }

  lemma Completed(
    w: World, q: Request, lifecycle: Lifecycle, cancelled: bool, waiters: map<nat, Waiter>, x: TurnTerminal)
    requires Sound(w) && IsServing(w, q, lifecycle, cancelled, waiters)
    ensures var e := Completes(q.call, x);
      && Enabled(w, e) && Lockable(w, e) && Sound(Step(w, e))
      && Follows(w, e, Terminal(q.sessionId, q.turnId, if cancelled then Cancelled else x), Step(w, e))
      && IsServed(Step(w, e), q, lifecycle, {q.call}, waiters, 0)
  {
    Completion(w, q, lifecycle, cancelled, waiters, x);
    CompletionEffects(w, Completes(q.call, x));
    TheOnlyGuard(w, q.call);
    Take(w, Completes(q.call, x));
  }

  lemma CompletionEffects(w: World, e: Event)
    requires e.Completes? && Enabled(w, e) && Lockable(w, e) && Emit(w, e).Terminal?
    ensures GuardsAfter(w, e) == w.guards - {e.call}
    ensures UnnotifiedAfter(w, e) == w.unnotified + {e.call} && WaitersAfter(w, e) == w.waiters
  {
  }

  lemma Notified(w: World, q: Request, lifecycle: Lifecycle, waiters: map<nat, Waiter>)
    requires Sound(w) && IsServed(w, q, lifecycle, {q.call}, waiters, 0)
    ensures var e := Notifies(q.call);
      && Enabled(w, e) && Lockable(w, e) && Follows(w, e, Nothing, Step(w, e)) && Sound(Step(w, e))
      && IsServed(Step(w, e), q, lifecycle, {}, waiters, 1)
  {
    Take(w, Notifies(q.call));
  }

  lemma StopBegunBusy(w: World, q: Request, id: nat)
    requires Sound(w) && IsServing(w, q, Running, false, map[])
    ensures var e := BeginsStop(id);
      && Enabled(w, e) && Lockable(w, e) && Follows(w, e, Nothing, Step(w, e)) && Sound(Step(w, e))
      && IsServing(Step(w, e), q, Lifecycle.Stopping, true, map[id := Waiter(ForStop, Looping)])
  {
    Take(w, BeginsStop(id));
  }

  lemma RegisteredBusy(w: World, q: Request, id: nat)
    requires Sound(w) && IsServing(w, q, Lifecycle.Stopping, true, map[id := Waiter(ForStop, Looping)])
    ensures var e := Registers(id);
      && Enabled(w, e) && Lockable(w, e) && Follows(w, e, Nothing, Step(w, e)) && Sound(Step(w, e))
      && IsServing(Step(w, e), q, Lifecycle.Stopping, true, map[id := Waiter(ForStop, Registered(0))])
  {
    Take(w, Registers(id));
  }

  lemma FellAsleep(w: World, q: Request, id: nat)
    requires Sound(w) && IsServing(w, q, Lifecycle.Stopping, true, map[id := Waiter(ForStop, Registered(0))])
    ensures var e := Checks(id);
      && Enabled(w, e) && Lockable(w, e) && Follows(w, e, Nothing, Step(w, e)) && Sound(Step(w, e))
      && IsServing(Step(w, e), q, Lifecycle.Stopping, true, map[id := Waiter(ForStop, Asleep(0))])
  {
    Take(w, Checks(id));
  }

  /** A stop call that is woken, registers, finds the service idle and returns. */
  lemma WaiterStep(w: World, q: Request, id: nat, e: Event, before: Phase, after: Phase)
    requires Sound(w) && IsServed(w, q, Lifecycle.Stopping, {}, map[id := Waiter(ForStop, before)], 1)
    requires || (e == Wakes(id) && before == Asleep(0) && after == Looping)
             || (e == Registers(id) && before == Looping && after == Registered(1))
             || (e == Checks(id) && before == Registered(1) && after == SawIdle)
    ensures Enabled(w, e) && Lockable(w, e) && Follows(w, e, Nothing, Step(w, e)) && Sound(Step(w, e))
    ensures IsServed(Step(w, e), q, Lifecycle.Stopping, {}, map[id := Waiter(ForStop, after)], 1)
  {
    Take(w, e);
  }

  lemma StopFinished(w: World, q: Request, id: nat)
    requires Sound(w) && IsServed(w, q, Lifecycle.Stopping, {}, map[id := Waiter(ForStop, SawIdle)], 1)
    ensures var e := FinishesStop(id);
      && Enabled(w, e) && Lockable(w, e) && Follows(w, e, StopReturned, Step(w, e)) && Sound(Step(w, e))
      && IsServed(Step(w, e), q, Lifecycle.Stopped, {}, map[], 1)
  {
    Take(w, FinishesStop(id));
  }

  lemma CancelledAhead(w: World, q: Request)
    requires Sound(w) && IsFresh(w, Running, Some(q.profile))
    ensures var e := Cancels(q.sessionId, q.turnId, true);
      && Enabled(w, e) && Lockable(w, e) && Sound(Step(w, e))
      && Follows(w, e, Requested(q.sessionId, q.turnId), Step(w, e)) && IsPromised(Step(w, e), q)
  {
    CancellationIsExact(w.ledger, q.sessionId, q.turnId);
    CancelKeeps(w.ledger, q.sessionId, q.turnId);
    Take(w, Cancels(q.sessionId, q.turnId, true));
  }

  /** The turn of a request was cancelled before it was submitted. */
  ghost predicate IsPromised(w: World, q: Request) {
    && w.ledger.lifecycle == Running && w.ledger.profile == Some(q.profile) && w.owned
    && w.guards == map[] && w.unnotified == {}
    && Recorded(w.ledger, q.sessionId, q.turnId).None?
    && q.sessionId in w.ledger.sessions && q.turnId in w.ledger.sessions[q.sessionId].pending
  }

  lemma SubmittedLate(w: World, q: Request)
    requires Sound(w) && IsPromised(w, q) && Admissible(q)
    ensures var e := SubmitOf(q);
      && Enabled(w, e) && Lockable(w, e) && Sound(Step(w, e))
      && Follows(w, e, Terminal(q.sessionId, q.turnId, Cancelled), Step(w, e))
  {
    AdmissionIsExact(w.ledger, q.sessionId, q.turnId, q.input);
    SubmitCallIsExact(w.ledger, true, q.sessionId, q.turnId, q.input, q.deadlineNanos);
    Take(w, SubmitOf(q));
  }

  // -------------------------------------------------------------------- runs

  function Last(run: Run): (w: World)
    requires run.worlds != []
  {
    run.worlds[|run.worlds| - 1]
  }

  function Longer(run: Run, e: Event, o: Output, r: World): (next: Run) {
    Run(run.worlds + [r], run.events + [e], run.outputs + [o])
  }

  lemma Extend(run: Run, e: Event, o: Output, r: World)
    requires IsRun(run) && Follows(Last(run), e, o, r)
    ensures IsRun(Longer(run, e, o, r)) && Last(Longer(run, e, o, r)) == r
  {
    var next := Longer(run, e, o, r);
    forall i {:trigger next.events[i]} | 0 <= i < |next.events|
      ensures Follows(next.worlds[i], next.events[i], next.outputs[i], next.worlds[i + 1])
    {
      if i < |run.events| {
        assert Follows(run.worlds[i], run.events[i], run.outputs[i], run.worlds[i + 1]);
      } else {
        assert next.worlds[i] == Last(run) && next.worlds[i + 1] == r;
      }
    }
  }

  const OPENING_OUTPUTS: seq<Output> := [Nothing, Nothing]

  function Opening(q: Request): (events: seq<Event>) {
    [Starts, Activates(true, q.profile, true)]
  }

  /** The service opens for turns. */
  lemma Opens(q: Request) returns (run: Run)
    ensures IsRun(run) && run.events == Opening(q) && run.outputs == OPENING_OUTPUTS
    ensures Sound(Last(run)) && IsFresh(Last(run), Running, Some(q.profile))
  {
    run := Run([INITIAL_WORLD], [], []);
    EveryWorldIsSound(run, 0);
    Started(INITIAL_WORLD);
    var started := Step(INITIAL_WORLD, Starts);
    Extend(run, Starts, Nothing, started);
    run := Longer(run, Starts, Nothing, started);
    Activated(started, q.profile);
    var e := Activates(true, q.profile, true);
    Extend(run, e, Nothing, Step(started, e));
    run := Longer(run, e, Nothing, Step(started, e));
  }

  /** A run reaches an armed guard, for any profile and any valid input within the context limit. */
  lemma ATurnIsAdmitted(q: Request) returns (run: Run)
    requires Admissible(q)
    ensures IsRun(run) && run.events == Opening(q) + [SubmitOf(q)] && run.outputs == OPENING_OUTPUTS + [Nothing]
    ensures Sound(Last(run)) && IsServing(Last(run), q, Running, false, map[])
  {
    run := Opens(q);
    var w := Last(run);
    Admits(w, q);
    Extend(run, SubmitOf(q), Nothing, Step(w, SubmitOf(q)));
    run := Longer(run, SubmitOf(q), Nothing, Step(w, SubmitOf(q)));
  }

  /** What its provider proposes is told. */
  lemma ATurnIsServed(q: Request, x: TurnTerminal) returns (run: Run)
    requires Admissible(q)
    ensures IsRun(run)
    ensures run.events == Opening(q) + [SubmitOf(q)] + [Completes(q.call, x)] + [Notifies(q.call)]
    ensures run.outputs == OPENING_OUTPUTS + [Nothing] + [Terminal(q.sessionId, q.turnId, x)] + [Nothing]
    ensures Sound(Last(run)) && IsServed(Last(run), q, Running, {}, map[], 1)
  {
    run := ATurnIsAdmitted(q);
    var w := Last(run);
    var e := Completes(q.call, x);
    Completed(w, q, Running, false, map[], x);
    Extend(run, e, Terminal(q.sessionId, q.turnId, x), Step(w, e));
    run := Longer(run, e, Terminal(q.sessionId, q.turnId, x), Step(w, e));
    w := Last(run);
    Notified(w, q, Running, map[]);
    Extend(run, Notifies(q.call), Nothing, Step(w, Notifies(q.call)));
    run := Longer(run, Notifies(q.call), Nothing, Step(w, Notifies(q.call)));
  }

  /** A turn that was cancelled before it was submitted is answered as cancelled when it is. */
  lemma ATurnIsCancelledAhead(q: Request) returns (run: Run)
    requires Admissible(q)
    ensures IsRun(run)
    ensures run.events == Opening(q) + [Cancels(q.sessionId, q.turnId, true)] + [SubmitOf(q)]
    ensures run.outputs == OPENING_OUTPUTS
      + [Requested(q.sessionId, q.turnId)] + [Terminal(q.sessionId, q.turnId, Cancelled)]
  {
    run := Opens(q);
    var w := Last(run);
    var e := Cancels(q.sessionId, q.turnId, true);
    CancelledAhead(w, q);
    Extend(run, e, Requested(q.sessionId, q.turnId), Step(w, e));
    run := Longer(run, e, Requested(q.sessionId, q.turnId), Step(w, e));
    w := Last(run);
    SubmittedLate(w, q);
    Extend(run, SubmitOf(q), Terminal(q.sessionId, q.turnId, Cancelled), Step(w, SubmitOf(q)));
    run := Longer(run, SubmitOf(q), Terminal(q.sessionId, q.turnId, Cancelled), Step(w, SubmitOf(q)));
  }

  /** A stop of a busy service falls asleep over the turn that it cancels. */
  lemma AStopFallsAsleep(q: Request, id: nat) returns (run: Run)
    requires Admissible(q)
    ensures IsRun(run)
    ensures run.events == Opening(q) + [SubmitOf(q)] + [BeginsStop(id)] + [Registers(id)] + [Checks(id)]
    ensures run.outputs == OPENING_OUTPUTS + [Nothing] + [Nothing] + [Nothing] + [Nothing]
    ensures Sound(Last(run))
    ensures IsServing(Last(run), q, Lifecycle.Stopping, true, map[id := Waiter(ForStop, Asleep(0))])
  {
    run := ATurnIsAdmitted(q);
    var w := Last(run);
    StopBegunBusy(w, q, id);
    Extend(run, BeginsStop(id), Nothing, Step(w, BeginsStop(id)));
    run := Longer(run, BeginsStop(id), Nothing, Step(w, BeginsStop(id)));
    w := Last(run);
    RegisteredBusy(w, q, id);
    Extend(run, Registers(id), Nothing, Step(w, Registers(id)));
    run := Longer(run, Registers(id), Nothing, Step(w, Registers(id)));
    w := Last(run);
    FellAsleep(w, q, id);
    Extend(run, Checks(id), Nothing, Step(w, Checks(id)));
    run := Longer(run, Checks(id), Nothing, Step(w, Checks(id)));
  }

  /** The turn is then told as cancelled, whatever its provider proposes, and the stop is woken. */
  lemma AStopIsWoken(q: Request, id: nat, x: TurnTerminal) returns (run: Run)
    requires Admissible(q)
    ensures IsRun(run)
    ensures run.events == Opening(q) + [SubmitOf(q)] + [BeginsStop(id)] + [Registers(id)] + [Checks(id)]
      + [Completes(q.call, x)] + [Notifies(q.call)]
    ensures run.outputs == OPENING_OUTPUTS + [Nothing] + [Nothing] + [Nothing] + [Nothing]
      + [Terminal(q.sessionId, q.turnId, Cancelled)] + [Nothing]
    ensures Sound(Last(run))
    ensures IsServed(Last(run), q, Lifecycle.Stopping, {}, map[id := Waiter(ForStop, Asleep(0))], 1)
  {
    run := AStopFallsAsleep(q, id);
    var w := Last(run);
    var waiters := map[id := Waiter(ForStop, Asleep(0))];
    var e := Completes(q.call, x);
    Completed(w, q, Lifecycle.Stopping, true, waiters, x);
    Extend(run, e, Terminal(q.sessionId, q.turnId, Cancelled), Step(w, e));
    run := Longer(run, e, Terminal(q.sessionId, q.turnId, Cancelled), Step(w, e));
    w := Last(run);
    Notified(w, q, Lifecycle.Stopping, waiters);
    Extend(run, Notifies(q.call), Nothing, Step(w, Notifies(q.call)));
    run := Longer(run, Notifies(q.call), Nothing, Step(w, Notifies(q.call)));
  }

  /** One step of a woken stop call. */
  lemma WokenStep(run: Run, q: Request, id: nat, e: Event, before: Phase, after: Phase) returns (next: Run)
    requires IsRun(run) && Sound(Last(run))
    requires IsServed(Last(run), q, Lifecycle.Stopping, {}, map[id := Waiter(ForStop, before)], 1)
    requires || (e == Wakes(id) && before == Asleep(0) && after == Looping)
             || (e == Registers(id) && before == Looping && after == Registered(1))
             || (e == Checks(id) && before == Registered(1) && after == SawIdle)
    ensures IsRun(next) && next.events == run.events + [e] && next.outputs == run.outputs + [Nothing]
    ensures run.events <= next.events && run.outputs <= next.outputs
    ensures Sound(Last(next))
    ensures IsServed(Last(next), q, Lifecycle.Stopping, {}, map[id := Waiter(ForStop, after)], 1)
  {
    var w := Last(run);
    WaiterStep(w, q, id, e, before, after);
    Extend(run, e, Nothing, Step(w, e));
    next := Longer(run, e, Nothing, Step(w, e));
  }

  /** And the stop returns: the service is stopped. */
  lemma AStopReturns(q: Request, id: nat, x: TurnTerminal) returns (run: Run)
    requires Admissible(q)
    ensures IsRun(run)
    ensures Completes(q.call, x) in run.events && Terminal(q.sessionId, q.turnId, Cancelled) in run.outputs
    ensures run.events != [] && run.events[|run.events| - 1] == FinishesStop(id)
    ensures run.outputs[|run.events| - 1] == StopReturned
    ensures IsServed(Last(run), q, Lifecycle.Stopped, {}, map[], 1)
  {
    var woken := AStopIsWoken(q, id, x);
    var told := Terminal(q.sessionId, q.turnId, Cancelled);
    assert woken.events[6] == Completes(q.call, x) && woken.outputs[6] == told;
    run := FinishStop(woken, q, id);
    assert run.events[6] == woken.events[6] && run.outputs[6] == woken.outputs[6];
  }

  lemma SeeIdle(woken: Run, q: Request, id: nat) returns (run: Run)
    requires IsRun(woken) && Sound(Last(woken))
    requires IsServed(Last(woken), q, Lifecycle.Stopping, {}, map[id := Waiter(ForStop, Asleep(0))], 1)
    ensures IsRun(run) && woken.events <= run.events && woken.outputs <= run.outputs && Sound(Last(run))
    ensures IsServed(Last(run), q, Lifecycle.Stopping, {}, map[id := Waiter(ForStop, SawIdle)], 1)
  {
    run := WokenStep(woken, q, id, Wakes(id), Asleep(0), Looping);
    run := WokenStep(run, q, id, Registers(id), Looping, Registered(1));
    run := WokenStep(run, q, id, Checks(id), Registered(1), SawIdle);
  }

  lemma FinishStop(woken: Run, q: Request, id: nat) returns (run: Run)
    requires IsRun(woken) && Sound(Last(woken))
    requires IsServed(Last(woken), q, Lifecycle.Stopping, {}, map[id := Waiter(ForStop, Asleep(0))], 1)
    ensures IsRun(run) && woken.events <= run.events && woken.outputs <= run.outputs
    ensures run.events != [] && run.events[|run.events| - 1] == FinishesStop(id)
    ensures run.outputs[|run.events| - 1] == StopReturned
    ensures IsServed(Last(run), q, Lifecycle.Stopped, {}, map[], 1)
  {
    run := SeeIdle(woken, q, id);
    var w := Last(run);
    StopFinished(w, q, id);
    Extend(run, FinishesStop(id), StopReturned, Step(w, FinishesStop(id)));
    run := Longer(run, FinishesStop(id), StopReturned, Step(w, FinishesStop(id)));
  }
}
