/**
  Runs of the Agent service: every interleaving of the locked regions with provider results,
  dropped futures, notifications and the waiters of `wait_until_idle`.
 */
module AgentRuns {
  import opened Wrappers
  import opened Text
  import opened AgentTypes
  import opened AgentContext
  import opened AgentLedger

  /** An armed `ActiveTurnGuard`, with the context its provider was given. */
  datatype Guard = Guard(sessionId: SessionId, turnId: TurnId, input: string, context: ModelContext)

  datatype WaitKind = ForStop | ForDeactivate

  /**
    Where a caller stands in `wait_until_idle`.  A registered or sleeping caller holds a `Notified`
    future, which remembers how often `notify_waiters` had been called when it was created.
   */
  datatype Phase =
    | Looping
    | Registered(since: nat)
    | Asleep(since: nat)
    | SawIdle

  datatype Waiter = Waiter(kind: WaitKind, phase: Phase)

  /**
    `owned` tells whether the `AgentService` still exists; `guards` are the armed guards and
    `unnotified` the calls that have cleared the active turn but not yet called `notify_waiters`.
    `clock` and `born` only record when each retained session was created.
   */
  datatype World = World(
    ledger: Ledger,
    owned: bool,
    guards: map<nat, Guard>,
    unnotified: set<nat>,
    waiters: map<nat, Waiter>,
    notified: nat,
    clock: nat,
    born: map<SessionId, nat>)

  const INITIAL_WORLD := World(INITIAL_LEDGER, true, map[], {}, map[], 0, 0, map[])

  /** `upgraded` is the result of upgrading the handle: it succeeds while the service exists, and may later. */
  datatype Event =
    | Submits(call: nat, sessionId: SessionId, turnId: TurnId, input: string, deadlineNanos: nat, upgraded: bool)
    | Completes(call: nat, proposed: TurnTerminal)
    | DropsGuard(call: nat)
    | Notifies(call: nat)
    | Cancels(sessionId: SessionId, turnId: TurnId, upgraded: bool)
    | Activates(definitionMatches: bool, profile: Profile, upgraded: bool)
    | Deactivates(waiter: nat, cardInstanceId: nat, upgraded: bool)
    | Starts
    | BeginsStop(waiter: nat)
    | Registers(waiter: nat)
    | Checks(waiter: nat)
    | Wakes(waiter: nat)
    | FinishesStop(waiter: nat)
    | Abandons(waiter: nat)
    | DropsService

  predicate Waits(w: World, id: nat, phase: Phase) {
    id in w.waiters && w.waiters[id].phase == phase
  }

  /** `notify_waiters` has been called since a sleeping caller registered. */
  predicate IsWoken(phase: Phase, notified: nat) {
    phase.Asleep? && phase.since < notified
  }

  predicate Enabled(w: World, event: Event) {
    match event
    case Submits(call, _, _, _, _, upgraded) =>
      call !in w.guards && call !in w.unnotified && (w.owned ==> upgraded)
    case Completes(call, _) => call in w.guards
    case DropsGuard(call) => call in w.guards
    case Notifies(call) => call in w.unnotified
    case Cancels(_, _, upgraded) => w.owned ==> upgraded
    case Activates(_, _, upgraded) => w.owned ==> upgraded
    case Deactivates(waiter, _, upgraded) => waiter !in w.waiters && (w.owned ==> upgraded)
    case Starts => w.owned
    case BeginsStop(waiter) => w.owned && waiter !in w.waiters
    case Registers(waiter) => Waits(w, waiter, Looping)
    case Checks(waiter) => waiter in w.waiters && w.waiters[waiter].phase.Registered?
    case Wakes(waiter) => waiter in w.waiters && IsWoken(w.waiters[waiter].phase, w.notified)
    case FinishesStop(waiter) => Waits(w, waiter, SawIdle)
    case Abandons(waiter) => waiter in w.waiters
    case DropsService => w.owned && forall id :: id in w.waiters ==> w.waiters[id].kind != ForStop
  }

  // -------------------------------------------------------------------- steps

  predicate Lockable(w: World, event: Event) {
    event.Completes? && event.call in w.guards ==>
      var g := w.guards[event.call];
      IsActive(w.ledger, g.sessionId, g.turnId) ==> g.sessionId in w.ledger.sessions
  }

  /** The ledger after a step. */
  function LedgerAfter(w: World, event: Event): (v: Ledger)
    requires Enabled(w, event) && Lockable(w, event)
  {
    match event
    case Submits(_, session, turn, input, deadline, upgraded) =>
      SubmitCall(w.ledger, upgraded, session, turn, input, deadline).0
    case Completes(call, proposed) =>
      var g := w.guards[call];
      Complete(w.ledger, g.sessionId, g.turnId, g.input, proposed).0
    case DropsGuard(call) =>
      var g := w.guards[call];
      DropGuard(w.ledger, g.sessionId, g.turnId, g.input).0
    case Cancels(session, turn, upgraded) => CancelCall(w.ledger, upgraded, session, turn).0
    case Activates(matches, profile, upgraded) => ActivateCall(w.ledger, upgraded, matches, profile).0
    case Deactivates(_, card, upgraded) => DeactivateCall(w.ledger, upgraded, card).0
    case Starts => Start(w.ledger).0
    case BeginsStop(_) => StopBegin(w.ledger).0
    case FinishesStop(_) => StopFinish(w.ledger)
    case DropsService => DropService(w.ledger)
    case _ => w.ledger
  }

  function GuardsAfter(w: World, event: Event): (guards: map<nat, Guard>)
    requires Enabled(w, event) && Lockable(w, event)
  {
    match event
    case Submits(call, session, turn, input, deadline, upgraded) =>
      var outcome := SubmitCall(w.ledger, upgraded, session, turn, input, deadline).1;
      if outcome.Admitted? then w.guards[call := Guard(session, turn, input, outcome.context)] else w.guards
    case Completes(call, proposed) =>
      var g := w.guards[call];
      if Complete(w.ledger, g.sessionId, g.turnId, g.input, proposed).1.Ok?
      then w.guards - {call} else w.guards
    case DropsGuard(call) => w.guards - {call}
    case _ => w.guards
  }

  function UnnotifiedAfter(w: World, event: Event): (calls: set<nat>)
    requires Enabled(w, event) && Lockable(w, event)
  {
    match event
    case Completes(call, proposed) =>
      var g := w.guards[call];
      if Complete(w.ledger, g.sessionId, g.turnId, g.input, proposed).1.Ok?
      then w.unnotified + {call} else w.unnotified
    case DropsGuard(call) =>
      var g := w.guards[call];
      if DropGuard(w.ledger, g.sessionId, g.turnId, g.input).1 then w.unnotified + {call} else w.unnotified
    case Notifies(call) => w.unnotified - {call}
    case _ => w.unnotified
  }

  function SetPhase(w: World, id: nat, phase: Phase): (waiters: map<nat, Waiter>)
    requires id in w.waiters
  {
    w.waiters[id := w.waiters[id].(phase := phase)]
  }

  function WaitersAfter(w: World, event: Event): (waiters: map<nat, Waiter>)
    requires Enabled(w, event)
  {
    match event
    case Deactivates(waiter, card, upgraded) =>
      if DeactivateCall(w.ledger, upgraded, card).1.MustWait?
      then w.waiters[waiter := Waiter(ForDeactivate, Looping)] else w.waiters
    case BeginsStop(waiter) =>
      if StopBegin(w.ledger).1.MustWait? then w.waiters[waiter := Waiter(ForStop, Looping)] else w.waiters
    case Registers(waiter) => SetPhase(w, waiter, Registered(w.notified))
    case Checks(waiter) =>
      if w.ledger.active.Some? then SetPhase(w, waiter, Asleep(w.waiters[waiter].phase.since))
      else if w.waiters[waiter].kind == ForStop then SetPhase(w, waiter, SawIdle)
      else w.waiters - {waiter}
    case Wakes(waiter) => SetPhase(w, waiter, Looping)
    case FinishesStop(waiter) => w.waiters - {waiter}
    case Abandons(waiter) => w.waiters - {waiter}
    case _ => w.waiters
  }

  /** The session that an event may create. */
  function Asked(event: Event): (session: Option<SessionId>) {
    match event
    case Submits(_, session, _, _, _, _) => Some(session)
    case Cancels(session, _, _) => Some(session)
    case _ => None
  }

  /** The ages of the sessions that are retained, a new one being born at the given time. */
  function Ages(born: map<SessionId, nat>, retained: set<SessionId>, asked: Option<SessionId>, clock: nat)
    : (r: map<SessionId, nat>)
  {
    var kept := born - (born.Keys - retained);
    if asked.Some? && asked.value in retained && asked.value !in kept then kept[asked.value := clock] else kept
  }

  function Step(w: World, event: Event): (r: World)
    requires Enabled(w, event) && Lockable(w, event)
  {
    var v := LedgerAfter(w, event);
    World(
      v, w.owned && event != DropsService, GuardsAfter(w, event), UnnotifiedAfter(w, event),
      WaitersAfter(w, event), w.notified + (if event.Notifies? then 1 else 0), w.clock + 1,
      Ages(w.born, v.sessions.Keys, Asked(event), w.clock))
  }

  /** What a step tells a caller. */
  datatype Output =
    | Nothing
    | Terminal(sessionId: SessionId, turnId: TurnId, terminal: TurnTerminal)
    | Requested(sessionId: SessionId, turnId: TurnId)
    | StopReturned
    | DeactivateReturned

  function Emit(w: World, event: Event): (output: Output)
    requires Enabled(w, event) && Lockable(w, event)
  {
    match event
    case Submits(_, session, turn, input, deadline, upgraded) =>
      var outcome := SubmitCall(w.ledger, upgraded, session, turn, input, deadline).1;
      if outcome.Answered? then Terminal(session, turn, outcome.terminal) else Nothing
    case Completes(call, proposed) =>
      var g := w.guards[call];
      var r := Complete(w.ledger, g.sessionId, g.turnId, g.input, proposed).1;
      if r.Ok? then Terminal(g.sessionId, g.turnId, r.value) else Nothing
    case Cancels(session, turn, upgraded) =>
      (match CancelCall(w.ledger, upgraded, session, turn).1
       case Ok(AlreadyTerminal(terminal)) => Terminal(session, turn, terminal)
       case Ok(CancellationRequested) => Requested(session, turn)
       case _ => Nothing)
    case BeginsStop(_) => if StopBegin(w.ledger).1.Done? then StopReturned else Nothing
    case FinishesStop(_) => StopReturned
    case Checks(waiter) =>
      if w.ledger.active.None? && w.waiters[waiter].kind == ForDeactivate then DeactivateReturned else Nothing
    case _ => Nothing
  }

  // ---------------------------------------------------------- the world invariant

  /** A guard is armed exactly when a turn is active, and it is the guard of that turn. */
  ghost predicate GuardsOk(active: Option<ActiveTurn>, guards: map<nat, Guard>) {
    && (active.Some? <==> exists call :: call in guards)
    && (forall call :: call in guards ==>
          guards[call].sessionId == active.value.sessionId && guards[call].turnId == active.value.turnId)
    && (forall call, other :: call in guards && other in guards ==> call == other)
  }

  ghost predicate StopsOk(
    owned: bool, lifecycle: Lifecycle, active: Option<ActiveTurn>, waiters: map<nat, Waiter>) {
    && (owned && lifecycle == Stopped ==> active.None?)
    && forall id :: id in waiters ==>
      && (waiters[id].kind == ForStop ==> Rank(lifecycle) >= 2)
      && (waiters[id].phase == SawIdle ==> waiters[id].kind == ForStop && active.None?)
  }

  /** No lost wakeup: who sleeps and has not been woken still has someone to wake it. */
  ghost predicate SleepersOk(
    active: Option<ActiveTurn>, unnotified: set<nat>, waiters: map<nat, Waiter>, notified: nat) {
    forall id :: id in waiters && (waiters[id].phase.Registered? || waiters[id].phase.Asleep?) ==>
      && waiters[id].phase.since <= notified
      && (waiters[id].phase.Asleep? && waiters[id].phase.since == notified ==> active.Some? || unnotified != {})
  }

  /** The creation order lists the sessions by age. */
  ghost predicate AgesOk(order: seq<SessionId>, born: map<SessionId, nat>, clock: nat) {
    && (forall s :: s in order <==> s in born)
    && (forall s :: s in born ==> born[s] < clock)
    && (forall i, j :: 0 <= i < j < |order| ==> born[order[i]] < born[order[j]])
  }

  ghost predicate Sound(w: World) {
    && Coherent(w.ledger)
    && GuardsOk(w.ledger.active, w.guards)
    && StopsOk(w.owned, w.ledger.lifecycle, w.ledger.active, w.waiters)
    && SleepersOk(w.ledger.active, w.unnotified, w.waiters, w.notified)
    && AgesOk(w.ledger.order, w.born, w.clock)
  }

  // -------------------------------------------------------- what a step does

  /** The record a step appends. */
  function RecordOf(w: World, event: Event): (record: Option<Record>)
    requires Enabled(w, event) && Lockable(w, event)
  {
    match event
    case Submits(_, session, turn, input, deadline, upgraded) =>
      var outcome := SubmitCall(w.ledger, upgraded, session, turn, input, deadline).1;
      SubmitRecord(w.ledger, outcome, session, turn, input)
    case Completes(call, proposed) =>
      var g := w.guards[call];
      var r := Complete(w.ledger, g.sessionId, g.turnId, g.input, proposed).1;
      if r.Ok? then Some(Record(g.sessionId, CompletedTurn(g.turnId, g.input, r.value))) else None
    case DropsGuard(call) =>
      var g := w.guards[call];
      if IsActive(w.ledger, g.sessionId, g.turnId)
      then Some(Record(g.sessionId, CompletedTurn(g.turnId, g.input, Cancelled))) else None
    case _ => None
  }

  /** What every step keeps of the ledger. */
  ghost predicate LedgerAdvances(v: Ledger, w: Ledger, record: Option<Record>) {
    Coherent(w) && Appends(v, w, record) && KeepsPromises(v, w) && Rank(v.lifecycle) <= Rank(w.lifecycle)
  }

  lemma AdvancesIsStep(v: Ledger, w: Ledger, record: Option<Record>)
    requires Advances(v, w, record)
    ensures LedgerAdvances(v, w, record)
  {
  }

  lemma ControlsIsStep(v: Ledger, w: Ledger)
    requires Coherent(v) && OnlyControls(v, w)
    ensures LedgerAdvances(v, w, None)
  {
    assert Appends(v, v, None);
  }

  /** What a step does to the active turn and its guard. */
  datatype Turnover = Stays | Admits(call: nat, guard: Guard) | Clears(call: nat)

  ghost predicate Turns(w: World, v: Ledger, guards: map<nat, Guard>, unnotified: set<nat>, turnover: Turnover) {
    match turnover
    case Stays => SameActive(w.ledger, v) && guards == w.guards
    case Admits(call, g) =>
      && w.ledger.active.None? && w.ledger.lifecycle == Running && guards == w.guards[call := g]
      && v.active == Some(ActiveTurn(g.sessionId, g.turnId, false)) && v.lifecycle == Running
    case Clears(call) =>
      v.active.None? && call in w.guards && guards == w.guards - {call} && call in unnotified
  }

  ghost predicate Moves(w: World, event: Event, v: Ledger, turnover: Turnover)
    requires Enabled(w, event) && Lockable(w, event)
  {
    && LedgerAdvances(w.ledger, v, RecordOf(w, event))
    && Turns(w, v, GuardsAfter(w, event), UnnotifiedAfter(w, event), turnover)
  }

  lemma SoundIsLockable(w: World, event: Event)
    requires Coherent(w.ledger)
    ensures Lockable(w, event)
  {
  }

  lemma SubmitMoves(w: World, event: Event) returns (turnover: Turnover)
    requires Coherent(w.ledger) && Enabled(w, event) && event.Submits?
    ensures Moves(w, event, LedgerAfter(w, event), turnover)
  {
    SubmitCallKeeps(
      w.ledger, event.upgraded, event.sessionId, event.turnId, event.input, event.deadlineNanos);
    var outcome := SubmitCall(
      w.ledger, event.upgraded, event.sessionId, event.turnId, event.input, event.deadlineNanos).1;
    turnover :=
      if outcome.Admitted?
      then Admits(event.call, Guard(event.sessionId, event.turnId, event.input, outcome.context))
      else Stays;
  }

  lemma CompleteAdvances(w: World, event: Event)
    requires Coherent(w.ledger) && Enabled(w, event) && Lockable(w, event) && event.Completes?
    requires IsActive(w.ledger, w.guards[event.call].sessionId, w.guards[event.call].turnId)
    ensures RecordOf(w, event).Some?
    ensures Advances(w.ledger, LedgerAfter(w, event), RecordOf(w, event))
  {
    var g := w.guards[event.call];
    CompleteKeeps(w.ledger, g.sessionId, g.turnId, g.input, event.proposed);
  }

  lemma DropAdvances(w: World, event: Event)
    requires Coherent(w.ledger) && Enabled(w, event) && Lockable(w, event) && event.DropsGuard?
    requires IsActive(w.ledger, w.guards[event.call].sessionId, w.guards[event.call].turnId)
    ensures RecordOf(w, event).Some?
    ensures Advances(w.ledger, LedgerAfter(w, event), RecordOf(w, event))
  {
    var g := w.guards[event.call];
    CompleteKeeps(w.ledger, g.sessionId, g.turnId, g.input, Cancelled);
  }

  lemma CompletionClears(w: World, event: Event)
    requires Enabled(w, event) && Lockable(w, event) && (event.Completes? || event.DropsGuard?)
    requires IsActive(w.ledger, w.guards[event.call].sessionId, w.guards[event.call].turnId)
    ensures Turns(w, LedgerAfter(w, event), GuardsAfter(w, event), UnnotifiedAfter(w, event), Clears(event.call))
  {
  }

  lemma CompletionMoves(w: World, event: Event) returns (turnover: Turnover)
    requires Coherent(w.ledger) && GuardsOk(w.ledger.active, w.guards)
    requires Enabled(w, event) && (event.Completes? || event.DropsGuard?)
    ensures Lockable(w, event) && RecordOf(w, event).Some?
    ensures Moves(w, event, LedgerAfter(w, event), turnover)
  {
    SoundIsLockable(w, event);
    turnover := Clears(event.call);
    CompletionClears(w, event);
    if event.Completes? {
      CompleteAdvances(w, event);
    } else {
      DropAdvances(w, event);
    }
    AdvancesIsStep(w.ledger, LedgerAfter(w, event), RecordOf(w, event));
  }

  lemma CancelMoves(w: World, event: Event) returns (turnover: Turnover)
    requires Coherent(w.ledger) && Enabled(w, event) && event.Cancels?
    ensures Moves(w, event, LedgerAfter(w, event), turnover)
  {
    CancelCallKeeps(w.ledger, event.upgraded, event.sessionId, event.turnId);
    AdvancesIsStep(w.ledger, LedgerAfter(w, event), None);
    turnover := Stays;
  }

  predicate IsControl(event: Event) {
    !event.Submits? && !event.Completes? && !event.DropsGuard? && !event.Cancels?
  }

  lemma ControlIsControl(w: World, event: Event)
    requires Coherent(w.ledger) && Enabled(w, event) && IsControl(event)
    requires event.FinishesStop? ==> Rank(w.ledger.lifecycle) >= 2
    ensures OnlyControls(w.ledger, LedgerAfter(w, event))
    ensures RecordOf(w, event) == None && GuardsAfter(w, event) == w.guards
  {
    OwnerControlsKeep(w.ledger);
    match event
    case Activates(_, profile, _) => ProfileControlsKeep(w.ledger, profile, 0);
    case Deactivates(_, card, _) => ProfileControlsKeep(w.ledger, Profile(0, ""), card);
    case BeginsStop(_) => StopControlsKeep(w.ledger);
    case FinishesStop(_) => StopControlsKeep(w.ledger);
    case _ =>
  }

  lemma ControlMoves(w: World, event: Event) returns (turnover: Turnover)
    requires Coherent(w.ledger) && Enabled(w, event) && IsControl(event)
    requires event.FinishesStop? ==> Rank(w.ledger.lifecycle) >= 2
    ensures Moves(w, event, LedgerAfter(w, event), turnover)
  {
    turnover := Stays;
    ControlIsControl(w, event);
    ControlsIsStep(w.ledger, LedgerAfter(w, event));
  }

  /** Every step keeps the joint invariant, only appends, and forgets no promise of cancellation. */
  lemma EveryStepMoves(w: World, event: Event) returns (turnover: Turnover)
    requires Sound(w) && Enabled(w, event)
    ensures Lockable(w, event)
    ensures Moves(w, event, LedgerAfter(w, event), turnover)
  {
    SoundIsLockable(w, event);
    if event.Submits? {
      turnover := SubmitMoves(w, event);
    } else if event.Completes? || event.DropsGuard? {
      turnover := CompletionMoves(w, event);
    } else if event.Cancels? {
      turnover := CancelMoves(w, event);
    } else {
      turnover := ControlMoves(w, event);
    }
  }

  lemma TurnoverKeepsGuards(
    w: World, v: Ledger, guards: map<nat, Guard>, unnotified: set<nat>, turnover: Turnover)
    requires GuardsOk(w.ledger.active, w.guards) && Turns(w, v, guards, unnotified, turnover)
    ensures GuardsOk(v.active, guards)
  {
    if turnover.Admits? {
      assert turnover.call in guards;
    }
  }

  /** The lifecycle reaches `Stopped` only over an idle ledger, or when the service is dropped. */
  lemma StoppedIsIdle(w: World, event: Event)
    requires FlagsOk(w.ledger) && Enabled(w, event) && Lockable(w, event)
    requires StopsOk(w.owned, w.ledger.lifecycle, w.ledger.active, w.waiters)
    requires LedgerAfter(w, event).lifecycle == Stopped && w.ledger.lifecycle != Stopped
    ensures LedgerAfter(w, event).active.None? || event == DropsService
  {
    if !IsControl(event) {
      OnlyControlsMoveLifecycle(w, event);
    }
  }

  lemma OnlyControlsMoveLifecycle(w: World, event: Event)
    requires Enabled(w, event) && Lockable(w, event) && !IsControl(event)
    ensures LedgerAfter(w, event).lifecycle == w.ledger.lifecycle
  {
  }

  /** Each waiter after a step was there before, at the same or a later phase, or was just added. */
  ghost predicate WaiterMoves(w: World, event: Event, id: nat, r: Waiter) {
    || (id in w.waiters && r == w.waiters[id])
    || (id in w.waiters && r == w.waiters[id].(phase := Looping))
    || (id in w.waiters && r == w.waiters[id].(phase := Registered(w.notified)))
    || (id in w.waiters && r == w.waiters[id].(phase := SawIdle)
        && r.kind == ForStop && w.ledger.active.None? && event.Checks?)
    || (id in w.waiters && w.waiters[id].phase.Registered?
        && r == w.waiters[id].(phase := Asleep(w.waiters[id].phase.since)) && w.ledger.active.Some? && event.Checks?)
    || (r == Waiter(ForDeactivate, Looping))
    || (r == Waiter(ForStop, Looping) && event.BeginsStop? && StopBegin(w.ledger).1.MustWait?)
  }

  lemma EveryWaiterMoves(w: World, event: Event)
    requires Enabled(w, event)
    ensures var waiters := WaitersAfter(w, event);
      forall id :: id in waiters ==> WaiterMoves(w, event, id, waiters[id])
  {
  }

  lemma StepKeepsStops(w: World, event: Event, turnover: Turnover)
    requires FlagsOk(w.ledger) && Enabled(w, event) && Lockable(w, event)
    requires StopsOk(w.owned, w.ledger.lifecycle, w.ledger.active, w.waiters)
    requires Turns(w, LedgerAfter(w, event), GuardsAfter(w, event), UnnotifiedAfter(w, event), turnover)
    requires Rank(w.ledger.lifecycle) <= Rank(LedgerAfter(w, event).lifecycle)
    ensures var v := LedgerAfter(w, event);
      StopsOk(w.owned && event != DropsService, v.lifecycle, v.active, WaitersAfter(w, event))
  {
    var v, waiters := LedgerAfter(w, event), WaitersAfter(w, event);
    if v.lifecycle == Stopped && w.ledger.lifecycle != Stopped {
      StoppedIsIdle(w, event);
    }
    EveryWaiterMoves(w, event);
    forall id | id in waiters
      ensures waiters[id].kind == ForStop ==> Rank(v.lifecycle) >= 2
      ensures waiters[id].phase == SawIdle ==> waiters[id].kind == ForStop && v.active.None?
    {
      StopWaiterStaysOk(w, event, turnover, id, waiters[id]);
    }
  }

  lemma StopWaiterStaysOk(w: World, event: Event, turnover: Turnover, id: nat, r: Waiter)
    requires Enabled(w, event) && Lockable(w, event) && WaiterMoves(w, event, id, r)
    requires StopsOk(w.owned, w.ledger.lifecycle, w.ledger.active, w.waiters)
    requires Turns(w, LedgerAfter(w, event), GuardsAfter(w, event), UnnotifiedAfter(w, event), turnover)
    requires Rank(w.ledger.lifecycle) <= Rank(LedgerAfter(w, event).lifecycle)
    ensures r.kind == ForStop ==> Rank(LedgerAfter(w, event).lifecycle) >= 2
    ensures r.phase == SawIdle ==> r.kind == ForStop && LedgerAfter(w, event).active.None?
  {
  }

  lemma StepKeepsSleepers(w: World, event: Event, turnover: Turnover)
    requires Enabled(w, event) && Lockable(w, event)
    requires SleepersOk(w.ledger.active, w.unnotified, w.waiters, w.notified)
    requires Turns(w, LedgerAfter(w, event), GuardsAfter(w, event), UnnotifiedAfter(w, event), turnover)
    ensures SleepersOk(
      LedgerAfter(w, event).active, UnnotifiedAfter(w, event), WaitersAfter(w, event),
      w.notified + if event.Notifies? then 1 else 0)
  {
    var waiters := WaitersAfter(w, event);
    EveryWaiterMoves(w, event);
    forall id | id in waiters && (waiters[id].phase.Registered? || waiters[id].phase.Asleep?)
      ensures waiters[id].phase.since <= w.notified
      ensures waiters[id].phase.Asleep? && waiters[id].phase.since == w.notified && !event.Notifies? ==>
        LedgerAfter(w, event).active.Some? || UnnotifiedAfter(w, event) != {}
    {
      assert WaiterMoves(w, event, id, waiters[id]);
      assert turnover.Stays? || turnover.Clears? || turnover.Admits?;
    }
  }

  // ------------------------------------------------------- ages and eviction

  /** Only a submit or a cancel changes which sessions are retained, and only by ensuring its own. */
  lemma OnlyEnsuresSessions(w: World, event: Event)
    requires Enabled(w, event) && Lockable(w, event)
    ensures if event.Submits? || event.Cancels?
            then MayEnsure(w.ledger, event.sessionId, LedgerAfter(w, event))
            else SameSessions(w.ledger, LedgerAfter(w, event))
  {
    match event
    case Submits(_, session, turn, input, _, _) => SubmitMayEnsure(w.ledger, session, turn, input);
    case Cancels(session, turn, _) => CancelMayEnsure(w.ledger, session, turn);
    case _ =>
  }

  lemma NewestLast(order: seq<SessionId>, born: map<SessionId, nat>, clock: nat, session: SessionId)
    requires AgesOk(order, born, clock) && session !in born
    ensures AgesOk(order + [session], born[session := clock], clock + 1)
  {
  }

  lemma AgesOfSame(born: map<SessionId, nat>, asked: Option<SessionId>, clock: nat)
    ensures Ages(born, born.Keys, asked, clock) == born
  {
  }

  lemma AgesOfNew(born: map<SessionId, nat>, session: SessionId, clock: nat)
    requires session !in born
    ensures Ages(born, born.Keys + {session}, Some(session), clock) == born[session := clock]
  {
    assert born - (born.Keys - (born.Keys + {session})) == born;
  }

  lemma AgesOfReplaced(born: map<SessionId, nat>, victim: SessionId, session: SessionId, clock: nat)
    requires victim in born && session !in born
    ensures Ages(born, born.Keys - {victim} + {session}, Some(session), clock) == (born - {victim})[session := clock]
  {
    assert born.Keys - (born.Keys - {victim} + {session}) == {victim};
  }

  lemma EvictedAges(order: seq<SessionId>, born: map<SessionId, nat>, clock: nat, p: nat)
    requires AgesOk(order, born, clock) && NoDuplicates(order) && p < |order|
    ensures AgesOk(RemoveAt(order, p), born - {order[p]}, clock)
  {
    RemoveAtKeepsDistinct(order, p);
    var rest := RemoveAt(order, p);
    assert forall i :: 0 <= i < |rest| ==> rest[i] == order[if i < p then i else i + 1];
  }

  lemma AddedAges(v: Ledger, born: map<SessionId, nat>, clock: nat, session: SessionId)
    requires AgesOk(v.order, born, clock) && born.Keys == v.sessions.Keys && session !in v.sessions
    ensures var w := AddSession(v, session);
      var ages := Ages(born, w.sessions.Keys, Some(session), clock);
      AgesOk(w.order, ages, clock + 1) && ages.Keys == w.sessions.Keys
  {
    NewestLast(v.order, born, clock, session);
    AgesOfNew(born, session, clock);
    assert AddSession(v, session).sessions.Keys == born.Keys + {session};
  }

  /** Creating a session when all places are taken: the victim goes and the new one comes last. */
  lemma ReplacedAges(v: Ledger, born: map<SessionId, nat>, clock: nat, session: SessionId, p: nat)
    requires NoDuplicates(v.order) && AgesOk(v.order, born, clock) && born.Keys == v.sessions.Keys
    requires session !in v.sessions && p < |v.order|
    ensures var w := AddSession(Evict(v, p), session);
      var ages := Ages(born, w.sessions.Keys, Some(session), clock);
      AgesOk(w.order, ages, clock + 1) && ages.Keys == w.sessions.Keys
  {
    var victim := v.order[p];
    EvictedAges(v.order, born, clock, p);
    NewestLast(RemoveAt(v.order, p), born - {victim}, clock, session);
    AgesOfReplaced(born, victim, session, clock);
    ReplacedKeys(v, session, p);
  }

  lemma ReplacedKeys(v: Ledger, session: SessionId, p: nat)
    requires p < |v.order| && v.order[p] in v.sessions
    ensures AddSession(Evict(v, p), session).sessions.Keys == v.sessions.Keys - {v.order[p]} + {session}
  {
  }

  /** What ensuring a session does to the creation order and to the ages. */
  lemma EnsuredAges(v: Ledger, born: map<SessionId, nat>, clock: nat, session: SessionId)
    requires NoDuplicates(v.order) && AgesOk(v.order, born, clock) && born.Keys == v.sessions.Keys
    requires EnsureSession(v, session).Ok?
    ensures var w := EnsureSession(v, session).value;
      var ages := Ages(born, w.sessions.Keys, Some(session), clock);
      AgesOk(w.order, ages, clock + 1) && ages.Keys == w.sessions.Keys
  {
    var w := EnsureSession(v, session).value;
    if session in v.sessions {
      AgesOfSame(born, Some(session), clock);
    } else if |v.sessions| == MAX_SESSIONS {
      ReplacedAges(v, born, clock, session, VictimPosition(v.order, Protected(v)).value);
    } else {
      AddedAges(v, born, clock, session);
    }
  }

  lemma StepKeepsAges(w: World, event: Event)
    requires NoDuplicates(w.ledger.order) && Enabled(w, event) && Lockable(w, event)
    requires AgesOk(w.ledger.order, w.born, w.clock) && w.born.Keys == w.ledger.sessions.Keys
    ensures var v := LedgerAfter(w, event);
      var ages := Ages(w.born, v.sessions.Keys, Asked(event), w.clock);
      AgesOk(v.order, ages, w.clock + 1) && ages.Keys == v.sessions.Keys
  {
    OnlyEnsuresSessions(w, event);
    SessionsDecideAges(w, LedgerAfter(w, event), Asked(event));
  }

  lemma SessionsDecideAges(w: World, v: Ledger, asked: Option<SessionId>)
    requires NoDuplicates(w.ledger.order)
    requires AgesOk(w.ledger.order, w.born, w.clock) && w.born.Keys == w.ledger.sessions.Keys
    requires || SameSessions(w.ledger, v)
             || (asked.Some? && EnsureSession(w.ledger, asked.value).Ok?
                 && SameSessions(EnsureSession(w.ledger, asked.value).value, v))
    ensures var ages := Ages(w.born, v.sessions.Keys, asked, w.clock);
      AgesOk(v.order, ages, w.clock + 1) && ages.Keys == v.sessions.Keys
  {
    if SameSessions(w.ledger, v) {
      AgesOfSame(w.born, asked, w.clock);
    } else {
      EnsuredAges(w.ledger, w.born, w.clock, asked.value);
    }
  }

  // ---------------------------------------------------------------- every run

  /** Every step keeps the whole invariant, and no `expect` in a locked region can fail. */
  lemma StepKeepsSound(w: World, event: Event)
    requires Sound(w) && Enabled(w, event)
    ensures Lockable(w, event)
    ensures Sound(Step(w, event))
  {
    var turnover := EveryStepMoves(w, event);
    var v := LedgerAfter(w, event);
    TurnoverKeepsGuards(w, v, GuardsAfter(w, event), UnnotifiedAfter(w, event), turnover);
    StepKeepsStops(w, event, turnover);
    StepKeepsSleepers(w, event, turnover);
    StepKeepsAges(w, event);
  }

  ghost predicate Follows(w: World, event: Event, output: Output, r: World) {
    Enabled(w, event) && Lockable(w, event) && output == Emit(w, event) && r == Step(w, event)
  }

  /** A run: its worlds, and for each step between two of them the event and what the caller is told. */
  datatype Run = Run(worlds: seq<World>, events: seq<Event>, outputs: seq<Output>)

  ghost predicate IsRun(run: Run) {
    && |run.worlds| == |run.events| + 1 && |run.outputs| == |run.events|
    && run.worlds[0] == INITIAL_WORLD
    && forall i {:trigger run.events[i]} :: 0 <= i < |run.events| ==>
      Follows(run.worlds[i], run.events[i], run.outputs[i], run.worlds[i + 1])
  }

  /** The joint invariant holds in every world of every run. */
  lemma {:induction false} EveryWorldIsSound(run: Run, i: nat)
    requires IsRun(run) && i < |run.worlds|
    ensures Sound(run.worlds[i])
  {
    if i > 0 {
      EveryWorldIsSound(run, i - 1);
      assert Follows(run.worlds[i - 1], run.events[i - 1], run.outputs[i - 1], run.worlds[i]);
      StepKeepsSound(run.worlds[i - 1], run.events[i - 1]);
    }
  }

  /** One step of a run, with everything known about it. */
  lemma RunStep(run: Run, i: nat) returns (turnover: Turnover)
    requires IsRun(run) && i < |run.events|
    ensures Sound(run.worlds[i]) && Follows(run.worlds[i], run.events[i], run.outputs[i], run.worlds[i + 1])
    ensures Moves(run.worlds[i], run.events[i], run.worlds[i + 1].ledger, turnover)
  {
    EveryWorldIsSound(run, i);
    assert Follows(run.worlds[i], run.events[i], run.outputs[i], run.worlds[i + 1]);
    turnover := EveryStepMoves(run.worlds[i], run.events[i]);
  }
}
