/**
  The AgentService turn ledger.  Every region of code that runs under the state lock is one
  function on the value of the locked state; `AgentState` is the program that runs them in place.
 */
module AgentLedger {
  import opened Wrappers
  import opened Text
  import opened AgentTypes
  import opened AgentContext

  const MAX_SESSIONS := 64
  const MAX_RETAINED_TURNS_PER_SESSION := 32

  datatype Lifecycle = Created | Running | Stopping | Stopped

  datatype Profile = Profile(cardInstanceId: nat, systemPrompt: string)

  datatype Session = Session(turns: seq<CompletedTurn>, pending: seq<TurnId>)

  const NEW_SESSION := Session([], [])

  /** The one admitted turn; `cancelled` is the value of its watch channel. */
  datatype ActiveTurn = ActiveTurn(sessionId: SessionId, turnId: TurnId, cancelled: bool)

  datatype Ledger = Ledger(
    lifecycle: Lifecycle,
    profile: Option<Profile>,
    sessions: map<SessionId, Session>,
    order: seq<SessionId>,
    active: Option<ActiveTurn>)

  const INITIAL_LEDGER := Ledger(Created, None, map[], [], None)

  datatype AgentError =
    | BadInput(fault: InputFault)
    | BadDeadline
    | OwnerUnavailable
    | NotRunning
    | NoActiveCard
    | DifferentInput
    | Busy
    | NoEvictableSession
    | CapacityFull
    | LostOwnership
    | IdentityChanged
    | WrongDefinition
    | ProfileAlreadyActive
    | OtherCardOwnsProfile
    | NotCreated

  // ------------------------------------------------------------ searching

  function Position<T(==)>(s: seq<T>, x: T): (p: Option<nat>)
    ensures p.Some? ==> p.value < |s| && s[p.value] == x && x !in s[..p.value]
    ensures p.None? <==> x !in s
  {
    if s == [] then None
    else if s[0] == x then Some(0)
    else
      var p := Position(s[1..], x);
      if p.Some? then Some(p.value + 1) else None
  }

  /** The completed turn with an id. */
  function FindTurn(turns: seq<CompletedTurn>, id: TurnId): (r: Option<CompletedTurn>)
    ensures r.Some? ==> r.value in turns && r.value.turnId == id
    ensures r.None? ==> forall i :: 0 <= i < |turns| ==> turns[i].turnId != id
  {
    if turns == [] then None else if turns[0].turnId == id then Some(turns[0]) else FindTurn(turns[1..], id)
  }

  function Recorded(v: Ledger, session: SessionId, turn: TurnId): (r: Option<CompletedTurn>)
    ensures r.Some? ==> session in v.sessions && r.value in v.sessions[session].turns && r.value.turnId == turn
    ensures r.None? && session in v.sessions ==>
      forall i :: 0 <= i < |v.sessions[session].turns| ==> v.sessions[session].turns[i].turnId != turn
  {
    if session in v.sessions then FindTurn(v.sessions[session].turns, turn) else None
  }

  /** The first position in creation order that does not hold the protected session. */
  function VictimPosition(order: seq<SessionId>, protected: Option<SessionId>): (p: Option<nat>)
    ensures p.Some? ==> p.value < |order| && Some(order[p.value]) != protected
    ensures p.Some? ==> forall i :: 0 <= i < p.value ==> Some(order[i]) == protected
    ensures p.None? ==> forall i :: 0 <= i < |order| ==> Some(order[i]) == protected
  {
    if order == [] then None
    else if Some(order[0]) != protected then Some(0)
    else
      var p := VictimPosition(order[1..], protected);
      if p.Some? then Some(p.value + 1) else None
  }

  // ----------------------------------------------------- the locked regions

  function Protected(v: Ledger): (session: Option<SessionId>) {
    if v.active.Some? then Some(v.active.value.sessionId) else None
  }

  function RemoveAt<T>(s: seq<T>, p: nat): (r: seq<T>)
    requires p < |s|
  {
    s[..p] + s[p + 1..]
  }

  function AddSession(v: Ledger, session: SessionId): (r: Ledger) {
    v.(sessions := v.sessions[session := NEW_SESSION], order := v.order + [session])
  }

  function Evict(v: Ledger, p: nat): (r: Ledger)
    requires p < |v.order|
  {
    v.(sessions := v.sessions - {v.order[p]}, order := RemoveAt(v.order, p))
  }

  function EnsureSession(v: Ledger, session: SessionId): (r: Result<Ledger, AgentError>) {
    if session in v.sessions then Ok(v)
    else if |v.sessions| != MAX_SESSIONS then Ok(AddSession(v, session))
    else
      var p := VictimPosition(v.order, Protected(v));
      if p.None? then Err(NoEvictableSession)
      else
        Ok(AddSession(Evict(v, p.value), session))
  }

  function ActiveIn(active: Option<ActiveTurn>, session: SessionId): (turn: Option<TurnId>) {
    if active.Some? && active.value.sessionId == session then Some(active.value.turnId) else None
  }

  function SlotsUsed(s: Session, reserved: Option<TurnId>): (n: nat) {
    |s.turns| + |s.pending| + if reserved.Some? then 1 else 0
  }

  predicate HasSlot(v: Ledger, session: SessionId)
    requires session in v.sessions
  {
    SlotsUsed(v.sessions[session], ActiveIn(v.active, session)) < MAX_RETAINED_TURNS_PER_SESSION
  }

  function RecordTurn(v: Ledger, session: SessionId, turn: CompletedTurn): (r: Ledger)
    requires session in v.sessions
  {
    var s := v.sessions[session];
    v.(sessions := v.sessions[session := s.(turns := s.turns + [turn])])
  }

  function Pend(v: Ledger, session: SessionId, turn: TurnId): (w: Ledger)
    requires session in v.sessions
  {
    var s := v.sessions[session];
    v.(sessions := v.sessions[session := s.(pending := s.pending + [turn])])
  }

  function ClearPending(v: Ledger, session: SessionId, turn: TurnId): (r: Ledger)
    requires session in v.sessions && turn in v.sessions[session].pending
  {
    var s := v.sessions[session];
    v.(sessions := v.sessions[session := s.(pending := RemoveAt(s.pending, Position(s.pending, turn).value))])
  }

  datatype SubmitOutcome =
    | Answered(terminal: TurnTerminal)
    | Rejected(error: AgentError)
    | Admitted(context: ModelContext)

  function Submit(v: Ledger, session: SessionId, turn: TurnId, input: string): (r: (Ledger, SubmitOutcome)) {
    var completed := Recorded(v, session, turn);
    if v.lifecycle != Running then (v, Rejected(NotRunning))
    else if v.profile.None? then (v, Rejected(NoActiveCard))
    else if completed.Some? then
      (v, if completed.value.input == input then Answered(completed.value.terminal) else Rejected(DifferentInput))
    else if session in v.sessions && turn in v.sessions[session].pending then
      (RecordTurn(ClearPending(v, session, turn), session, CompletedTurn(turn, input, Cancelled)), Answered(Cancelled))
    else if v.active.Some? then (v, Rejected(Busy))
    else
      match EnsureSession(v, session)
      case Err(error) => (v, Rejected(error))
      case Ok(owned) =>
        if !HasSlot(owned, session) then (owned, Rejected(CapacityFull))
        else
          match ContextOf(v.profile.value.systemPrompt, owned.sessions[session].turns, input)
          case Err(reason) =>
            (RecordTurn(owned, session, CompletedTurn(turn, input, Failed(reason))), Answered(Failed(reason)))
          case Ok(context) =>
            (owned.(active := Some(ActiveTurn(session, turn, false))), Admitted(context))
  }

  function SetFlag(v: Ledger): (r: Ledger) {
    if v.active.None? then v else v.(active := Some(v.active.value.(cancelled := true)))
  }

  predicate IsActive(v: Ledger, session: SessionId, turn: TurnId) {
    v.active.Some? && v.active.value.sessionId == session && v.active.value.turnId == turn
  }

  function Cancel(v: Ledger, session: SessionId, turn: TurnId): (r: (Ledger, Result<CancelResult, AgentError>)) {
    var completed := Recorded(v, session, turn);
    if completed.Some? then (v, Ok(AlreadyTerminal(completed.value.terminal)))
    else if IsActive(v, session, turn) then (SetFlag(v), Ok(CancellationRequested))
    else if v.lifecycle != Running || v.profile.None? then (v, Ok(NotActive))
    else
      match EnsureSession(v, session)
      case Err(error) => (v, Err(error))
      case Ok(owned) =>
        var s := owned.sessions[session];
        if turn in s.pending then (owned, Ok(CancellationRequested))
        else if !HasSlot(owned, session) then (owned, Err(CapacityFull))
        else
          (Pend(owned, session, turn), Ok(CancellationRequested))
  }

  /** The decision of `complete`: what is recorded for a proposal. */
  function Settle(v: Ledger, proposed: TurnTerminal): (terminal: TurnTerminal)
    requires v.active.Some?
  {
    if v.active.value.cancelled || v.lifecycle != Running || v.profile.None? then Cancelled else proposed
  }

  function Complete(v: Ledger, session: SessionId, turn: TurnId, input: string, proposed: TurnTerminal)
    : (r: (Ledger, Result<TurnTerminal, AgentError>))
    requires IsActive(v, session, turn) ==> session in v.sessions
  {
    if v.active.None? then (v, Err(LostOwnership))
    else if !IsActive(v, session, turn) then (v, Err(IdentityChanged))
    else
      var terminal := Settle(v, proposed);
      (RecordTurn(v.(active := None), session, CompletedTurn(turn, input, terminal)), Ok(terminal))
  }

  /** Dropping an armed guard; the flag says whether it cleared the active turn. */
  function DropGuard(v: Ledger, session: SessionId, turn: TurnId, input: string): (r: (Ledger, bool)) {
    if !IsActive(v, session, turn) then (v, false)
    else if session !in v.sessions then (v.(active := None), true)
    else (RecordTurn(v.(active := None), session, CompletedTurn(turn, input, Cancelled)), true)
  }

  function Activate(v: Ledger, profile: Profile): (r: (Ledger, Option<AgentError>)) {
    if v.lifecycle != Running then (v, Some(NotRunning))
    else if v.profile.Some? then (v, Some(ProfileAlreadyActive))
    else (v.(profile := Some(profile)), None)
  }

  /** How the first region of a stop or deactivate call ends. */
  datatype BeginOutcome = MustWait | Done | Refused(error: AgentError)

  function DeactivateBegin(v: Ledger, cardInstanceId: nat): (r: (Ledger, BeginOutcome)) {
    if v.profile.None? then (v, Done)
    else if v.profile.value.cardInstanceId != cardInstanceId then (v, Refused(OtherCardOwnsProfile))
    else (SetFlag(v.(profile := None)), MustWait)
  }

  function Start(v: Ledger): (r: (Ledger, Option<AgentError>)) {
    if v.lifecycle != Created then (v, Some(NotCreated)) else (v.(lifecycle := Running), None)
  }

  function StopBegin(v: Ledger): (r: (Ledger, BeginOutcome)) {
    match v.lifecycle
    case Created => (v.(lifecycle := Stopped), Done)
    case Stopped => (v, Done)
    case _ => (SetFlag(v.(lifecycle := Stopping, profile := None)), MustWait)
  }

  function StopFinish(v: Ledger): (r: Ledger) {
    v.(lifecycle := Stopped)
  }

  /** Dropping the service itself. */
  function DropService(v: Ledger): (r: Ledger) {
    SetFlag(v.(lifecycle := Stopped, profile := None))
  }

  // ------------------------------------------------- calls through the handle

  /** A submit call up to the end of its locked region; `owned` tells whether the service still exists. */
  function SubmitCall(v: Ledger, owned: bool, session: SessionId, turn: TurnId, input: string, deadlineNanos: nat)
    : (r: (Ledger, SubmitOutcome))
  {
    var fault := InputFaultOf(input);
    if fault.Some? then (v, Rejected(BadInput(fault.value)))
    else if !ValidDeadline(deadlineNanos) then (v, Rejected(BadDeadline))
    else if !owned then (v, Rejected(OwnerUnavailable))
    else Submit(v, session, turn, input)
  }

  function CancelCall(v: Ledger, owned: bool, session: SessionId, turn: TurnId)
    : (r: (Ledger, Result<CancelResult, AgentError>))
  {
    if owned then Cancel(v, session, turn) else (v, Err(OwnerUnavailable))
  }

  function ActivateCall(v: Ledger, owned: bool, definitionMatches: bool, profile: Profile)
    : (r: (Ledger, Option<AgentError>))
  {
    if !owned then (v, Some(OwnerUnavailable))
    else if !definitionMatches then (v, Some(WrongDefinition))
    else Activate(v, profile)
  }

  function DeactivateCall(v: Ledger, owned: bool, cardInstanceId: nat): (r: (Ledger, BeginOutcome)) {
    if owned then DeactivateBegin(v, cardInstanceId) else (v, Refused(OwnerUnavailable))
  }

  // --------------------------------------------------------- the joint invariant

  ghost predicate NoDuplicates<T>(s: seq<T>) {
    forall i, j :: 0 <= i < j < |s| ==> s[i] != s[j]
  }

  ghost predicate Listed(sessions: map<SessionId, Session>, order: seq<SessionId>) {
    && NoDuplicates(order)
    && (forall s :: s in order <==> s in sessions)
    && |order| <= MAX_SESSIONS
  }

  /** Completed, pending and active turn ids are pairwise distinct and within capacity. */
  ghost predicate SessionOk(s: Session, reserved: Option<TurnId>) {
    && (forall i, j :: 0 <= i < j < |s.turns| ==> s.turns[i].turnId != s.turns[j].turnId)
    && NoDuplicates(s.pending)
    && (forall i :: 0 <= i < |s.turns| ==> s.turns[i].turnId !in s.pending)
    && (reserved.Some? ==> reserved.value !in s.pending)
    && (reserved.Some? ==> forall i :: 0 <= i < |s.turns| ==> s.turns[i].turnId != reserved.value)
    && SlotsUsed(s, reserved) <= MAX_RETAINED_TURNS_PER_SESSION
  }

  ghost predicate SessionsOk(sessions: map<SessionId, Session>, active: Option<ActiveTurn>) {
    && (active.Some? ==> active.value.sessionId in sessions)
    && forall s :: s in sessions ==> SessionOk(sessions[s], ActiveIn(active, s))
  }

  /** The cancel flag, the profile and the lifecycle agree. */
  ghost predicate FlagsOk(v: Ledger) {
    && (v.profile.Some? ==> v.lifecycle == Running)
    && (v.active.Some? && !v.active.value.cancelled ==> v.profile.Some?)
    && (v.lifecycle == Created ==> v.active.None?)
  }

  ghost predicate Coherent(v: Ledger) {
    Listed(v.sessions, v.order) && SessionsOk(v.sessions, v.active) && FlagsOk(v)
  }

  // ---------------------------------------------------------- order and eviction

  lemma {:induction false} ListedSize(sessions: map<SessionId, Session>, order: seq<SessionId>)
    requires NoDuplicates(order) && forall s :: s in order <==> s in sessions
    ensures |sessions| == |order|
  {
    if order == [] {
      assert sessions.Keys == {};
    } else {
      var n := |order| - 1;
      var last, rest := order[n], order[..n];
      assert order == rest + [last];
      var fewer := sessions - {last};
      assert sessions.Keys == fewer.Keys + {last};
      ListedSize(fewer, rest);
    }
  }

  /**
    A new session always finds a place: when all 64 are taken, the victim is the oldest session
    other than the active one, at position 0 or 1 of the creation order.
   */
  lemma EvictionTakesOldestInactive(v: Ledger, session: SessionId)
    requires Coherent(v)
    ensures EnsureSession(v, session).Ok?
    ensures |v.sessions| == MAX_SESSIONS ==>
      VictimPosition(v.order, Protected(v)) == Some(if Some(v.order[0]) == Protected(v) then 1 else 0)
  {
    ListedSize(v.sessions, v.order);
    if |v.sessions| == MAX_SESSIONS {
      assert v.order[0] != v.order[1];
    }
  }

  lemma RemoveAtKeepsDistinct<T>(s: seq<T>, p: nat)
    requires NoDuplicates(s) && p < |s|
    ensures NoDuplicates(RemoveAt(s, p))
    ensures forall x :: x in RemoveAt(s, p) <==> x in s && x != s[p]
  {
    var r := RemoveAt(s, p);
    forall x ensures x in r <==> x in s && x != s[p] {
      if x in s && x != s[p] {
        var i :| 0 <= i < |s| && s[i] == x;
        assert r[if i < p then i else i - 1] == x;
      }
    }
  }

  lemma EvictKeeps(v: Ledger, p: nat)
    requires Coherent(v) && p < |v.order| && Some(v.order[p]) != Protected(v)
    ensures Coherent(Evict(v, p)) && |Evict(v, p).order| == |v.order| - 1
    ensures forall s :: s in Evict(v, p).sessions ==> s in v.sessions
  {
    RemoveAtKeepsDistinct(v.order, p);
  }

  lemma AddSessionKeeps(v: Ledger, session: SessionId)
    requires Coherent(v) && session !in v.sessions && |v.order| < MAX_SESSIONS
    ensures Coherent(AddSession(v, session))
    ensures HasSlot(AddSession(v, session), session)
  {
    assert session !in v.order;
    assert ActiveIn(v.active, session).None?;
  }

  /** What `ensure_session` does to a coherent ledger. */
  lemma EnsureSessionKeeps(v: Ledger, session: SessionId)
    requires Coherent(v)
    ensures var r := EnsureSession(v, session);
      && r.Ok? && Coherent(r.value) && session in r.value.sessions
      && (session in v.sessions ==> r.value == v)
      && (session !in v.sessions ==> r.value.sessions[session] == NEW_SESSION && HasSlot(r.value, session))
      && (forall s :: s in r.value.sessions && s != session ==> s in v.sessions && r.value.sessions[s] == v.sessions[s])
  {
    EvictionTakesOldestInactive(v, session);
    ListedSize(v.sessions, v.order);
    if session !in v.sessions {
      if |v.sessions| == MAX_SESSIONS {
        var p := VictimPosition(v.order, Protected(v)).value;
        EvictKeeps(v, p);
        AddSessionKeeps(Evict(v, p), session);
      } else {
        AddSessionKeeps(v, session);
      }
    }
  }

  // -------------------------------------------------- what every region keeps

  datatype Record = Record(session: SessionId, turn: CompletedTurn)

  function TurnsOf(v: Ledger, session: SessionId): (turns: seq<CompletedTurn>) {
    if session in v.sessions then v.sessions[session].turns else []
  }

  /** Every retained session's turn list is the old one, with the given record appended to its own. */
  ghost predicate Appends(v: Ledger, w: Ledger, record: Option<Record>) {
    && (record.Some? ==> record.value.session in w.sessions)
    && forall s :: s in w.sessions ==>
      w.sessions[s].turns ==
        if record.Some? && record.value.session == s then TurnsOf(v, s) + [record.value.turn] else TurnsOf(v, s)
  }

  /** A turn whose cancellation was promised: it has no terminal yet, or it has `Cancelled`. */
  ghost predicate Doomed(v: Ledger, session: SessionId, turn: TurnId) {
    && session in v.sessions
    && var recorded := Recorded(v, session, turn);
       if recorded.Some? then recorded.value.terminal == Cancelled
       else turn in v.sessions[session].pending || (IsActive(v, session, turn) && v.active.value.cancelled)
  }

  /** No promise of cancellation is forgotten for a session that is retained. */
  ghost predicate KeepsPromises(v: Ledger, w: Ledger) {
    forall s, t :: Doomed(v, s, t) && s in w.sessions ==> Doomed(w, s, t)
  }

  /** What a submit, a cancel, a completion or a guard drop does to a coherent ledger. */
  ghost predicate Advances(v: Ledger, w: Ledger, record: Option<Record>) {
    && Coherent(w)
    && Appends(v, w, record)
    && KeepsPromises(v, w)
    && w.lifecycle == v.lifecycle
    && w.profile == v.profile
  }

  lemma AdvancesNot(v: Ledger)
    requires Coherent(v)
    ensures Advances(v, v, None)
  {
  }

  lemma AppendsTwice(v: Ledger, middle: Ledger, w: Ledger, record: Option<Record>)
    requires Appends(v, middle, None) && Appends(middle, w, record)
    requires forall s :: s in w.sessions ==> s in middle.sessions
    ensures Appends(v, w, record)
  {
  }

  lemma AdvancesTwice(v: Ledger, middle: Ledger, w: Ledger, record: Option<Record>)
    requires Advances(v, middle, None) && Advances(middle, w, record)
    requires forall s :: s in w.sessions ==> s in middle.sessions
    ensures Advances(v, w, record)
  {
    AppendsTwice(v, middle, w, record);
    forall s, t | Doomed(v, s, t) && s in w.sessions ensures Doomed(w, s, t) {
      assert Doomed(middle, s, t);
    }
  }

  /** A promise depends only on its own session and on the active turn. */
  lemma DoomedDepends(v: Ledger, w: Ledger, session: SessionId, turn: TurnId)
    requires Doomed(v, session, turn) && session in w.sessions
    requires w.sessions[session] == v.sessions[session]
    requires IsActive(v, session, turn) ==> w.active == v.active
    ensures Doomed(w, session, turn)
  {
  }

  function Rank(lifecycle: Lifecycle): (n: nat) {
    match lifecycle
    case Created => 0
    case Running => 1
    case Stopping => 2
    case Stopped => 3
  }

  lemma {:induction false} FindAppended(turns: seq<CompletedTurn>, turn: CompletedTurn, id: TurnId)
    ensures FindTurn(turns + [turn], id) ==
      if FindTurn(turns, id).Some? then FindTurn(turns, id)
      else if turn.turnId == id then Some(turn) else None
  {
    if turns == [] {
      assert [] + [turn] == [turn];
    } else {
      assert (turns + [turn])[1..] == turns[1..] + [turn];
      FindAppended(turns[1..], turn, id);
    }
  }

  /** A turn may be recorded in a session of a coherent ledger. */
  ghost predicate Recordable(v: Ledger, session: SessionId, turn: TurnId) {
    && session in v.sessions
    && HasSlot(v, session)
    && Recorded(v, session, turn).None?
    && turn !in v.sessions[session].pending
    && ActiveIn(v.active, session) != Some(turn)
  }

  lemma RecordCoherent(v: Ledger, session: SessionId, turn: CompletedTurn)
    requires Coherent(v) && Recordable(v, session, turn.turnId)
    ensures Coherent(RecordTurn(v, session, turn))
  {
    assert SessionOk(v.sessions[session], ActiveIn(v.active, session));
  }

  lemma RecordKeeps(v: Ledger, session: SessionId, turn: CompletedTurn)
    requires Coherent(v) && Recordable(v, session, turn.turnId)
    ensures Advances(v, RecordTurn(v, session, turn), Some(Record(session, turn)))
    ensures Recorded(RecordTurn(v, session, turn), session, turn.turnId) == Some(turn)
  {
    var w := RecordTurn(v, session, turn);
    RecordCoherent(v, session, turn);
    FindAppended(v.sessions[session].turns, turn, turn.turnId);
    forall s, t | Doomed(v, s, t) ensures Doomed(w, s, t) {
      if s == session {
        FindAppended(v.sessions[session].turns, turn, t);
      } else {
        DoomedDepends(v, w, s, t);
      }
    }
  }

  lemma ClearPendingCoherent(v: Ledger, session: SessionId, turn: TurnId)
    requires Coherent(v) && session in v.sessions && turn in v.sessions[session].pending
    ensures Coherent(ClearPending(v, session, turn))
  {
    var s := v.sessions[session];
    assert SessionOk(s, ActiveIn(v.active, session));
    RemoveAtKeepsDistinct(s.pending, Position(s.pending, turn).value);
  }

  lemma ClearPendingRecordable(v: Ledger, session: SessionId, turn: TurnId)
    requires Coherent(v) && session in v.sessions && turn in v.sessions[session].pending
    ensures Recordable(ClearPending(v, session, turn), session, turn)
    ensures Appends(v, ClearPending(v, session, turn), None)
  {
    var s := v.sessions[session];
    assert SessionOk(s, ActiveIn(v.active, session));
    RemoveAtKeepsDistinct(s.pending, Position(s.pending, turn).value);
  }

  lemma ClearPendingPromises(v: Ledger, session: SessionId, turn: TurnId)
    requires Coherent(v) && session in v.sessions && turn in v.sessions[session].pending
    ensures var w := ClearPending(v, session, turn);
      forall s, t :: Doomed(v, s, t) && !(s == session && t == turn) ==> Doomed(w, s, t)
  {
    var w := ClearPending(v, session, turn);
    RemoveAtKeepsDistinct(v.sessions[session].pending, Position(v.sessions[session].pending, turn).value);
    forall s, t | Doomed(v, s, t) && !(s == session && t == turn) ensures Doomed(w, s, t) {
      if s != session {
        DoomedDepends(v, w, s, t);
      }
    }
  }

  lemma NewSessionAdvances(v: Ledger, w: Ledger, session: SessionId)
    requires Coherent(w) && w.active == v.active && w.lifecycle == v.lifecycle && w.profile == v.profile
    requires session in w.sessions
    requires w.sessions[session] == if session in v.sessions then v.sessions[session] else NEW_SESSION
    requires forall s :: s in w.sessions && s != session ==> s in v.sessions && w.sessions[s] == v.sessions[s]
    ensures Advances(v, w, None)
  {
    forall s, t | Doomed(v, s, t) && s in w.sessions ensures Doomed(w, s, t) {
      DoomedDepends(v, w, s, t);
    }
  }

  lemma EnsureSessionControls(v: Ledger, session: SessionId)
    requires EnsureSession(v, session).Ok?
    ensures var w := EnsureSession(v, session).value;
      w.active == v.active && w.lifecycle == v.lifecycle && w.profile == v.profile
  {
  }

  lemma EnsureSessionAdvances(v: Ledger, session: SessionId)
    requires Coherent(v)
    ensures EnsureSession(v, session).Ok?
    ensures Advances(v, EnsureSession(v, session).value, None)
    ensures EnsureSession(v, session).value.active == v.active
  {
    EnsureSessionKeeps(v, session);
    EnsureSessionControls(v, session);
    NewSessionAdvances(v, EnsureSession(v, session).value, session);
  }

  /** The record a submit makes at once, if it makes one. */
  function SubmitRecord(v: Ledger, outcome: SubmitOutcome, session: SessionId, turn: TurnId, input: string)
    : (record: Option<Record>)
  {
    if outcome.Answered? && Recorded(v, session, turn).None?
    then Some(Record(session, CompletedTurn(turn, input, outcome.terminal)))
    else None
  }

  /** A pending promise is redeemed: clearing its tombstone and then recording the turn is one advance. */
  lemma Redeemed(v: Ledger, cleared: Ledger, session: SessionId, turn: CompletedTurn)
    requires Coherent(cleared) && Recordable(cleared, session, turn.turnId) && turn.terminal == Cancelled
    requires Appends(v, cleared, None) && cleared.lifecycle == v.lifecycle && cleared.profile == v.profile
    requires forall s, t :: Doomed(v, s, t) && !(s == session && t == turn.turnId) ==> Doomed(cleared, s, t)
    ensures var w := RecordTurn(cleared, session, turn);
      Advances(v, w, Some(Record(session, turn))) && Recorded(w, session, turn.turnId) == Some(turn)
  {
    var w := RecordTurn(cleared, session, turn);
    RecordKeeps(cleared, session, turn);
    AppendsTwice(v, cleared, w, Some(Record(session, turn)));
    forall s, t | Doomed(v, s, t) && s in w.sessions ensures Doomed(w, s, t) {
      if !(s == session && t == turn.turnId) {
        assert Doomed(cleared, s, t);
      }
    }
  }

  lemma AdmitKeeps(v: Ledger, session: SessionId, turn: TurnId)
    requires Coherent(v) && v.active.None? && v.profile.Some? && Recordable(v, session, turn)
    ensures Advances(v, v.(active := Some(ActiveTurn(session, turn, false))), None)
  {
    var w := v.(active := Some(ActiveTurn(session, turn, false)));
    forall s, t | Doomed(v, s, t) ensures Doomed(w, s, t) {
      DoomedDepends(v, w, s, t);
    }
  }

  /** A submit that gets as far as its session. */
  lemma FreshSubmit(v: Ledger, session: SessionId, turn: TurnId)
    requires Coherent(v) && Recorded(v, session, turn).None? && ActiveIn(v.active, session) != Some(turn)
    requires session in v.sessions ==> turn !in v.sessions[session].pending
    ensures var r := EnsureSession(v, session);
      && r.Ok? && Advances(v, r.value, None) && r.value.active == v.active && session in r.value.sessions
      && r.value.sessions[session].turns == TurnsOf(v, session)
      && if HasSlot(r.value, session) then Recordable(r.value, session, turn) else r.value == v
  {
    EnsureSessionKeeps(v, session);
    EnsureSessionAdvances(v, session);
  }

  lemma SubmitRunsOver(v: Ledger, session: SessionId, turn: CompletedTurn)
    requires Coherent(v) && Recorded(v, session, turn.turnId).None? && ActiveIn(v.active, session) != Some(turn.turnId)
    requires session in v.sessions ==> turn.turnId !in v.sessions[session].pending
    requires HasSlot(FreshOwner(v, session), session)
    ensures var w := RecordTurn(FreshOwner(v, session), session, turn);
      Advances(v, w, Some(Record(session, turn))) && Recorded(w, session, turn.turnId) == Some(turn)
  {
    FreshSubmit(v, session, turn.turnId);
    var owned := FreshOwner(v, session);
    RecordKeeps(owned, session, turn);
    AdvancesTwice(v, owned, RecordTurn(owned, session, turn), Some(Record(session, turn)));
  }

  /** The ledger once the session of a submit is owned. */
  ghost function FreshOwner(v: Ledger, session: SessionId): (w: Ledger)
    requires Coherent(v)
    ensures session in w.sessions
  {
    EnsureSessionKeeps(v, session);
    EnsureSession(v, session).value
  }

  lemma SubmitAdmits(v: Ledger, session: SessionId, turn: TurnId)
    requires Coherent(v) && v.active.None? && v.profile.Some? && Recorded(v, session, turn).None?
    requires session in v.sessions ==> turn !in v.sessions[session].pending
    requires HasSlot(FreshOwner(v, session), session)
    ensures var owned := FreshOwner(v, session);
      && Recordable(owned, session, turn) && owned.active == None
      && Advances(v, owned.(active := Some(ActiveTurn(session, turn, false))), None)
  {
    FreshSubmit(v, session, turn);
    var owned := FreshOwner(v, session);
    AdmitKeeps(owned, session, turn);
    AdvancesTwice(v, owned, owned.(active := Some(ActiveTurn(session, turn, false))), None);
  }

  /** Answers and admissions of a submit, beside the ledger it leaves. */
  ghost predicate SubmitAnswers(
    v: Ledger, w: Ledger, outcome: SubmitOutcome, session: SessionId, turn: TurnId, input: string) {
    match outcome
    case Rejected(error) => w == v && error in {NotRunning, NoActiveCard, DifferentInput, Busy, CapacityFull}
    case Answered(terminal) =>
      w.active == v.active && Recorded(w, session, turn) == Some(CompletedTurn(turn, input, terminal))
    case Admitted(context) =>
      && v.active.None? && w.active == Some(ActiveTurn(session, turn, false))
      && Recordable(w.(active := None), session, turn)
      && v.profile.Some?
      && Ok(context) == ContextOf(v.profile.value.systemPrompt, TurnsOf(v, session), input)
  }

  /** What a submit promises. */
  ghost predicate SubmitOk(
    v: Ledger, w: Ledger, outcome: SubmitOutcome, session: SessionId, turn: TurnId, input: string) {
    && Advances(v, w, SubmitRecord(v, outcome, session, turn, input))
    && SubmitAnswers(v, w, outcome, session, turn, input)
  }

  lemma RedeemedEarly(v: Ledger, session: SessionId, turn: TurnId, input: string)
    requires Coherent(v) && session in v.sessions && turn in v.sessions[session].pending
    requires Recorded(v, session, turn).None?
    ensures var record := CompletedTurn(turn, input, Cancelled);
      var w := RecordTurn(ClearPending(v, session, turn), session, record);
      Advances(v, w, Some(Record(session, record))) && Recorded(w, session, turn) == Some(record)
  {
    ClearPendingCoherent(v, session, turn);
    ClearPendingRecordable(v, session, turn);
    ClearPendingPromises(v, session, turn);
    Redeemed(v, ClearPending(v, session, turn), session, CompletedTurn(turn, input, Cancelled));
  }

  /** A late submit of a turn cancelled in advance is answered and recorded as cancelled, in one advance. */
  lemma SubmitCancelledEarly(v: Ledger, session: SessionId, turn: TurnId, input: string)
    requires Coherent(v) && IsOpen(v) && Recorded(v, session, turn).None? && IsPending(v, session, turn)
    ensures var (w, outcome) := Submit(v, session, turn, input);
      var record := CompletedTurn(turn, input, Cancelled);
      && outcome == Answered(Cancelled) && w.active == v.active
      && Advances(v, w, Some(Record(session, record))) && Recorded(w, session, turn) == Some(record)
      && turn !in w.sessions[session].pending
  {
    RedeemedEarly(v, session, turn, input);
    EarlySubmitIs(v, session, turn, input);
    ClearPendingRecordable(v, session, turn);
  }

  lemma EarlySubmitIs(v: Ledger, session: SessionId, turn: TurnId, input: string)
    requires IsOpen(v) && Recorded(v, session, turn).None? && IsPending(v, session, turn)
    ensures var w := RecordTurn(ClearPending(v, session, turn), session, CompletedTurn(turn, input, Cancelled));
      Submit(v, session, turn, input) == (w, Answered(Cancelled)) && w.active == v.active
  {
  }

  lemma EarlySubmitOk(v: Ledger, session: SessionId, turn: TurnId, input: string)
    requires Coherent(v) && IsOpen(v) && Recorded(v, session, turn).None? && IsPending(v, session, turn)
    ensures var (w, outcome) := Submit(v, session, turn, input); SubmitOk(v, w, outcome, session, turn, input)
  {
    SubmitCancelledEarly(v, session, turn, input);
    AnsweredSubmitOk(v, session, turn, input, Submit(v, session, turn, input).0, Cancelled);
  }

  lemma AnsweredSubmitOk(
    v: Ledger, session: SessionId, turn: TurnId, input: string, w: Ledger, terminal: TurnTerminal)
    requires Recorded(v, session, turn).None? && w.active == v.active
    requires Recorded(w, session, turn) == Some(CompletedTurn(turn, input, terminal))
    requires Advances(v, w, Some(Record(session, CompletedTurn(turn, input, terminal))))
    ensures SubmitOk(v, w, Answered(terminal), session, turn, input)
  {
  }

  /** A submit that gets as far as its context. */
  ghost predicate ReachesContext(v: Ledger, session: SessionId, turn: TurnId) {
    && Coherent(v) && v.lifecycle == Running && v.profile.Some? && v.active.None?
    && Recorded(v, session, turn).None?
    && (session in v.sessions ==> turn !in v.sessions[session].pending)
    && HasSlot(FreshOwner(v, session), session)
  }

  ghost function FreshContext(v: Ledger, session: SessionId, turn: TurnId, input: string)
    : (r: Result<ModelContext, TurnFailure>)
    requires ReachesContext(v, session, turn)
  {
    ContextOf(v.profile.value.systemPrompt, FreshOwner(v, session).sessions[session].turns, input)
  }

  lemma SubmitIsOverlong(v: Ledger, session: SessionId, turn: TurnId, input: string)
    requires ReachesContext(v, session, turn) && FreshContext(v, session, turn, input).Err?
    ensures var terminal := Failed(FreshContext(v, session, turn, input).error);
      Submit(v, session, turn, input) ==
      (RecordTurn(FreshOwner(v, session), session, CompletedTurn(turn, input, terminal)), Answered(terminal))
    ensures FreshOwner(v, session).active == v.active
  {
    EnsureSessionKeeps(v, session);
  }

  lemma OverlongSubmitOk(v: Ledger, session: SessionId, turn: TurnId, input: string)
    requires ReachesContext(v, session, turn) && FreshContext(v, session, turn, input).Err?
    ensures var (w, outcome) := Submit(v, session, turn, input); SubmitOk(v, w, outcome, session, turn, input)
  {
    var owned, terminal := FreshOwner(v, session), Failed(FreshContext(v, session, turn, input).error);
    var record := CompletedTurn(turn, input, terminal);
    SubmitIsOverlong(v, session, turn, input);
    SubmitRunsOver(v, session, record);
    AnsweredSubmitOk(v, session, turn, input, RecordTurn(owned, session, record), terminal);
  }

  lemma AdmittedSubmitOk(v: Ledger, session: SessionId, turn: TurnId, input: string)
    requires ReachesContext(v, session, turn) && FreshContext(v, session, turn, input).Ok?
    ensures var (w, outcome) := Submit(v, session, turn, input); SubmitOk(v, w, outcome, session, turn, input)
  {
    FreshSubmit(v, session, turn);
    SubmitAdmits(v, session, turn);
  }

  /** A rejected submit leaves the whole state unchanged, though its session was ensured first. */
  lemma RejectedSubmitChangesNothing(v: Ledger, session: SessionId, turn: TurnId, input: string)
    requires Coherent(v) && Submit(v, session, turn, input).1.Rejected?
    ensures Submit(v, session, turn, input).0 == v
    ensures Submit(v, session, turn, input).1.error in {NotRunning, NoActiveCard, DifferentInput, Busy, CapacityFull}
  {
    EnsureSessionKeeps(v, session);
  }

  /**
    A submit keeps the joint invariant and every promise, appends at most the record it answers
    with, and changes nothing when it is rejected; no internal error is reachable.
   */
  lemma SubmitKeeps(v: Ledger, session: SessionId, turn: TurnId, input: string)
    requires Coherent(v)
    ensures var (w, outcome) := Submit(v, session, turn, input); SubmitOk(v, w, outcome, session, turn, input)
  {
    var outcome := Submit(v, session, turn, input).1;
    if outcome.Rejected? {
      RejectedSubmitChangesNothing(v, session, turn, input);
      AdvancesNot(v);
    } else if Recorded(v, session, turn).Some? {
      AdvancesNot(v);
    } else if session in v.sessions && turn in v.sessions[session].pending {
      EarlySubmitOk(v, session, turn, input);
    } else {
      EnsureSessionKeeps(v, session);
      if FreshContext(v, session, turn, input).Ok? {
        AdmittedSubmitOk(v, session, turn, input);
      } else {
        OverlongSubmitOk(v, session, turn, input);
      }
    }
  }

  /** The same, for the whole call: validation and an unavailable owner change nothing either. */
  lemma SubmitCallKeeps(v: Ledger, owned: bool, session: SessionId, turn: TurnId, input: string, deadlineNanos: nat)
    requires Coherent(v)
    ensures var (w, outcome) := SubmitCall(v, owned, session, turn, input, deadlineNanos);
      && Advances(v, w, SubmitRecord(v, outcome, session, turn, input))
      && (outcome.Rejected? ==> w == v && outcome.error != NoEvictableSession)
      && (!outcome.Rejected? ==>
            ValidInput(input) && owned && v.lifecycle == Running && SubmitAnswers(v, w, outcome, session, turn, input))
  {
    var outcome := SubmitCall(v, owned, session, turn, input, deadlineNanos).1;
    if outcome == Submit(v, session, turn, input).1 {
      SubmitKeeps(v, session, turn, input);
    }
    AdvancesNot(v);
  }

  lemma PendCoherent(v: Ledger, session: SessionId, turn: TurnId)
    requires Coherent(v) && Recordable(v, session, turn)
    ensures Coherent(Pend(v, session, turn))
  {
    assert SessionOk(v.sessions[session], ActiveIn(v.active, session));
  }

  lemma PendKeeps(v: Ledger, session: SessionId, turn: TurnId)
    requires Coherent(v) && Recordable(v, session, turn)
    ensures Advances(v, Pend(v, session, turn), None) && Doomed(Pend(v, session, turn), session, turn)
  {
    var w := Pend(v, session, turn);
    PendCoherent(v, session, turn);
    forall s, t | Doomed(v, s, t) ensures Doomed(w, s, t) {
      if s != session {
        DoomedDepends(v, w, s, t);
      }
    }
  }

  lemma FlagKeeps(v: Ledger)
    requires Coherent(v)
    ensures Advances(v, SetFlag(v), None)
    ensures v.active.Some? ==> Doomed(SetFlag(v), v.active.value.sessionId, v.active.value.turnId)
  {
    var w := SetFlag(v);
    forall s | s in w.sessions ensures SessionOk(w.sessions[s], ActiveIn(w.active, s)) {
      assert ActiveIn(w.active, s) == ActiveIn(v.active, s);
    }
    if v.active.Some? {
      var s := v.sessions[v.active.value.sessionId];
      assert SessionOk(s, Some(v.active.value.turnId));
      assert Recorded(v, v.active.value.sessionId, v.active.value.turnId).None?;
    }
  }

  /** The answers of a cancel, beside the ledger it leaves. */
  ghost predicate CancelAnswers(
    v: Ledger, w: Ledger, r: Result<CancelResult, AgentError>, session: SessionId, turn: TurnId) {
    match r
    case Err(error) => w == v && error == CapacityFull
    case Ok(NotActive) => w == v
    case Ok(CancellationRequested) => Doomed(w, session, turn)
    case Ok(AlreadyTerminal(terminal)) =>
      w == v && Recorded(v, session, turn).Some? && Recorded(v, session, turn).value.terminal == terminal
  }

  /** The same turn is active before and after. */
  ghost predicate SameActive(v: Ledger, w: Ledger) {
    && (w.active.Some? <==> v.active.Some?)
    && (v.active.Some? ==> IsActive(w, v.active.value.sessionId, v.active.value.turnId))
  }

  lemma CancelAhead(v: Ledger, session: SessionId, turn: TurnId)
    requires Coherent(v) && Recorded(v, session, turn).None? && !IsActive(v, session, turn)
    requires session in v.sessions ==> turn !in v.sessions[session].pending
    requires HasSlot(FreshOwner(v, session), session)
    ensures var owned := FreshOwner(v, session);
      Advances(v, Pend(owned, session, turn), None) && Doomed(Pend(owned, session, turn), session, turn)
  {
    FreshSubmit(v, session, turn);
    var owned := FreshOwner(v, session);
    PendKeeps(owned, session, turn);
    AdvancesTwice(v, owned, Pend(owned, session, turn), None);
  }

  /** What a cancel promises. */
  ghost predicate CancelOk(
    v: Ledger, w: Ledger, r: Result<CancelResult, AgentError>, session: SessionId, turn: TurnId) {
    Advances(v, w, None) && CancelAnswers(v, w, r, session, turn) && SameActive(v, w)
  }

  lemma CancelOfActiveOk(v: Ledger, session: SessionId, turn: TurnId)
    requires Coherent(v) && IsActive(v, session, turn)
    ensures CancelOk(v, SetFlag(v), Ok(CancellationRequested), session, turn)
  {
    FlagKeeps(v);
  }

  lemma CancelAheadOk(v: Ledger, session: SessionId, turn: TurnId)
    requires Coherent(v) && Recorded(v, session, turn).None? && !IsActive(v, session, turn)
    requires session in v.sessions ==> turn !in v.sessions[session].pending
    requires HasSlot(FreshOwner(v, session), session)
    ensures CancelOk(v, Pend(FreshOwner(v, session), session, turn), Ok(CancellationRequested), session, turn)
  {
    EnsureSessionAdvances(v, session);
    CancelAhead(v, session, turn);
  }

  /** A cancel that finds a terminal, a tombstone, a closed service or no room changes nothing. */
  lemma CancelChangesNothing(v: Ledger, session: SessionId, turn: TurnId)
    requires Coherent(v)
    requires || Recorded(v, session, turn).Some?
             || (!IsActive(v, session, turn)
                 && (!IsOpen(v) || IsPending(v, session, turn) || !HasSlot(FreshOwner(v, session), session)))
    ensures Cancel(v, session, turn).0 == v
    ensures CancelAnswers(v, v, Cancel(v, session, turn).1, session, turn)
  {
    EnsureSessionKeeps(v, session);
  }

  /**
    A cancel keeps the joint invariant and every promise, records nothing, changes nothing when it
    fails, and dooms the turn when it answers that cancellation was requested.
   */
  lemma CancelKeeps(v: Ledger, session: SessionId, turn: TurnId)
    requires Coherent(v)
    ensures var (w, r) := Cancel(v, session, turn); CancelOk(v, w, r, session, turn)
  {
    if Recorded(v, session, turn).Some? {
      CancelChangesNothing(v, session, turn);
      AdvancesNot(v);
    } else if IsActive(v, session, turn) {
      CancelOfActiveOk(v, session, turn);
    } else if IsOpen(v) && !IsPending(v, session, turn) && HasSlot(FreshOwner(v, session), session) {
      EnsureSessionKeeps(v, session);
      CancelAheadOk(v, session, turn);
    } else {
      CancelChangesNothing(v, session, turn);
      AdvancesNot(v);
    }
  }

  /** Retention is what the promises rest on: a session that was evicted returns with no record and no promise. */
  lemma ReturningSessionsForget(v: Ledger, session: SessionId, turn: TurnId)
    requires Coherent(v) && session !in v.sessions
    ensures EnsureSession(v, session).Ok?
    ensures var w := EnsureSession(v, session).value;
      session in w.sessions && Recorded(w, session, turn).None? && !Doomed(w, session, turn)
  {
    EnsureSessionKeeps(v, session);
    EnsureSessionAdvances(v, session);
  }

  // ---------------------------------------------------------- exact conditions

  /** Turns are admitted at all. */
  predicate IsOpen(v: Ledger) {
    v.lifecycle == Running && v.profile.Some?
  }

  /** The session is new or has a free slot. */
  predicate HasRoom(v: Ledger, session: SessionId) {
    session in v.sessions ==> HasSlot(v, session)
  }

  predicate IsPending(v: Ledger, session: SessionId, turn: TurnId) {
    session in v.sessions && turn in v.sessions[session].pending
  }

  lemma RoomIsKept(v: Ledger, session: SessionId)
    requires Coherent(v)
    ensures HasRoom(v, session) <==> HasSlot(FreshOwner(v, session), session)
    ensures FreshOwner(v, session).sessions[session].turns == TurnsOf(v, session)
    ensures FreshOwner(v, session).sessions[session].pending ==
      if session in v.sessions then v.sessions[session].pending else []
  {
    EnsureSessionKeeps(v, session);
  }

  /**
    The outcome of a submit, decided by the ledger before it: whether turns are admitted at all,
    then what is known of the turn, then whether another turn is active, then room, then the context.
   */
  lemma AdmissionIsExact(v: Ledger, session: SessionId, turn: TurnId, input: string)
    requires Coherent(v)
    ensures var outcome := Submit(v, session, turn, input).1;
      if v.lifecycle != Running then outcome == Rejected(NotRunning)
      else if v.profile.None? then outcome == Rejected(NoActiveCard)
      else if Recorded(v, session, turn).Some? then
        var known := Recorded(v, session, turn).value;
        outcome == if known.input == input then Answered(known.terminal) else Rejected(DifferentInput)
      else if session in v.sessions && turn in v.sessions[session].pending then outcome == Answered(Cancelled)
      else if v.active.Some? then outcome == Rejected(Busy)
      else if session in v.sessions && |v.sessions[session].turns| + |v.sessions[session].pending| >= 32 then
        outcome == Rejected(CapacityFull)
      else
        var context := ContextOf(v.profile.value.systemPrompt, TurnsOf(v, session), input);
        outcome == if context.Ok? then Admitted(context.value) else Answered(Failed(ContextLimit))
  {
    RoomIsKept(v, session);
  }

  /** What an admitted context holds, and when it is within the limit of 256 KiB. */
  lemma AdmittedContext(v: Ledger, session: SessionId, turn: TurnId, input: string)
    requires Coherent(v) && Submit(v, session, turn, input).1.Admitted? && v.profile.Some?
    ensures var context := Submit(v, session, turn, input).1.context;
      && IsContextOf(context, v.profile.value.systemPrompt, Finals(TurnsOf(v, session)), input)
      && ContextBytes(context) <= 262144
  {
    AdmissionIsExact(v, session, turn, input);
    ProjectionByIndex(v.profile.value.systemPrompt, TurnsOf(v, session), input);
  }

  /** The whole call: the input, the deadline and the owner are checked first, in this order. */
  lemma SubmitCallIsExact(
    v: Ledger, owned: bool, session: SessionId, turn: TurnId, input: string, deadlineNanos: nat)
    ensures var (w, outcome) := SubmitCall(v, owned, session, turn, input, deadlineNanos);
      if InputFaultOf(input).Some? then w == v && outcome == Rejected(BadInput(InputFaultOf(input).value))
      else if deadlineNanos == 0 || deadlineNanos > 60_000_000_000 then w == v && outcome == Rejected(BadDeadline)
      else if !owned then w == v && outcome == Rejected(OwnerUnavailable)
      else (w, outcome) == Submit(v, session, turn, input)
  {
  }

  /**
    The answer to a cancel, decided by the ledger before it: what is known of the turn, then whether
    it is active, then whether turns are admitted at all, then whether it has or can get a tombstone.
   */
  lemma CancellationIsExact(v: Ledger, session: SessionId, turn: TurnId)
    requires Coherent(v)
    ensures var (w, r) := Cancel(v, session, turn);
      if Recorded(v, session, turn).Some? then
        w == v && r == Ok(AlreadyTerminal(Recorded(v, session, turn).value.terminal))
      else if v.active.Some? && v.active.value.sessionId == session && v.active.value.turnId == turn then
        && r == Ok(CancellationRequested) && w.active == Some(ActiveTurn(session, turn, true))
        && w.sessions == v.sessions && w.order == v.order
      else if v.lifecycle != Running || v.profile.None? then w == v && r == Ok(NotActive)
      else
        var (turns, pending) :=
          if session in v.sessions then (v.sessions[session].turns, v.sessions[session].pending) else ([], []);
        var reserved := if v.active.Some? && v.active.value.sessionId == session then 1 else 0;
        if turn in pending then w == v && r == Ok(CancellationRequested)
        else if |turns| + |pending| + reserved >= 32 then w == v && r == Err(CapacityFull)
        else
          && r == Ok(CancellationRequested)
          && session in w.sessions && w.sessions[session] == Session(turns, pending + [turn])
  {
    EnsureSessionKeeps(v, session);
    RoomIsKept(v, session);
  }

  lemma CancelCallIsExact(v: Ledger, owned: bool, session: SessionId, turn: TurnId)
    ensures CancelCall(v, owned, session, turn) ==
      if owned then Cancel(v, session, turn) else (v, Err(OwnerUnavailable))
  {
  }

  /**
    Completion and drop of a guard act on the active turn only: a guard that does not own it changes
    nothing, and is told whether there is no active turn or another one.
   */
  lemma ForeignGuardsChangeNothing(
    v: Ledger, session: SessionId, turn: TurnId, input: string, proposed: TurnTerminal)
    requires v.active.None? || v.active.value.sessionId != session || v.active.value.turnId != turn
    ensures Complete(v, session, turn, input, proposed)
      == (v, Err(if v.active.None? then LostOwnership else IdentityChanged))
    ensures DropGuard(v, session, turn, input) == (v, false)
  {
  }

  /** At most 64 sessions, and at most 32 completed, pending and active turns in each. */
  lemma CapacityIsKept(v: Ledger, session: SessionId)
    requires Coherent(v)
    ensures |v.sessions| <= 64
    ensures session in v.sessions ==>
      |v.sessions[session].turns| + |v.sessions[session].pending|
      + (if v.active.Some? && v.active.value.sessionId == session then 1 else 0) <= 32
  {
    ListedSize(v.sessions, v.order);
    if session in v.sessions {
      assert SessionOk(v.sessions[session], ActiveIn(v.active, session));
    }
  }

  // -------------------------------------------------------- which sessions are retained

  ghost predicate SameSessions(v: Ledger, w: Ledger) {
    w.order == v.order && w.sessions.Keys == v.sessions.Keys
  }

  /** The retained sessions are the old ones, or those that ensuring one session leaves. */
  ghost predicate MayEnsure(v: Ledger, session: SessionId, w: Ledger) {
    || SameSessions(v, w)
    || (EnsureSession(v, session).Ok? && SameSessions(EnsureSession(v, session).value, w))
  }

  lemma UpdateKeepsSessions(v: Ledger, session: SessionId, s: Session)
    requires session in v.sessions
    ensures SameSessions(v, v.(sessions := v.sessions[session := s]))
  {
  }

  lemma SubmitMayEnsure(v: Ledger, session: SessionId, turn: TurnId, input: string)
    ensures MayEnsure(v, session, Submit(v, session, turn, input).0)
  {
    if v.lifecycle == Running && v.profile.Some? && Recorded(v, session, turn).None? {
      if session in v.sessions && turn in v.sessions[session].pending {
        var cleared := ClearPending(v, session, turn);
        assert SameSessions(v, cleared);
        var w := RecordTurn(cleared, session, CompletedTurn(turn, input, Cancelled));
        UpdateKeepsSessions(cleared, session, w.sessions[session]);
      } else if v.active.None? && EnsureSession(v, session).Ok? {
        var owned := EnsureSession(v, session).value;
        assert SameSessions(owned, owned.(active := Some(ActiveTurn(session, turn, false))));
        UpdateKeepsSessions(owned, session, Submit(v, session, turn, input).0.sessions[session]);
      }
    }
  }

  lemma CancelMayEnsure(v: Ledger, session: SessionId, turn: TurnId)
    ensures MayEnsure(v, session, Cancel(v, session, turn).0)
  {
    if EnsureSession(v, session).Ok? {
      var owned := EnsureSession(v, session).value;
      var s := owned.sessions[session];
      UpdateKeepsSessions(owned, session, s.(pending := s.pending + [turn]));
    }
  }

  lemma CancelCallKeeps(v: Ledger, owned: bool, session: SessionId, turn: TurnId)
    requires Coherent(v)
    ensures var (w, r) := CancelCall(v, owned, session, turn);
      && Advances(v, w, None) && SameActive(v, w)
      && (owned ==> CancelAnswers(v, w, r, session, turn))
  {
    AdvancesNot(v);
    CancelKeeps(v, session, turn);
  }

  /** `complete`'s three-way test decides exactly as the cancel flag alone. */
  lemma CancelFlagDecides(v: Ledger, proposed: TurnTerminal)
    requires Coherent(v) && v.active.Some?
    ensures Settle(v, proposed) == if v.active.value.cancelled then Cancelled else proposed
  {
  }

  /**
    Completing the active turn succeeds and records its one terminal; dropping its guard is
    completing as cancelled.
   */
  lemma CompleteKeeps(v: Ledger, session: SessionId, turn: TurnId, input: string, proposed: TurnTerminal)
    requires Coherent(v) && IsActive(v, session, turn)
    ensures session in v.sessions
    ensures var (w, r) := Complete(v, session, turn, input, proposed);
      var terminal := if v.active.value.cancelled then Cancelled else proposed;
      var record := CompletedTurn(turn, input, terminal);
      && r == Ok(terminal) && w.active == None
      && Advances(v, w, Some(Record(session, record))) && Recorded(w, session, turn) == Some(record)
    ensures DropGuard(v, session, turn, input) == (Complete(v, session, turn, input, Cancelled).0, true)
  {
    CancelFlagDecides(v, proposed);
    var record := CompletedTurn(turn, input, Settle(v, proposed));
    var idle := v.(active := None);
    assert SessionOk(v.sessions[session], Some(turn));
    assert Recordable(idle, session, turn);
    RecordKeeps(idle, session, record);
    var w := RecordTurn(idle, session, record);
    forall s, t | Doomed(v, s, t) ensures Doomed(w, s, t) {
      if !(s == session && t == turn) {
        DoomedDepends(v, idle, s, t);
      }
    }
  }

  /** What a change of lifecycle, profile or cancel flag keeps. */
  ghost predicate OnlyControls(v: Ledger, w: Ledger) {
    && Coherent(w) && KeepsPromises(v, w) && SameActive(v, w)
    && w.sessions == v.sessions && w.order == v.order
    && Rank(v.lifecycle) <= Rank(w.lifecycle)
  }

  lemma ControlKeeps(v: Ledger, w: Ledger)
    requires Coherent(v) && FlagsOk(w)
    requires w.sessions == v.sessions && w.order == v.order && Rank(v.lifecycle) <= Rank(w.lifecycle)
    requires w.active == v.active || w.active == SetFlag(v).active
    ensures OnlyControls(v, w)
  {
    FlagKeeps(v);
    forall s, t | Doomed(v, s, t) ensures Doomed(w, s, t) {
      assert Doomed(SetFlag(v), s, t);
    }
    forall s | s in w.sessions ensures SessionOk(w.sessions[s], ActiveIn(w.active, s)) {
      assert ActiveIn(w.active, s) == ActiveIn(v.active, s);
    }
  }

  lemma ProfileControlsKeep(v: Ledger, profile: Profile, cardInstanceId: nat)
    requires Coherent(v)
    ensures OnlyControls(v, Activate(v, profile).0)
    ensures OnlyControls(v, DeactivateBegin(v, cardInstanceId).0)
  {
    ControlKeeps(v, Activate(v, profile).0);
    ControlKeeps(v, DeactivateBegin(v, cardInstanceId).0);
  }

  lemma StopControlsKeep(v: Ledger)
    requires Coherent(v)
    ensures OnlyControls(v, StopBegin(v).0)
    ensures Rank(v.lifecycle) >= 2 ==> OnlyControls(v, StopFinish(v))
  {
    ControlKeeps(v, StopBegin(v).0);
    if Rank(v.lifecycle) >= 2 {
      ControlKeeps(v, StopFinish(v));
    }
  }

  lemma OwnerControlsKeep(v: Ledger)
    requires Coherent(v)
    ensures OnlyControls(v, v)
    ensures OnlyControls(v, Start(v).0)
    ensures OnlyControls(v, DropService(v))
  {
    ControlKeeps(v, v);
    ControlKeeps(v, Start(v).0);
    ControlKeeps(v, DropService(v));
  }

  /** The regions that touch no session keep the joint invariant; the lifecycle only moves forward. */
  lemma ControlsKeep(v: Ledger, profile: Profile, cardInstanceId: nat)
    requires Coherent(v)
    ensures OnlyControls(v, Activate(v, profile).0)
    ensures OnlyControls(v, DeactivateBegin(v, cardInstanceId).0)
    ensures OnlyControls(v, Start(v).0)
    ensures OnlyControls(v, StopBegin(v).0)
    ensures Rank(v.lifecycle) >= 2 ==> OnlyControls(v, StopFinish(v))
    ensures OnlyControls(v, DropService(v))
  {
    ProfileControlsKeep(v, profile, cardInstanceId);
    StopControlsKeep(v);
    OwnerControlsKeep(v);
  }

  /** The active turn, if any, can only end cancelled. */
  ghost predicate ActiveIsDoomed(v: Ledger) {
    v.active.Some? ==> Doomed(v, v.active.value.sessionId, v.active.value.turnId)
  }

  /** An active turn without a profile has been flagged, so it can only end cancelled. */
  lemma NoProfileDooms(v: Ledger)
    requires Coherent(v) && v.profile.None?
    ensures ActiveIsDoomed(v)
  {
    if v.active.Some? {
      FlagKeeps(v);
      assert SetFlag(v) == v;
    }
  }

  /** A start succeeds exactly in `Created`, and then only sets the service running. */
  lemma StartIsExact(v: Ledger)
    ensures var (w, error) := Start(v);
      && (error == None <==> v.lifecycle == Created)
      && (error == None ==>
            && w.lifecycle == Running && w.profile == v.profile
            && w.sessions == v.sessions && w.order == v.order && w.active == v.active)
      && (error != None ==> w == v && error == Some(NotCreated))
  {
  }

  /**
    An activation needs the owner, the provider's own definition, a running service and no active
    profile, and then only sets the profile; a failure is for the first of these that is missing.
   */
  lemma ActivationIsExact(v: Ledger, owned: bool, definitionMatches: bool, profile: Profile)
    ensures var (w, error) := ActivateCall(v, owned, definitionMatches, profile);
      && (error == None <==> owned && definitionMatches && v.lifecycle == Running && v.profile.None?)
      && (error == None ==>
            && w.profile == Some(profile) && w.lifecycle == v.lifecycle
            && w.sessions == v.sessions && w.order == v.order && w.active == v.active)
      && (error != None ==> w == v)
      && (!owned ==> error == Some(OwnerUnavailable))
      && (owned && !definitionMatches ==> error == Some(WrongDefinition))
      && (owned && definitionMatches && v.lifecycle != Running ==> error == Some(NotRunning))
      && (owned && definitionMatches && v.lifecycle == Running && v.profile.Some? ==>
            error == Some(ProfileAlreadyActive))
  {
  }

  /** A deactivation takes the profile from its owner only, dooms the active turn, and must then wait. */
  lemma DeactivationIsExact(v: Ledger, owned: bool, cardInstanceId: nat)
    requires Coherent(v)
    ensures var (w, outcome) := DeactivateCall(v, owned, cardInstanceId);
      if !owned then w == v && outcome == Refused(OwnerUnavailable)
      else if v.profile.None? then w == v && outcome == Done
      else if v.profile.value.cardInstanceId != cardInstanceId then w == v && outcome == Refused(OtherCardOwnsProfile)
      else
        && outcome == MustWait && w.profile == None && w.lifecycle == v.lifecycle
        && w.sessions == v.sessions && w.order == v.order && ActiveIsDoomed(w)
  {
    ControlsKeep(v, Profile(0, ""), cardInstanceId);
    if DeactivateBegin(v, cardInstanceId).1.MustWait? {
      NoProfileDooms(DeactivateBegin(v, cardInstanceId).0);
    }
  }

  /**
    A stop of a service that was never started, or has stopped, is done at once; any other takes the
    profile, dooms the active turn, and must wait before it may set the service stopped.
   */
  lemma StopIsExact(v: Ledger)
    requires Coherent(v)
    ensures var (w, outcome) := StopBegin(v);
      && w.sessions == v.sessions && w.order == v.order && w.profile == None
      && (if v.lifecycle in {Created, Stopped} then outcome == Done && w.lifecycle == Stopped && w.active == v.active
          else outcome == MustWait && w.lifecycle == Stopping && ActiveIsDoomed(w))
    ensures var w := StopFinish(v);
      && w.lifecycle == Stopped && w.profile == v.profile
      && w.sessions == v.sessions && w.order == v.order && w.active == v.active
    ensures var w := DropService(v);
      && w.lifecycle == Stopped && w.profile == None
      && w.sessions == v.sessions && w.order == v.order && ActiveIsDoomed(w)
  {
    ControlsKeep(v, Profile(0, ""), 0);
    NoProfileDooms(StopBegin(v).0);
    NoProfileDooms(DropService(v));
  }

  /** When start, activation, deactivation, stop and drop take effect, and that the last three doom the active turn. */
  lemma ControlsTakeEffect(v: Ledger, profile: Profile, cardInstanceId: nat)
    requires Coherent(v)
    ensures var (w, error) := Start(v);
      && (error == None <==> v.lifecycle == Created)
      && (error == None ==> w == v.(lifecycle := Running))
      && (error != None ==> w == v)
    ensures var (w, error) := Activate(v, profile);
      && (error == None <==> v.lifecycle == Running && v.profile.None?)
      && (error == None ==> w.profile == Some(profile))
    ensures var (w, outcome) := DeactivateBegin(v, cardInstanceId);
      && (outcome.MustWait? <==> v.profile.Some? && v.profile.value.cardInstanceId == cardInstanceId)
      && (outcome.MustWait? ==> w.profile == None && ActiveIsDoomed(w))
      && (!outcome.MustWait? ==> w == v)
    ensures var (w, outcome) := StopBegin(v);
      && (outcome.MustWait? <==> v.lifecycle in {Running, Stopping})
      && w.lifecycle == (if outcome.MustWait? then Stopping else Stopped)
      && w.profile == None && ActiveIsDoomed(w)
    ensures var w := DropService(v);
      w.lifecycle == Stopped && w.profile == None && ActiveIsDoomed(w)
  {
    ControlsKeep(v, profile, cardInstanceId);
    if DeactivateBegin(v, cardInstanceId).1.MustWait? {
      NoProfileDooms(DeactivateBegin(v, cardInstanceId).0);
    }
    NoProfileDooms(StopBegin(v).0);
    NoProfileDooms(DropService(v));
  }
}
