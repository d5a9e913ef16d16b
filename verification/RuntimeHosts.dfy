/**
  The RuntimeHost lifecycle: ordered starts, reverse rollback with a special case
  for an owner whose start timed out, and the status published at every step.
 */
module RuntimeHosts {
  import opened Wrappers
  import opened Text

  const MAX_CORE_SERVICES := 16

  /** How one lifecycle callback ends under the host's deadline. */
  datatype Outcome = Succeeds | Errors | TimesOut

  /** What the two callbacks of an owner will do; each is invoked at most once. */
  datatype Script = Script(onStart: Outcome, onStop: Outcome)

  datatype CardOwner = CardOwner(key: string, script: Script)

  /** The state names shared by the host, the deck run and the card instances. */
  datatype Phase = Created | Starting | Ready | Stopping | Stopped | Failed

  datatype DeckRun = DeckRun(state: Phase, cards: seq<Phase>)

  datatype Snapshot = Snapshot(state: Phase, deckRun: Option<DeckRun>)

  datatype Owner = CoreService(index: nat) | Card(key: string)

  datatype Action = ToStart | ToStop

  datatype FailureKind = TimedOut | OwnerError

  datatype Failure = Failure(owner: Owner, action: Action, kind: FailureKind)

  datatype HostError =
    | InvalidTransition(actual: Phase)
    | StartFailed(failure: Failure, cleanupFailures: seq<Failure>)
    | StopFailed(failures: seq<Failure>)

  datatype Invocation = Invocation(owner: Owner, action: Action, outcome: Outcome)

  /** The failure an invocation reports, if any. */
  function Reported(call: Invocation): (r: Option<Failure>) {
    match call.outcome
    case Succeeds => None
    case Errors => Some(Failure(call.owner, call.action, OwnerError))
    case TimesOut => Some(Failure(call.owner, call.action, TimedOut))
  }

  function Failures(calls: seq<Invocation>): (failures: seq<Failure>) {
    if calls == [] then []
    else (match Reported(calls[0]) case None => [] case Some(f) => [f]) + Failures(calls[1..])
  }

  lemma {:induction false} FailuresAppend(a: seq<Invocation>, b: seq<Invocation>)
    ensures Failures(a + b) == Failures(a) + Failures(b)
  {
    if a == [] {
      assert a + b == b;
    } else {
      assert (a + b)[1..] == a[1..] + b;
      FailuresAppend(a[1..], b);
    }
  }

  /** The phase in which a card is left by a stop call. */
  function AfterStop(outcome: Outcome): (phase: Phase) {
    if outcome.Succeeds? then Stopped else Failed
  }

  /** What a stop loop has done so far: its calls, its reports and the status it has left. */
  datatype Progress = Progress(calls: seq<Invocation>, failures: seq<Failure>, status: Snapshot)

  /** Append the failure an invocation reports, if it reports one. */
  function Collect(failures: seq<Failure>, call: Invocation): (r: seq<Failure>) {
    var report := Reported(call);
    if report.Some? then failures + [report.value] else failures
  }

  /** All the owners of one host, in start order: services first, then cards. */
  datatype Composition = Composition(services: seq<Script>, deck: Option<seq<CardOwner>>) {
    function Cards(): (cards: seq<CardOwner>) {
      if deck.Some? then deck.value else []
    }

    function Count(): (n: nat) {
      |services| + |Cards()|
    }

    function OwnerAt(k: nat): (owner: Owner)
      requires k < Count()
    {
      if k < |services| then CoreService(k) else Card(Cards()[k - |services|].key)
    }

    function ScriptAt(k: nat): (script: Script)
      requires k < Count()
    {
      if k < |services| then services[k] else Cards()[k - |services|].script
    }

    function StartCall(k: nat): (call: Invocation)
      requires k < Count()
    {
      Invocation(OwnerAt(k), ToStart, ScriptAt(k).onStart)
    }

    function StopCall(k: nat): (call: Invocation)
      requires k < Count()
    {
      Invocation(OwnerAt(k), ToStop, ScriptAt(k).onStop)
    }

    /** The first owner from `k` on whose start does not succeed. */
    function FirstFault(k: nat): (f: nat)
      requires k <= Count()
      ensures k <= f <= Count()
      ensures f < Count() ==> !ScriptAt(f).onStart.Succeeds?
      ensures forall j :: k <= j < f ==> ScriptAt(j).onStart.Succeeds?
      decreases Count() - k
    {
      if k == Count() || !ScriptAt(k).onStart.Succeeds? then k else FirstFault(k + 1)
    }

    /** Starts of the owners from `low` up to `high - 1`. */
    function StartsFrom(low: nat, high: nat): (calls: seq<Invocation>)
      requires low <= high <= Count()
    {
      if low == high then [] else StartsFrom(low, high - 1) + [StartCall(high - 1)]
    }

    function Starts(n: nat): (calls: seq<Invocation>)
      requires n <= Count()
    {
      StartsFrom(0, n)
    }

    /** Stops of the owners from `high - 1` down to `low`. */
    function Stops(low: nat, high: nat): (calls: seq<Invocation>)
      requires low <= high <= Count()
      decreases high - low
    {
      if low == high then [] else Stops(low + 1, high) + [StopCall(low)]
    }

    /** What those stops report, in call order. */
    function StopFailures(low: nat, high: nat): (failures: seq<Failure>)
      requires low <= high <= Count()
      decreases high - low
    {
      if low == high then [] else Collect(StopFailures(low + 1, high), StopCall(low))
    }

    /** One round of a stop loop. */
    function StopOne(p: Progress, k: nat): (r: Progress)
      requires k < Count()
    {
      Progress(
        p.calls + [StopCall(k)],
        Collect(p.failures, StopCall(k)),
        if k < |services| then p.status else WithCardState(p.status, k - |services|, AfterStop(ScriptAt(k).onStop)))
    }

    /** A stop loop over the owners from `high - 1` down to `low`. */
    function StopDown(p: Progress, low: nat, high: nat): (r: Progress)
      requires low <= high <= Count()
      decreases high - low
    {
      if low == high then p else StopOne(StopDown(p, low + 1, high), low)
    }

    /** The stop that an interrupted start gets at once, before any rollback. */
    function InterruptedStop(f: nat): (calls: seq<Invocation>)
      requires f < Count()
    {
      if ScriptAt(f).onStart.TimesOut? then [StopCall(f)] else []
    }

    /** Every stop made when start `f` fails. */
    function Rollback(f: nat): (calls: seq<Invocation>)
      requires f < Count()
    {
      InterruptedStop(f) + Stops(0, f)
    }

    function StartTrace(): (calls: seq<Invocation>) {
      var f := FirstFault(0);
      if f == Count() then Starts(f) else Starts(f + 1) + Rollback(f)
    }

    /** What the rollback of a failed start `f` reports, in call order. */
    function RollbackFailures(f: nat): (failures: seq<Failure>)
      requires f < Count()
    {
      Failures(InterruptedStop(f)) + StopFailures(0, f)
    }

    /** Where a card whose start failed is left, before the others are rolled back. */
    function FailedCard(index: nat): (phase: Phase)
      requires index < |Cards()|
    {
      var script := Cards()[index].script;
      if script.onStart.TimesOut? then AfterStop(script.onStop) else Failed
    }

    /** Where each card is left when start `f` fails. */
    function RolledBackCards(f: nat): (cards: seq<Phase>)
      requires f < Count()
    {
      seq(|Cards()|, i requires 0 <= i < |Cards()| =>
        if |services| + i > f then Created
        else if |services| + i == f && !ScriptAt(f).onStart.TimesOut? then Failed
        else AfterStop(Cards()[i].script.onStop))
    }

    /** The cards while the first `n` have started and no other was touched. */
    function ClimbedCards(n: nat): (cards: seq<Phase>) {
      seq(|Cards()|, i => if i < n then Ready else Created)
    }

    function StoppedCards(): (cards: seq<Phase>) {
      seq(|Cards()|, i requires 0 <= i < |Cards()| => AfterStop(Cards()[i].script.onStop))
    }

    /** A stop loop makes exactly its stops, in order, and returns exactly what they report. */
    lemma {:induction false} StopDownCalls(p: Progress, low: nat, high: nat)
      requires low <= high <= Count()
      ensures StopDown(p, low, high).calls == p.calls + Stops(low, high)
      ensures StopDown(p, low, high).failures == p.failures + StopFailures(low, high)
      ensures high <= |services| ==> StopDown(p, low, high).status == p.status
      decreases high - low
    {
      if low < high {
        StopDownCalls(p, low + 1, high);
        Assoc(p.calls, Stops(low + 1, high), [StopCall(low)]);
        CollectAppends(p.failures, StopFailures(low + 1, high), StopCall(low));
      }
    }

    lemma {:induction false} StopsCompose(low: nat, middle: nat, high: nat)
      requires low <= middle <= high <= Count()
      ensures Stops(middle, high) + Stops(low, middle) == Stops(low, high)
      ensures StopFailures(middle, high) + StopFailures(low, middle) == StopFailures(low, high)
      decreases middle - low
    {
      if low < middle {
        StopsCompose(low + 1, middle, high);
        Assoc(Stops(middle, high), Stops(low + 1, middle), [StopCall(low)]);
        CollectAppends(StopFailures(middle, high), StopFailures(low + 1, middle), StopCall(low));
      }
    }

    lemma {:induction false} StartsCompose(low: nat, middle: nat, high: nat)
      requires low <= middle <= high <= Count()
      ensures StartsFrom(low, middle) + StartsFrom(middle, high) == StartsFrom(low, high)
      decreases high - middle
    {
      if middle < high {
        StartsCompose(low, middle, high - 1);
        Assoc(StartsFrom(low, middle), StartsFrom(middle, high - 1), [StartCall(high - 1)]);
      }
    }

    /** The service starts and the card starts join into one ascending run. */
    lemma StartsJoin(log: seq<Invocation>)
      requires |services| <= FirstFault(0)
      ensures var f, s := FirstFault(0), |services|;
        && log + Starts(s) + StartsFrom(s, f) == log + Starts(f)
        && (f < Count() ==> log + Starts(s) + StartsFrom(s, f + 1) == log + Starts(f + 1))
    {
      var f, s := FirstFault(0), |services|;
      StartsCompose(0, s, f);
      Assoc(log, Starts(s), StartsFrom(s, f));
      if f < Count() {
        StartsCompose(0, s, f + 1);
        Assoc(log, Starts(s), StartsFrom(s, f + 1));
      }
    }

    /** The card stops and the service stops join into one descending run. */
    lemma StopsJoin(log: seq<Invocation>)
      ensures var s, n := |services|, Count();
        && log + Stops(s, n) + Stops(0, s) == log + Stops(0, n)
        && StopFailures(s, n) + StopFailures(0, s) == StopFailures(0, n)
    {
      StopsCompose(0, |services|, Count());
      Assoc(log, Stops(|services|, Count()), Stops(0, |services|));
    }

    /** The card cleanup and the service cleanup join into one rollback. */
    lemma RollbackJoins(log: seq<Invocation>, cardFailures: seq<Failure>, serviceFailures: seq<Failure>)
      requires |services| <= FirstFault(0) < Count()
      requires cardFailures == Failures(InterruptedStop(FirstFault(0))) + StopFailures(|services|, FirstFault(0))
      requires serviceFailures == StopFailures(0, |services|)
      ensures var f, s := FirstFault(0), |services|;
        && log + Starts(f + 1) + InterruptedStop(f) + Stops(s, f) + Stops(0, s) == log + StartTrace()
        && cardFailures + serviceFailures == RollbackFailures(f)
    {
      var f, s := FirstFault(0), |services|;
      StopsCompose(0, s, f);
      Assoc(log + Starts(f + 1) + InterruptedStop(f), Stops(s, f), Stops(0, s));
      Assoc(log + Starts(f + 1), InterruptedStop(f), Stops(0, f));
      Assoc(log, Starts(f + 1), Rollback(f));
      Assoc(Failures(InterruptedStop(f)), StopFailures(s, f), StopFailures(0, s));
    }

    /** A stop loop reports nothing exactly when every stop in it succeeds. */
    lemma {:induction false} SilentStopsSucceed(low: nat, high: nat)
      requires low <= high <= Count()
      ensures StopFailures(low, high) == [] <==> forall k :: low <= k < high ==> ScriptAt(k).onStop.Succeeds?
      decreases high - low
    {
      if low < high {
        SilentStopsSucceed(low + 1, high);
      }
    }

    /** The failures returned are exactly the failing stops, in the order they were made. */
    lemma {:induction false} ReportsAreFailingStops(low: nat, high: nat)
      requires low <= high <= Count()
      ensures StopFailures(low, high) == Failures(Stops(low, high))
      decreases high - low
    {
      if low < high {
        ReportsAreFailingStops(low + 1, high);
        FailuresAppend(Stops(low + 1, high), [StopCall(low)]);
        CollectAppends(StopFailures(low + 1, high), [], StopCall(low));
        assert Failures([StopCall(low)]) == Collect([], StopCall(low));
      }
    }
  }

  lemma CollectAppends(a: seq<Failure>, b: seq<Failure>, call: Invocation)
    ensures a + Collect(b, call) == Collect(a + b, call)
    ensures a + b + Collect([], call) == Collect(a + b, call)
  {
  }

  // ------------------------------------------------- the lifecycle mirror

  /** Deck compilation gives every card of a deck its own key. */
  predicate KeysDistinct(c: Composition) {
    forall i, j :: 0 <= i < j < |c.Cards()| ==> c.Cards()[i].key != c.Cards()[j].key
  }

  function StopCount(owner: Owner, calls: seq<Invocation>): (n: nat) {
    if calls == [] then 0
    else (if calls[0].owner == owner && calls[0].action == ToStop then 1 else 0) + StopCount(owner, calls[1..])
  }

  lemma {:induction false} StopCountAppend(owner: Owner, a: seq<Invocation>, b: seq<Invocation>)
    ensures StopCount(owner, a + b) == StopCount(owner, a) + StopCount(owner, b)
  {
    if a == [] {
      assert a + b == b;
    } else {
      assert (a + b)[1..] == a[1..] + b;
      StopCountAppend(owner, a[1..], b);
    }
  }

  lemma {:induction false} StartsAscend(c: Composition, n: nat)
    requires n <= c.Count()
    ensures |c.Starts(n)| == n && forall k :: 0 <= k < n ==> c.Starts(n)[k] == c.StartCall(k)
    ensures forall owner :: StopCount(owner, c.Starts(n)) == 0
  {
    if n > 0 {
      StartsAscend(c, n - 1);
      forall owner ensures StopCount(owner, c.Starts(n)) == 0 {
        StopCountAppend(owner, c.Starts(n - 1), [c.StartCall(n - 1)]);
      }
    }
  }

  lemma {:induction false} StopsDescend(c: Composition, low: nat, high: nat)
    requires low <= high <= c.Count()
    ensures |c.Stops(low, high)| == high - low
    ensures forall k :: 0 <= k < high - low ==> c.Stops(low, high)[k] == c.StopCall(high - 1 - k)
    decreases high - low
  {
    if low < high {
      StopsDescend(c, low + 1, high);
    }
  }

  /** A full stop visits the owners of a full start in exactly the opposite order. */
  lemma StopsMirrorStarts(c: Composition)
    ensures |c.Stops(0, c.Count())| == |c.Starts(c.Count())| == c.Count()
    ensures forall k :: 0 <= k < c.Count() ==>
      c.Stops(0, c.Count())[k].owner == c.Starts(c.Count())[c.Count() - 1 - k].owner
  {
    StartsAscend(c, c.Count());
    StopsDescend(c, 0, c.Count());
  }

  lemma {:induction false} StopsVisitOnce(c: Composition, k: nat, low: nat, high: nat)
    requires KeysDistinct(c) && k < c.Count() && low <= high <= c.Count()
    ensures StopCount(c.OwnerAt(k), c.Stops(low, high)) == if low <= k < high then 1 else 0
    decreases high - low
  {
    if low < high {
      StopsVisitOnce(c, k, low + 1, high);
      StopCountAppend(c.OwnerAt(k), c.Stops(low + 1, high), [c.StopCall(low)]);
      assert c.OwnerAt(k) == c.OwnerAt(low) <==> k == low;
    }
  }

  /**
    Whatever fails: an owner whose start succeeded is stopped exactly once, one whose start
    returned an error never, one whose start was interrupted exactly once, and one that was
    never started never.
   */
  lemma EveryStartedOwnerStopsOnce(c: Composition, k: nat)
    requires KeysDistinct(c) && k < c.Count()
    ensures var f := c.FirstFault(0);
      if f == c.Count() then
        StopCount(c.OwnerAt(k), c.StartTrace() + c.Stops(0, c.Count())) == 1
      else
        StopCount(c.OwnerAt(k), c.StartTrace())
          == if k < f || (k == f && c.ScriptAt(f).onStart.TimesOut?) then 1 else 0
  {
    var f := c.FirstFault(0);
    var owner := c.OwnerAt(k);
    if f == c.Count() {
      StartsAscend(c, f);
      StopsVisitOnce(c, k, 0, f);
      StopCountAppend(owner, c.StartTrace(), c.Stops(0, f));
    } else {
      StartsAscend(c, f + 1);
      StopsVisitOnce(c, k, 0, f);
      StopCountAppend(owner, c.Starts(f + 1), c.Rollback(f));
      StopCountAppend(owner, c.InterruptedStop(f), c.Stops(0, f));
      assert owner == c.OwnerAt(f) <==> k == f;
    }
  }

  /**
    The stops an owner has had when its host has reached a settled state: none before the host was
    stopped or failed, then one if its own start succeeded or was interrupted, and none otherwise.
   */
  function StopsDue(c: Composition, state: Phase, k: nat): (n: nat)
    requires k < c.Count()
  {
    var f := c.FirstFault(0);
    if state == Created || state == Ready then 0
    else if k < f || (k == f && c.ScriptAt(f).onStart.TimesOut?) then 1 else 0
  }

  /** The calls of a host that has reached a settled state. */
  function CallsUpTo(c: Composition, state: Phase): (calls: seq<Invocation>) {
    if state == Created then []
    else if state == Ready || c.FirstFault(0) < c.Count() then c.StartTrace()
    else c.StartTrace() + c.Stops(0, c.Count())
  }

  lemma StopsAreDue(c: Composition, state: Phase, k: nat)
    requires KeysDistinct(c) && k < c.Count()
    requires state == Ready ==> c.FirstFault(0) == c.Count()
    ensures StopCount(c.OwnerAt(k), CallsUpTo(c, state)) == StopsDue(c, state, k)
  {
    EveryStartedOwnerStopsOnce(c, k);
    if state == Ready {
      StartsAscend(c, c.Count());
    }
  }

  /** The stop answering an interrupted start comes before every other stop. */
  lemma InterruptedStopIsFirst(c: Composition)
    requires c.FirstFault(0) < c.Count() && c.ScriptAt(c.FirstFault(0)).onStart.TimesOut?
    ensures var f := c.FirstFault(0);
      |c.StartTrace()| == 2 * f + 2 && c.StartTrace()[f] == c.StartCall(f) && c.StartTrace()[f + 1] == c.StopCall(f)
    ensures c.StartTrace()[c.FirstFault(0) + 2..] == c.Stops(0, c.FirstFault(0))
  {
    var f := c.FirstFault(0);
    StartsAscend(c, f + 1);
    StopsDescend(c, 0, f);
  }

  /** A failed start reports exactly the cleanup stops that failed, in the order they were made. */
  lemma RollbackReportsAreFailingStops(c: Composition, f: nat)
    requires f < c.Count()
    ensures c.RollbackFailures(f) == Failures(c.Rollback(f))
  {
    c.ReportsAreFailingStops(0, f);
    FailuresAppend(c.InterruptedStop(f), c.Stops(0, f));
  }

  // --------------------------------------------- what calls and statuses say

  /** A call that succeeded reports nothing; any other reports itself, and whether it timed out. */
  lemma ReportsAreExact(call: Invocation)
    ensures Reported(call).None? <==> call.outcome.Succeeds?
    ensures Reported(call).Some? ==>
      && Reported(call).value.owner == call.owner && Reported(call).value.action == call.action
      && (Reported(call).value.kind.TimedOut? <==> call.outcome.TimesOut?)
      && (Reported(call).value.kind.OwnerError? <==> call.outcome.Errors?)
  {
  }

  /** Owners are started by index, services before cards, each with its own callback. */
  lemma StartsAreInOrder(c: Composition, n: nat)
    requires n <= c.Count()
    ensures |c.Starts(n)| == n
    ensures forall k :: 0 <= k < n && k < |c.services| ==>
      c.Starts(n)[k] == Invocation(CoreService(k), ToStart, c.services[k].onStart)
    ensures forall k :: |c.services| <= k < n ==>
      var card := c.Cards()[k - |c.services|];
      c.Starts(n)[k] == Invocation(Card(card.key), ToStart, card.script.onStart)
  {
    StartsAscend(c, n);
  }

  /** And stopped in the opposite order. */
  lemma StopsAreInReverse(c: Composition, low: nat, high: nat)
    requires low <= high <= c.Count()
    ensures |c.Stops(low, high)| == high - low
    ensures forall p :: 0 <= p < high - low ==>
      var k := high - 1 - p;
      c.Stops(low, high)[p] ==
        if k < |c.services| then Invocation(CoreService(k), ToStop, c.services[k].onStop)
        else
          var card := c.Cards()[k - |c.services|];
          Invocation(Card(card.key), ToStop, card.script.onStop)
  {
    StopsDescend(c, low, high);
  }

  /** Among the failures of a run of stops there is one of an owner exactly when its stop did not succeed. */
  lemma {:induction false} StopFailuresAreExact(c: Composition, low: nat, high: nat, k: nat)
    requires KeysDistinct(c) && low <= k < high <= c.Count()
    ensures IsReported(c.StopFailures(low, high), c.OwnerAt(k)) <==> !c.ScriptAt(k).onStop.Succeeds?
    decreases high - low
  {
    var later := c.StopFailures(low + 1, high);
    if k == low {
      NotReportedYet(c, low + 1, high, low);
      CollectReports(later, c.StopCall(low), c.OwnerAt(k));
    } else {
      StopFailuresAreExact(c, low + 1, high, k);
      assert c.OwnerAt(k) != c.OwnerAt(low);
      CollectReports(later, c.StopCall(low), c.OwnerAt(k));
    }
  }

  lemma AllStopFailuresAreExact(c: Composition)
    ensures KeysDistinct(c) ==> forall k: nat :: k < c.Count() ==>
      (IsReported(c.StopFailures(0, c.Count()), c.OwnerAt(k)) <==> !c.ScriptAt(k).onStop.Succeeds?)
  {
    if KeysDistinct(c) {
      forall k: nat | k < c.Count()
        ensures IsReported(c.StopFailures(0, c.Count()), c.OwnerAt(k)) <==> !c.ScriptAt(k).onStop.Succeeds?
      {
        StopFailuresAreExact(c, 0, c.Count(), k);
      }
    }
  }

  ghost predicate IsReported(failures: seq<Failure>, owner: Owner) {
    exists i :: 0 <= i < |failures| && failures[i].owner == owner && failures[i].action == ToStop
  }

  lemma CollectReports(failures: seq<Failure>, call: Invocation, owner: Owner)
    requires call.action == ToStop
    ensures IsReported(Collect(failures, call), owner)
      <==> IsReported(failures, owner) || (call.owner == owner && !call.outcome.Succeeds?)
  {
    var all := Collect(failures, call);
    if call.outcome.Succeeds? {
      assert all == failures;
    } else {
      assert all[|failures|].owner == call.owner && all[|failures|].action == ToStop;
      if IsReported(failures, owner) {
        var i :| 0 <= i < |failures| && failures[i].owner == owner && failures[i].action == ToStop;
        assert all[i] == failures[i];
      }
    }
  }

  lemma {:induction false} NotReportedYet(c: Composition, low: nat, high: nat, k: nat)
    requires KeysDistinct(c) && k < low <= high <= c.Count()
    ensures !IsReported(c.StopFailures(low, high), c.OwnerAt(k))
    decreases high - low
  {
    if low < high {
      NotReportedYet(c, low + 1, high, k);
      assert c.OwnerAt(k) != c.OwnerAt(low);
      CollectReports(c.StopFailures(low + 1, high), c.StopCall(low), c.OwnerAt(k));
    }
  }

  /** A card that was stopped is published as `Stopped` exactly when its stop succeeded, and else as `Failed`. */
  ghost predicate ShowsStop(phase: Phase, outcome: Outcome) {
    (phase == Stopped <==> outcome.Succeeds?) && (phase == Failed <==> !outcome.Succeeds?)
  }

  lemma StoppedCardsShow(c: Composition)
    ensures |c.StoppedCards()| == |c.Cards()|
    ensures forall i :: 0 <= i < |c.Cards()| ==> ShowsStop(c.StoppedCards()[i], c.Cards()[i].script.onStop)
  {
  }

  /**
    The cards of a failed start: the ones behind the fault were never touched, a card whose start
    returned an error has failed, and every other shows its stop.
   */
  lemma RolledBackCardsShow(c: Composition, f: nat)
    requires f < c.Count()
    ensures |c.RolledBackCards(f)| == |c.Cards()|
    ensures forall i :: 0 <= i < |c.Cards()| ==>
      var phase, k := c.RolledBackCards(f)[i], |c.services| + i;
      if f < k then phase == Created
      else if k == f && !c.Cards()[i].script.onStart.TimesOut? then phase == Failed
      else ShowsStop(phase, c.Cards()[i].script.onStop)
  {
  }

  /**
    What a start leaves to be seen: a host that is ready with all its cards when every start
    succeeded, and otherwise a failed one whose cards show the fault and the rollback.
   */
  ghost predicate StartShows(c: Composition, s: Snapshot, ok: bool) {
    && (ok <==> forall k: nat :: k < c.Count() ==> c.ScriptAt(k).onStart.Succeeds?)
    && s.state == (if ok then Ready else Failed)
    && (s.deckRun.Some? <==> c.deck.Some?)
    && (s.deckRun.Some? ==> s.deckRun.value.state == s.state && |s.deckRun.value.cards| == |c.Cards()|)
    && (s.deckRun.Some? && ok ==> forall i :: 0 <= i < |c.Cards()| ==> s.deckRun.value.cards[i] == Ready)
    && (s.deckRun.Some? && !ok ==> forall i :: 0 <= i < |c.Cards()| ==>
          var phase, k, f := s.deckRun.value.cards[i], |c.services| + i, c.FirstFault(0);
          if f < k then phase == Created
          else if k == f && !c.Cards()[i].script.onStart.TimesOut? then phase == Failed
          else ShowsStop(phase, c.Cards()[i].script.onStop))
  }

  lemma StartedShows(c: Composition)
    ensures var f := c.FirstFault(0);
      if f < c.Count() then StartShows(c, StatusOf(c, Failed, Failed, c.RolledBackCards(f)), false)
      else StartShows(c, StatusOf(c, Ready, Ready, c.ClimbedCards(|c.Cards()|)), true)
  {
    if c.FirstFault(0) < c.Count() {
      RolledBackCardsShow(c, c.FirstFault(0));
      assert !c.ScriptAt(c.FirstFault(0)).onStart.Succeeds?;
    }
  }

  /**
    What a stop leaves to be seen: a stopped host exactly when every stop succeeded, cards that each
    show how their stop went, and a failure for exactly the owners whose stop did not succeed.
   */
  ghost predicate StopShows(c: Composition, s: Snapshot, failures: seq<Failure>) {
    && (failures == [] <==> forall k: nat :: k < c.Count() ==> c.ScriptAt(k).onStop.Succeeds?)
    && s.state == (if failures == [] then Stopped else Failed)
    && (s.deckRun.Some? <==> c.deck.Some?)
    && (s.deckRun.Some? ==> |s.deckRun.value.cards| == |c.Cards()|)
    && (s.deckRun.Some? ==> forall i :: 0 <= i < |c.Cards()| ==>
          ShowsStop(s.deckRun.value.cards[i], c.Cards()[i].script.onStop))
    && (KeysDistinct(c) ==> forall k: nat :: k < c.Count() ==>
          (IsReported(failures, c.OwnerAt(k)) <==> !c.ScriptAt(k).onStop.Succeeds?))
  }

  lemma StoppedShows(c: Composition)
    ensures var failures := c.StopFailures(0, c.Count());
      var deckState := if c.StopFailures(|c.services|, c.Count()) == [] then Stopped else Failed;
      StopShows(c, StatusOf(c, if failures == [] then Stopped else Failed, deckState, c.StoppedCards()), failures)
  {
    StoppedCardsShow(c);
    c.SilentStopsSucceed(0, c.Count());
    AllStopFailuresAreExact(c);
  }

  // ------------------------------------------------- the shape of a status

  predicate Done(phase: Phase) {
    phase == Stopped || phase == Failed
  }

  /** `ready` Ready cards, perhaps one busy card, finished cards up to `done`, then untouched ones. */
  ghost predicate Staged(cards: seq<Phase>, ready: nat, busy: Option<Phase>, done: nat) {
    var middle := ready + if busy.Some? then 1 else 0;
    && middle <= done <= |cards|
    && (forall i :: 0 <= i < ready ==> cards[i] == Ready)
    && (busy.Some? ==> cards[ready] == busy.value)
    && (forall i :: middle <= i < done ==> Done(cards[i]))
    && (forall i :: done <= i < |cards| ==> cards[i] == Created)
  }

  ghost predicate Climbing(cards: seq<Phase>) {
    || (exists ready: nat :: Staged(cards, ready, None, ready))
    || exists ready: nat, done: nat :: Staged(cards, ready, Some(Starting), done) && done == ready + 1
  }

  ghost predicate Unwinding(cards: seq<Phase>, done: nat) {
    exists ready: nat :: Staged(cards, ready, None, done) || Staged(cards, ready, Some(Stopping), done)
  }

  /** What any reader can rely on in any snapshot, whenever it is taken. */
  ghost predicate Coherent(s: Snapshot) {
    match s.deckRun
    case None => true
    case Some(DeckRun(state, cards)) =>
      && (s.state == Created ==> state == Created)
      && (s.state == Ready ==> state == Ready)
      && (s.state == Stopped ==> state == Stopped)
      && match state
         case Created => (s.state == Created || s.state == Starting) && Staged(cards, 0, None, 0)
         case Starting => s.state == Starting && (Climbing(cards) || exists done: nat :: Unwinding(cards, done))
         case Ready =>
           && (s.state == Starting || s.state == Ready || s.state == Stopping)
           && Staged(cards, |cards|, None, |cards|)
         case Stopping => s.state == Stopping && Unwinding(cards, |cards|)
         case Stopped =>
           && (s.state == Stopping || s.state == Stopped || s.state == Failed)
           && forall i :: 0 <= i < |cards| ==> cards[i] == Stopped
         case Failed =>
           && (s.state == Starting || s.state == Stopping || s.state == Failed)
           && exists done: nat :: Staged(cards, 0, None, done)
  }

  // ------------------------------------------------------------ the program

  /** The shared status, and every snapshot that readers could ever have taken of it. */
  class RuntimeStatus {
    var snapshot: Snapshot
    ghost var history: seq<Snapshot>

    /** Everything published so far is coherent, and the current status is the last of it. */
    ghost predicate Valid()
      reads this
    {
      && history != [] && history[|history| - 1] == snapshot
      && forall i {:trigger Coherent(history[i])} :: 0 <= i < |history| ==> Coherent(history[i])
    }

    /** What has been published stays published. */
    twostate predicate Extends()
      reads this
    {
      old(history) <= history
    }

    constructor (initial: Snapshot)
      requires Coherent(initial)
      ensures Valid() && snapshot == initial && history == [initial]
    {
      snapshot, history := initial, [initial];
    }

    method SetHostState(state: Phase)
      modifies this
      ensures snapshot == old(snapshot).(state := state)
      ensures history == old(history) + [snapshot] && Extends()
      ensures old(Valid()) && Coherent(snapshot) ==> Valid()
    {
      snapshot := snapshot.(state := state);
      history := history + [snapshot];
    }

    method SetDeckRunState(state: Phase)
      modifies this
      ensures snapshot == WithDeckState(old(snapshot), state)
      ensures history == old(history) + [snapshot] && Extends()
      ensures old(Valid()) && Coherent(snapshot) ==> Valid()
    {
      if snapshot.deckRun.Some? {
        snapshot := snapshot.(deckRun := Some(snapshot.deckRun.value.(state := state)));
      }
      history := history + [snapshot];
    }

    method SetCardState(index: nat, state: Phase)
      modifies this
      ensures snapshot == WithCardState(old(snapshot), index, state)
      ensures history == old(history) + [snapshot] && Extends()
      ensures old(Valid()) && Coherent(snapshot) ==> Valid()
    {
      if snapshot.deckRun.Some? && index < |snapshot.deckRun.value.cards| {
        var deckRun := snapshot.deckRun.value;
        snapshot := snapshot.(deckRun := Some(deckRun.(cards := deckRun.cards[index := state])));
      }
      history := history + [snapshot];
    }
  }

  function WithDeckState(s: Snapshot, state: Phase): (r: Snapshot) {
    if s.deckRun.None? then s else s.(deckRun := Some(s.deckRun.value.(state := state)))
  }

  function WithCardState(s: Snapshot, index: nat, state: Phase): (r: Snapshot) {
    if s.deckRun.None? || |s.deckRun.value.cards| <= index then s
    else s.(deckRun := Some(DeckRun(s.deckRun.value.state, s.deckRun.value.cards[index := state])))
  }

  function CardPhases(s: Snapshot): (cards: seq<Phase>) {
    if s.deckRun.Some? then s.deckRun.value.cards else []
  }

  /** A status with or without a deck run, as the composition has one or not. */
  function StatusOf(c: Composition, state: Phase, deckState: Phase, cards: seq<Phase>): (s: Snapshot) {
    Snapshot(state, if c.deck.Some? then Some(DeckRun(deckState, cards)) else None)
  }

  /** The deck run is being unwound, during a start or during a stop. */
  ghost predicate UnwindingDeck(s: Snapshot, done: nat) {
    && s.deckRun.Some?
    && s.deckRun.value.state == s.state
    && (s.state == Starting || (s.state == Stopping && done == |s.deckRun.value.cards|))
  }

  /** Cards `0..ready` are still to be stopped in a deck run that is being unwound. */
  ghost predicate Unwindable(s: Snapshot, ready: nat, done: nat) {
    UnwindingDeck(s, done) && Staged(CardPhases(s), ready, None, done)
  }

  lemma UnwindingIsCoherent(s: Snapshot, ready: nat, busy: Option<Phase>, done: nat)
    requires UnwindingDeck(s, done) && (busy == None || busy == Some(Stopping))
    requires Staged(s.deckRun.value.cards, ready, busy, done)
    ensures Coherent(s)
  {
    assert Unwinding(s.deckRun.value.cards, done);
  }

  /** Stopping the last Ready card keeps every intermediate snapshot coherent. */
  lemma StopCardSteps(s: Snapshot, index: nat, done: nat, final: Phase)
    requires Unwindable(s, index + 1, done) && Done(final)
    ensures var busy := WithCardState(s, index, Stopping);
      && Coherent(busy) && CardPhases(busy)[index] == Stopping
      && WithCardState(busy, index, final) == WithCardState(s, index, final)
    ensures Coherent(WithCardState(s, index, final))
  {
    var busy, after := WithCardState(s, index, Stopping), WithCardState(s, index, final);
    UnwindingIsCoherent(busy, index, Some(Stopping), done);
    UnwindingIsCoherent(after, index, None, done);
    assert CardPhases(s)[index := Stopping][index := final] == CardPhases(s)[index := final];
  }

  /** A stop loop over cards keeps a deck run unwindable, one card fewer at each round. */
  lemma {:induction false} StopDownUnwinds(c: Composition, p: Progress, low: nat, high: nat, done: nat)
    requires low <= high <= |c.Cards()| && Unwindable(p.status, high, done)
    ensures Unwindable(c.StopDown(p, |c.services| + low, |c.services| + high).status, low, done)
    decreases high - low
  {
    if low < high {
      StopDownUnwinds(c, p, low + 1, high, done);
    }
  }

  /** Stopping a run of cards leaves each as its stop call left it, and nothing else changed. */
  lemma {:induction false} StopDownCards(c: Composition, p: Progress, low: nat, high: nat)
    requires low <= high <= |c.Cards()| && p.status.deckRun.Some? && |CardPhases(p.status)| == |c.Cards()|
    ensures var r := c.StopDown(p, |c.services| + low, |c.services| + high).status;
      && r.state == p.status.state && r.deckRun.Some? && r.deckRun.value.state == p.status.deckRun.value.state
      && |CardPhases(r)| == |c.Cards()|
      && (forall i :: low <= i < high ==> CardPhases(r)[i] == AfterStop(c.Cards()[i].script.onStop))
      && forall i :: 0 <= i < |c.Cards()| && !(low <= i < high) ==> CardPhases(r)[i] == CardPhases(p.status)[i]
    decreases high - low
  {
    if low < high {
      StopDownCards(c, p, low + 1, high);
    }
  }

  /** The status while card `index` is in some state, the ones before it Ready and the rest untouched. */
  function CardAt(c: Composition, index: nat, phase: Phase): (s: Snapshot)
    requires index < |c.Cards()|
  {
    StatusOf(c, Starting, Starting, c.ClimbedCards(index)[index := phase])
  }

  lemma TouchCard(c: Composition, index: nat, before: Phase, after: Phase)
    requires index < |c.Cards()|
    ensures WithCardState(CardAt(c, index, before), index, after) == CardAt(c, index, after)
    ensures CardAt(c, index, Created) == StatusOf(c, Starting, Starting, c.ClimbedCards(index))
    ensures CardAt(c, index, Ready) == StatusOf(c, Starting, Starting, c.ClimbedCards(index + 1))
  {
    assert c.ClimbedCards(index)[index := before][index := after] == c.ClimbedCards(index)[index := after];
    assert c.ClimbedCards(index)[index := Created] == c.ClimbedCards(index);
    assert c.ClimbedCards(index)[index := Ready] == c.ClimbedCards(index + 1);
  }

  /** Whatever a card start does, the status around it is coherent. */
  lemma CardIsCoherent(c: Composition, index: nat, phase: Phase)
    requires index < |c.Cards()|
    ensures Coherent(CardAt(c, index, phase))
    ensures c.deck.Some? && Done(phase) ==> Unwindable(CardAt(c, index, phase), index, index + 1)
  {
    var cards := c.ClimbedCards(index)[index := phase];
    match phase
    case Created => assert Staged(cards, index, None, index);
    case Ready => assert Staged(cards, index + 1, None, index + 1);
    case Starting => assert Staged(cards, index, Some(Starting), index + 1);
    case Stopping =>
      assert Staged(cards, index, Some(Stopping), index + 1);
      assert Unwinding(cards, index + 1);
    case _ =>
      assert Staged(cards, index, None, index + 1);
      assert Unwinding(cards, index + 1);
  }

  /** Every status published on the way up, around the card starts, is coherent. */
  lemma ClimbBegins(c: Composition)
    ensures Coherent(StatusOf(c, Starting, Created, c.ClimbedCards(0)))
    ensures Coherent(StatusOf(c, Starting, Starting, c.ClimbedCards(0)))
  {
    assert Staged(c.ClimbedCards(0), 0, None, 0);
  }

  lemma ClimbFails(c: Composition)
    ensures Coherent(StatusOf(c, Starting, Failed, c.ClimbedCards(0)))
    ensures Coherent(StatusOf(c, Failed, Failed, c.ClimbedCards(0)))
  {
    assert Staged(c.ClimbedCards(0), 0, None, 0);
  }

  lemma ClimbEnds(c: Composition)
    ensures Coherent(StatusOf(c, Starting, Ready, c.ClimbedCards(|c.Cards()|)))
    ensures Coherent(StatusOf(c, Ready, Ready, c.ClimbedCards(|c.Cards()|)))
  {
    assert Staged(c.ClimbedCards(|c.Cards()|), |c.Cards()|, None, |c.Cards()|);
  }

  /** Every status published when stopping, before and after the cards, is coherent. */
  lemma DescentIsCoherent(c: Composition)
    ensures Coherent(StatusOf(c, Stopping, Ready, c.ClimbedCards(|c.Cards()|)))
    ensures Coherent(StatusOf(c, Stopping, Stopping, c.ClimbedCards(|c.Cards()|)))
    ensures c.deck.Some? ==>
      Unwindable(StatusOf(c, Stopping, Stopping, c.ClimbedCards(|c.Cards()|)), |c.Cards()|, |c.Cards()|)
    ensures Coherent(StatusOf(c, Stopping, Failed, c.StoppedCards()))
    ensures Coherent(StatusOf(c, Failed, Failed, c.StoppedCards()))
    ensures c.StopFailures(|c.services|, c.Count()) == [] ==>
      && Coherent(StatusOf(c, Stopping, Stopped, c.StoppedCards()))
      && Coherent(StatusOf(c, Failed, Stopped, c.StoppedCards()))
      && Coherent(StatusOf(c, Stopped, Stopped, c.StoppedCards()))
  {
    assert Staged(c.ClimbedCards(|c.Cards()|), |c.Cards()|, None, |c.Cards()|);
    assert Unwinding(c.ClimbedCards(|c.Cards()|), |c.Cards()|);
    assert Staged(c.StoppedCards(), 0, None, |c.Cards()|);
    if c.StopFailures(|c.services|, c.Count()) == [] {
      c.SilentStopsSucceed(|c.services|, c.Count());
      forall i | 0 <= i < |c.Cards()| ensures c.StoppedCards()[i] == Stopped {
        assert c.ScriptAt(|c.services| + i).onStop.Succeeds?;
      }
    }
  }

  /** A stop loop over all the cards of a ready deck. */
  lemma StopAllCards(c: Composition, calls: seq<Invocation>)
    requires c.deck.Some?
    ensures var ready := StatusOf(c, Stopping, Stopping, c.ClimbedCards(|c.Cards()|));
      c.StopDown(Progress(calls, [], ready), |c.services|, c.Count()) == Progress(
        calls + c.Stops(|c.services|, c.Count()),
        c.StopFailures(|c.services|, c.Count()),
        StatusOf(c, Stopping, Stopping, c.StoppedCards()))
  {
    var p := Progress(calls, [], StatusOf(c, Stopping, Stopping, c.ClimbedCards(|c.Cards()|)));
    var r := c.StopDown(p, |c.services|, c.Count());
    c.StopDownCalls(p, |c.services|, c.Count());
    StopDownCards(c, p, 0, |c.Cards()|);
    assert CardPhases(r.status) == c.StoppedCards();
    assert r.failures == c.StopFailures(|c.services|, c.Count());
  }

  /** The card rollback of a failed start `f`. */
  lemma RollBackCards(c: Composition, calls: seq<Invocation>, index: nat)
    requires c.deck.Some? && index < |c.Cards()|
    ensures var f := |c.services| + index;
      c.StopDown(Progress(calls, [], CardAt(c, index, c.FailedCard(index))), |c.services|, f) == Progress(
        calls + c.Stops(|c.services|, f),
        c.StopFailures(|c.services|, f),
        StatusOf(c, Starting, Starting, c.RolledBackCards(f)))
  {
    var f := |c.services| + index;
    var p := Progress(calls, [], CardAt(c, index, c.FailedCard(index)));
    var r := c.StopDown(p, |c.services|, f);
    c.StopDownCalls(p, |c.services|, f);
    StopDownCards(c, p, 0, index);
    assert CardPhases(r.status) == c.RolledBackCards(f);
    assert r.failures == c.StopFailures(|c.services|, f);
  }

  lemma ServicesTouchNoCard(c: Composition, f: nat)
    requires f < |c.services|
    ensures c.RolledBackCards(f) == c.ClimbedCards(0)
  {
  }

  lemma RolledBackIsCoherent(c: Composition, index: nat)
    requires index < |c.Cards()|
    ensures Coherent(StatusOf(c, Starting, Failed, c.RolledBackCards(|c.services| + index)))
    ensures Coherent(StatusOf(c, Failed, Failed, c.RolledBackCards(|c.services| + index)))
  {
    assert Staged(c.RolledBackCards(|c.services| + index), 0, None, index + 1);
  }

  /** What a card needs to match: its exact key and its exact definition. */
  datatype CardIdentity = CardIdentity(key: string, definition: string)

  datatype LaunchError =
    | ImplementationCount(expected: nat, actual: nat)
    | ImplementationMismatch(index: nat, locked: CardIdentity, implementation: CardIdentity)

  /** `DeckLaunch::new` binds implementations to the locked cards position by position. */
  method CheckLaunch(locked: seq<CardIdentity>, implementations: seq<CardIdentity>) returns (r: Option<LaunchError>)
    ensures r == None <==> locked == implementations
    ensures |locked| != |implementations| ==> r == Some(ImplementationCount(|locked|, |implementations|))
    ensures r.Some? && |locked| == |implementations| ==> exists index ::
        && 0 <= index < |locked| && locked[index] != implementations[index]
        && locked[..index] == implementations[..index]
        && r.value == ImplementationMismatch(index, locked[index], implementations[index])
  {
    if |implementations| != |locked| {
      return Some(ImplementationCount(|locked|, |implementations|));
    }
    for index := 0 to |locked|
      invariant locked[..index] == implementations[..index]
    {
      if implementations[index].key != locked[index].key
         || implementations[index].definition != locked[index].definition {
        return Some(ImplementationMismatch(index, locked[index], implementations[index]));
      }
    }
    assert locked == locked[..|locked|] && implementations == implementations[..|locked|];
    return None;
  }

  class RuntimeHost {
    const composition: Composition
    const status: RuntimeStatus
    ghost var calls: seq<Invocation>

    ghost predicate Valid()
      reads this, status
    {
      && status.Valid()
      && (status.snapshot.deckRun.Some? <==> composition.deck.Some?)
      && |CardPhases(status.snapshot)| == |composition.Cards()|
    }

    /** `RuntimeHost::build`, which bounds the number of services. */
    static method Build(composition: Composition) returns (r: Result<RuntimeHost, nat>)
      ensures r.Err? <==> |composition.services| > 16
      ensures r.Err? ==> r.error == |composition.services|
      ensures r.Ok? ==>
        && fresh(r.value) && fresh(r.value.status) && r.value.Settled()
        && r.value.composition == composition && r.value.calls == [] && r.value.Lived()
        && r.value.status.snapshot.state == Created
    {
      if |composition.services| > MAX_CORE_SERVICES {
        return Err(|composition.services|);
      }
      var host := new RuntimeHost(composition);
      return Ok(host);
    }

    constructor (composition: Composition)
      ensures Valid() && this.composition == composition && calls == []
      ensures status.snapshot == StatusOf(composition, Created, Created, composition.ClimbedCards(0))
      ensures fresh(status)
    {
      var cards := seq(|composition.Cards()|, _ => Created);
      var run := if composition.deck.Some? then Some(DeckRun(Created, cards)) else None;
      assert cards == composition.ClimbedCards(0);
      this.composition := composition;
      this.status := new RuntimeStatus(Snapshot(Created, run));
      calls := [];
    }

    /**
      `invoke_owner`: run one callback of owner `k` under the deadline.  The precondition is what
      the owner may rely on when it reads the status from inside the callback.
     */
    method InvokeOwner(k: nat, action: Action) returns (failure: Option<Failure>)
      requires Valid() && k < composition.Count()
      requires status.snapshot.state == Starting || (action == ToStop && status.snapshot.state == Stopping)
      requires k >= |composition.services| ==>
        CardPhases(status.snapshot)[k - |composition.services|] == if action == ToStart then Starting else Stopping
      modifies this`calls
      ensures calls == old(calls) + [if action == ToStart then composition.StartCall(k) else composition.StopCall(k)]
      ensures failure == Reported(if action == ToStart then composition.StartCall(k) else composition.StopCall(k))
    {
      var owner := composition.OwnerAt(k);
      var script := composition.ScriptAt(k);
      var outcome := if action == ToStart then script.onStart else script.onStop;
      calls := calls + [Invocation(owner, action, outcome)];
      match outcome
      case Succeeds => failure := None;
      case Errors => failure := Some(Failure(owner, action, OwnerError));
      case TimesOut => failure := Some(Failure(owner, action, TimedOut));
    }

    ghost function View(failures: seq<Failure>): (p: Progress)
      reads this, status
    {
      Progress(calls, failures, status.snapshot)
    }

    method StopStartedServices(started: nat) returns (failures: seq<Failure>)
      requires Valid() && started <= |composition.services|
      requires status.snapshot.state == Starting || status.snapshot.state == Stopping
      modifies this`calls
      ensures calls == old(calls) + composition.Stops(0, started)
      ensures failures == composition.StopFailures(0, started)
    {
      failures := [];
      for index := started downto 0
        invariant calls == old(calls) + composition.Stops(index, started)
        invariant failures == composition.StopFailures(index, started)
      {
        Assoc(old(calls), composition.Stops(index + 1, started), [composition.StopCall(index)]);
        var failure := InvokeOwner(index, ToStop);
        if failure.Some? {
          failures := failures + [failure.value];
        }
      }
    }

    method BeginCardStop(index: nat, ghost done: nat)
      requires Valid() && index < |composition.Cards()| && Unwindable(status.snapshot, index + 1, done)
      modifies status
      ensures Valid() && status.Extends()
      ensures status.snapshot == WithCardState(old(status.snapshot), index, Stopping)
      ensures status.snapshot.state == old(status.snapshot).state && CardPhases(status.snapshot)[index] == Stopping
    {
      StopCardSteps(status.snapshot, index, done, Stopped);
      status.SetCardState(index, Stopping);
    }

    method EndCardStop(index: nat, final: Phase, ghost before: Snapshot, ghost done: nat)
      requires Valid() && index < |composition.Cards()| && Unwindable(before, index + 1, done) && Done(final)
      requires status.snapshot == WithCardState(before, index, Stopping)
      modifies status
      ensures Valid() && status.Extends() && status.snapshot == WithCardState(before, index, final)
    {
      StopCardSteps(before, index, done, final);
      status.SetCardState(index, final);
    }

    method StopCard(index: nat, failuresBefore: seq<Failure>, ghost done: nat) returns (failures: seq<Failure>)
      requires Valid() && index < |composition.Cards()| && Unwindable(status.snapshot, index + 1, done)
      modifies this`calls, status
      ensures Valid() && status.Extends()
      ensures View(failures) == composition.StopOne(old(View(failuresBefore)), |composition.services| + index)
    {
      ghost var before := status.snapshot;
      BeginCardStop(index, done);
      var failure := InvokeOwner(|composition.services| + index, ToStop);
      if failure.None? {
        EndCardStop(index, Stopped, before, done);
        failures := failuresBefore;
      } else {
        EndCardStop(index, Failed, before, done);
        failures := failuresBefore + [failure.value];
      }
    }

    /** One round of `stop_started_cards`, after the rounds of the cards above it. */
    method StopNextCard(
      index: nat, failuresBefore: seq<Failure>, ghost from: Progress, ghost started: nat, ghost done: nat)
      returns (failures: seq<Failure>)
      requires Valid() && index < started <= |composition.Cards()| && Unwindable(from.status, started, done)
      requires var first := |composition.services|;
        View(failuresBefore) == composition.StopDown(from, first + index + 1, first + started)
      modifies this`calls, status
      ensures Valid() && status.Extends()
      ensures var first := |composition.services|;
        View(failures) == composition.StopDown(from, first + index, first + started)
    {
      StopDownUnwinds(composition, from, index + 1, started, done);
      failures := StopCard(index, failuresBefore, done);
    }

    /** The loop of `stop_started_cards`. */
    method StopCardsDown(started: nat, ghost done: nat) returns (failures: seq<Failure>)
      requires Valid() && started <= |composition.Cards()| && Unwindable(status.snapshot, started, done)
      modifies this`calls, status
      ensures Valid() && status.Extends()
      ensures var first := |composition.services|;
        View(failures) == composition.StopDown(old(View([])), first, first + started)
    {
      failures := [];
      ghost var first := |composition.services|;
      for index := started downto 0
        invariant Valid() && status.Extends()
        invariant View(failures) == composition.StopDown(old(View([])), first + index, first + started)
      {
        failures := StopNextCard(index, failures, old(View([])), started, done);
      }
    }

    /** `stop_started_cards`: every card that was stopped shows how its stop went. */
    method StopStartedCards(started: nat, ghost done: nat) returns (failures: seq<Failure>)
      requires Valid() && started <= |composition.Cards()| && Unwindable(status.snapshot, started, done)
      modifies this`calls, status
      ensures Valid() && status.Extends()
      ensures var first := |composition.services|;
        View(failures) == composition.StopDown(old(View([])), first, first + started)
      ensures forall i :: 0 <= i < started ==>
        ShowsStop(CardPhases(status.snapshot)[i], composition.Cards()[i].script.onStop)
    {
      ghost var p := View([]);
      failures := StopCardsDown(started, done);
      StopDownCards(composition, p, 0, started);
    }

    /** Between calls the status is one of the settled ones. */
    ghost predicate Settled()
      reads this, status
    {
      && Valid()
      && (status.snapshot.state == Created ==>
        status.snapshot == StatusOf(composition, Created, Created, composition.ClimbedCards(0)))
      && (status.snapshot.state == Ready ==>
        status.snapshot == StatusOf(composition, Ready, Ready, composition.ClimbedCards(|composition.Cards()|)))
    }

    /** The calls made so far are those that lead to the settled state the host is in. */
    ghost predicate Lived()
      reads this, status
    {
      var state := status.snapshot.state;
      && (state == Created || state == Ready || state == Stopped || state == Failed)
      && calls == CallsUpTo(composition, state)
      && (state == Ready || state == Stopped ==> composition.FirstFault(0) == composition.Count())
    }

    /**
      Any sequence of `start` and `stop` calls, refused ones included: over the whole life of a host,
      every owner is stopped exactly as often as is due.
     */
    method Drive(requests: seq<Action>)
      requires Settled() && Lived()
      modifies this`calls, status
      ensures Settled() && status.Extends() && Lived()
      ensures KeysDistinct(composition) ==> forall k: nat :: k < composition.Count() ==>
        StopCount(composition.OwnerAt(k), calls) == StopsDue(composition, status.snapshot.state, k)
    {
      for i := 0 to |requests|
        invariant Settled() && status.Extends() && Lived()
      {
        match requests[i] {
          case ToStart => var _ := Start();
          case ToStop => var _ := Stop();
        }
      }
      if KeysDistinct(composition) {
        forall k: nat | k < composition.Count()
          ensures StopCount(composition.OwnerAt(k), calls) == StopsDue(composition, status.snapshot.state, k)
        {
          StopsAreDue(composition, status.snapshot.state, k);
        }
      }
    }

    method StopDeck() returns (failures: seq<Failure>)
      requires Valid()
      requires status.snapshot ==
        StatusOf(composition, Stopping, Ready, composition.ClimbedCards(|composition.Cards()|))
      modifies this`calls, status
      ensures Valid() && status.Extends()
      ensures failures == composition.StopFailures(|composition.services|, composition.Count())
      ensures calls == old(calls) + composition.Stops(|composition.services|, composition.Count())
      ensures status.snapshot ==
        StatusOf(composition, Stopping, if failures == [] then Stopped else Failed, composition.StoppedCards())
    {
      if composition.deck.None? {
        return [];
      }
      DescentIsCoherent(composition);
      status.SetDeckRunState(Stopping);
      failures := StopAllStartedCards();
      DescentIsCoherent(composition);
      status.SetDeckRunState(if failures == [] then Stopped else Failed);
    }

    method StopAllStartedCards() returns (failures: seq<Failure>)
      requires Valid() && composition.deck.Some?
      requires status.snapshot ==
        StatusOf(composition, Stopping, Stopping, composition.ClimbedCards(|composition.Cards()|))
      modifies this`calls, status
      ensures Valid() && status.Extends()
      ensures failures == composition.StopFailures(|composition.services|, composition.Count())
      ensures calls == old(calls) + composition.Stops(|composition.services|, composition.Count())
      ensures status.snapshot == StatusOf(composition, Stopping, Stopping, composition.StoppedCards())
    {
      DescentIsCoherent(composition);
      StopAllCards(composition, calls);
      failures := StopStartedCards(|composition.Cards()|, |composition.Cards()|);
    }

    /**
      `stop`: one stop for every owner, in exact reverse start order; it reports exactly the stops
      that failed and ends `Stopped` exactly when none did.
     */
    method Stop() returns (r: Result<(), HostError>)
      requires Settled()
      modifies this`calls, status
      ensures Settled() && status.Extends()
      ensures old(status.snapshot).state != Ready ==>
        r == Err(InvalidTransition(status.snapshot.state)) && unchanged(this) && unchanged(status)
      ensures old(status.snapshot).state == Ready ==>
        var failures := composition.StopFailures(0, composition.Count());
        && calls == old(calls) + composition.Stops(0, composition.Count())
        && r == (if failures == [] then Ok(()) else Err(StopFailed(failures)))
        && status.snapshot == StatusOf(
          composition,
          if failures == [] then Stopped else Failed,
          if composition.StopFailures(|composition.services|, composition.Count()) == [] then Stopped else Failed,
          composition.StoppedCards())
      ensures old(status.snapshot).state == Ready ==>
        StopShows(composition, status.snapshot, if r.Ok? then [] else r.error.failures)
    {
      StoppedShows(composition);
      if status.snapshot.state != Ready {
        return Err(InvalidTransition(status.snapshot.state));
      }
      DescentIsCoherent(composition);
      status.SetHostState(Stopping);
      var failures := StopDeck();
      var serviceFailures := StopStartedServices(|composition.services|);
      composition.StopsJoin(old(calls));
      failures := failures + serviceFailures;
      if failures == [] {
        status.SetHostState(Stopped);
        return Ok(());
      } else {
        status.SetHostState(Failed);
        return Err(StopFailed(failures));
      }
    }

    // ---------------------------------------------------------------- start

    /** The cleanup after the start of service `index` failed. */
    method AbandonService(index: nat, failure: Failure) returns (cleanup: seq<Failure>)
      requires Valid() && index < |composition.services| && composition.FirstFault(0) == index
      requires Some(failure) == Reported(composition.StartCall(index))
      requires status.snapshot == StatusOf(composition, Starting, Created, composition.ClimbedCards(0))
      modifies this`calls, status
      ensures Valid() && status.Extends()
      ensures calls == old(calls) + composition.Rollback(index)
      ensures cleanup == composition.RollbackFailures(index)
      ensures status.snapshot == StatusOf(composition, Failed, Failed, composition.ClimbedCards(0))
    {
      cleanup := [];
      if failure.kind.TimedOut? {
        var cleanupFailure := InvokeOwner(index, ToStop);
        if cleanupFailure.Some? {
          cleanup := [cleanupFailure.value];
        }
      }
      assert calls == old(calls) + composition.InterruptedStop(index);
      assert cleanup == Failures(composition.InterruptedStop(index));
      var stopFailures := StopStartedServices(index);
      Assoc(old(calls), composition.InterruptedStop(index), composition.Stops(0, index));
      cleanup := cleanup + stopFailures;
      ClimbFails(composition);
      status.SetDeckRunState(Failed);
      status.SetHostState(Failed);
    }

    method StartServices() returns (error: Option<HostError>)
      requires Valid() && status.snapshot == StatusOf(composition, Starting, Created, composition.ClimbedCards(0))
      modifies this`calls, status
      ensures Valid() && status.Extends()
      ensures var f := composition.FirstFault(0);
        if f < |composition.services| then
          && error == Some(StartFailed(Reported(composition.StartCall(f)).value, composition.RollbackFailures(f)))
          && calls == old(calls) + composition.StartTrace()
          && status.snapshot == StatusOf(composition, Failed, Failed, composition.RolledBackCards(f))
        else
          && error == None
          && calls == old(calls) + composition.Starts(|composition.services|)
          && status.snapshot == old(status.snapshot)
    {
      for index := 0 to |composition.services|
        invariant Valid() && status.Extends() && status.snapshot == old(status.snapshot)
        invariant index <= composition.FirstFault(0)
        invariant calls == old(calls) + composition.Starts(index)
      {
        Assoc(old(calls), composition.Starts(index), [composition.StartCall(index)]);
        var failure := InvokeOwner(index, ToStart);
        if failure.Some? {
          ServicesTouchNoCard(composition, index);
          var cleanup := AbandonService(index, failure.value);
          Assoc(old(calls), composition.Starts(index + 1), composition.Rollback(index));
          return Some(StartFailed(failure.value, cleanup));
        }
      }
      return None;
    }

    method MoveCard(index: nat, ghost before: Phase, after: Phase)
      requires Valid() && index < |composition.Cards()|
      requires status.snapshot == CardAt(composition, index, before)
      modifies status
      ensures Valid() && status.Extends() && status.snapshot == CardAt(composition, index, after)
    {
      TouchCard(composition, index, before, after);
      CardIsCoherent(composition, index, after);
      status.SetCardState(index, after);
    }

    /** The failed card's own cleanup: an interrupted start is stopped at once. */
    method InterruptCard(index: nat, failure: Failure) returns (cleanup: seq<Failure>)
      requires Valid() && composition.deck.Some? && index < |composition.Cards()|
      requires Some(failure) == Reported(composition.StartCall(|composition.services| + index))
      requires status.snapshot == CardAt(composition, index, Starting)
      modifies this`calls, status
      ensures Valid() && status.Extends()
      ensures var f := |composition.services| + index;
        && calls == old(calls) + composition.InterruptedStop(f)
        && cleanup == Failures(composition.InterruptedStop(f))
        && status.snapshot == CardAt(composition, index, composition.FailedCard(index))
    {
      MoveCard(index, Starting, Failed);
      cleanup := [];
      if failure.kind.TimedOut? {
        MoveCard(index, Failed, Stopping);
        var cleanupFailure := InvokeOwner(|composition.services| + index, ToStop);
        if cleanupFailure.None? {
          MoveCard(index, Stopping, Stopped);
        } else {
          MoveCard(index, Stopping, Failed);
          cleanup := [cleanupFailure.value];
        }
      }
    }

    method StartCard(index: nat) returns (failure: Option<Failure>)
      requires Valid() && index < |composition.Cards()|
      requires status.snapshot == StatusOf(composition, Starting, Starting, composition.ClimbedCards(index))
      modifies this`calls, status
      ensures Valid() && status.Extends()
      ensures calls == old(calls) + [composition.StartCall(|composition.services| + index)]
      ensures failure == Reported(composition.StartCall(|composition.services| + index))
      ensures status.snapshot ==
        if failure.None? then StatusOf(composition, Starting, Starting, composition.ClimbedCards(index + 1))
        else CardAt(composition, index, Starting)
    {
      TouchCard(composition, index, Starting, Ready);
      MoveCard(index, Created, Starting);
      failure := InvokeOwner(|composition.services| + index, ToStart);
      if failure.None? {
        MoveCard(index, Starting, Ready);
      }
    }

    method AbandonCard(index: nat, failure: Failure) returns (cleanup: seq<Failure>)
      requires Valid() && composition.deck.Some? && index < |composition.Cards()|
      requires Some(failure) == Reported(composition.StartCall(|composition.services| + index))
      requires status.snapshot == CardAt(composition, index, Starting)
      modifies this`calls, status
      ensures Valid() && status.Extends()
      ensures var f := |composition.services| + index;
        && calls == old(calls) + composition.InterruptedStop(f) + composition.Stops(|composition.services|, f)
        && cleanup == Failures(composition.InterruptedStop(f)) + composition.StopFailures(|composition.services|, f)
        && status.snapshot == StatusOf(composition, Starting, Failed, composition.RolledBackCards(f))
    {
      cleanup := InterruptCard(index, failure);
      var stopFailures := RollBackStartedCards(index);
      cleanup := cleanup + stopFailures;
      FailDeck(index);
    }

    method FailDeck(index: nat)
      requires Valid() && index < |composition.Cards()|
      requires status.snapshot ==
        StatusOf(composition, Starting, Starting, composition.RolledBackCards(|composition.services| + index))
      modifies status
      ensures Valid() && status.Extends()
      ensures status.snapshot ==
        StatusOf(composition, Starting, Failed, composition.RolledBackCards(|composition.services| + index))
    {
      RolledBackIsCoherent(composition, index);
      status.SetDeckRunState(Failed);
    }

    /** The reverse stops of the cards before the one whose start failed. */
    method RollBackStartedCards(index: nat) returns (failures: seq<Failure>)
      requires Valid() && composition.deck.Some? && index < |composition.Cards()|
      requires status.snapshot == CardAt(composition, index, composition.FailedCard(index))
      modifies this`calls, status
      ensures Valid() && status.Extends()
      ensures var s := |composition.services|;
        && calls == old(calls) + composition.Stops(s, s + index)
        && failures == composition.StopFailures(s, s + index)
        && status.snapshot == StatusOf(composition, Starting, Starting, composition.RolledBackCards(s + index))
    {
      CardIsCoherent(composition, index, composition.FailedCard(index));
      RollBackCards(composition, calls, index);
      failures := StopStartedCards(index, index + 1);
    }

    /** The card at the first fault failed to start, and the cards were rolled back. */
    ghost predicate CardsRolledBack(log: seq<Invocation>, fault: Option<(Failure, seq<Failure>)>)
      requires |composition.services| <= composition.FirstFault(0) < composition.Count()
      reads this, status
    {
      var f, s := composition.FirstFault(0), |composition.services|;
      && fault == Some((Reported(composition.StartCall(f)).value,
           Failures(composition.InterruptedStop(f)) + composition.StopFailures(s, f)))
      && calls ==
           log + composition.StartsFrom(s, f + 1) + composition.InterruptedStop(f) + composition.Stops(s, f)
      && status.snapshot == StatusOf(composition, Starting, Failed, composition.RolledBackCards(f))
    }

    /** The cards before `index` have started, in order, and none has failed to. */
    ghost predicate CardsStarted(log: seq<Invocation>, index: nat)
      requires index <= |composition.Cards()|
      reads this, status
    {
      var s := |composition.services|;
      && s + index <= composition.FirstFault(0)
      && calls == log + composition.StartsFrom(s, s + index)
      && status.snapshot == StatusOf(composition, Starting, Starting, composition.ClimbedCards(index))
    }

    /** One round of the card loop of `start`. */
    method StartCardOrAbandon(ghost log: seq<Invocation>, index: nat)
      returns (fault: Option<(Failure, seq<Failure>)>)
      requires Valid() && composition.deck.Some? && index < |composition.Cards()| && CardsStarted(log, index)
      modifies this`calls, status
      ensures Valid() && status.Extends()
      ensures fault.None? ==> CardsStarted(log, index + 1)
      ensures fault.Some? ==>
        composition.FirstFault(0) == |composition.services| + index && CardsRolledBack(log, fault)
    {
      ghost var s := |composition.services|;
      Assoc(log, composition.StartsFrom(s, s + index), [composition.StartCall(s + index)]);
      var failure := StartCard(index);
      if failure.None? {
        return None;
      }
      var cleanup := AbandonCard(index, failure.value);
      return Some((failure.value, cleanup));
    }

    method StartCards() returns (fault: Option<(Failure, seq<Failure>)>)
      requires Valid() && composition.deck.Some? && CardsStarted(calls, 0)
      modifies this`calls, status
      ensures Valid() && status.Extends()
      ensures fault.None? ==> CardsStarted(old(calls), |composition.Cards()|)
      ensures fault.Some? ==>
        && |composition.services| <= composition.FirstFault(0) < composition.Count()
        && CardsRolledBack(old(calls), fault)
    {
      ghost var log := calls;
      for index := 0 to |composition.Cards()|
        invariant Valid() && status.Extends() && CardsStarted(log, index)
      {
        fault := StartCardOrAbandon(log, index);
        if fault.Some? {
          return;
        }
      }
      return None;
    }

    /**
      `start`: services then cards in index order; the first start that does not succeed is
      answered by the stop of an interrupted start and the reverse stops of every owner started.
     */
    method Start() returns (r: Result<(), HostError>)
      requires Settled()
      modifies this`calls, status
      ensures Settled() && status.Extends()
      ensures old(status.snapshot).state != Created ==>
        r == Err(InvalidTransition(status.snapshot.state)) && unchanged(this) && unchanged(status)
      ensures old(status.snapshot).state == Created ==>
        var f := composition.FirstFault(0);
        && calls == old(calls) + composition.StartTrace()
        && if f < composition.Count() then
             && r == Err(StartFailed(Reported(composition.StartCall(f)).value, composition.RollbackFailures(f)))
             && status.snapshot == StatusOf(composition, Failed, Failed, composition.RolledBackCards(f))
           else
             && r == Ok(())
             && status.snapshot == StatusOf(composition, Ready, Ready, composition.ClimbedCards(|composition.Cards()|))
      ensures old(status.snapshot).state == Created ==> StartShows(composition, status.snapshot, r.Ok?)
    {
      StartedShows(composition);
      if status.snapshot.state != Created {
        return Err(InvalidTransition(status.snapshot.state));
      }
      ClimbBegins(composition);
      status.SetHostState(Starting);
      var error := StartOwners();
      return if error.Some? then Err(error.value) else Ok(());
    }

    method StartOwners() returns (error: Option<HostError>)
      requires Valid() && status.snapshot == StatusOf(composition, Starting, Created, composition.ClimbedCards(0))
      modifies this`calls, status
      ensures Valid() && status.Extends() && calls == old(calls) + composition.StartTrace()
      ensures var f := composition.FirstFault(0);
        if f < composition.Count() then
          && error == Some(StartFailed(Reported(composition.StartCall(f)).value, composition.RollbackFailures(f)))
          && status.snapshot == StatusOf(composition, Failed, Failed, composition.RolledBackCards(f))
        else
          && error == None
          && status.snapshot == StatusOf(composition, Ready, Ready, composition.ClimbedCards(|composition.Cards()|))
    {
      ghost var log := calls;
      error := StartServices();
      if error.Some? {
        return;
      }
      if composition.deck.Some? {
        error := StartDeck(log);
        if error.Some? {
          return;
        }
      }
      ClimbEnds(composition);
      status.SetHostState(Ready);
    }

    method StartDeck(ghost log: seq<Invocation>) returns (error: Option<HostError>)
      requires Valid() && composition.deck.Some? && |composition.services| <= composition.FirstFault(0)
      requires status.snapshot == StatusOf(composition, Starting, Created, composition.ClimbedCards(0))
      requires calls == log + composition.Starts(|composition.services|)
      modifies this`calls, status
      ensures Valid() && status.Extends() && calls == log + composition.StartTrace()
      ensures var f := composition.FirstFault(0);
        if f < composition.Count() then
          && error == Some(StartFailed(Reported(composition.StartCall(f)).value, composition.RollbackFailures(f)))
          && status.snapshot == StatusOf(composition, Failed, Failed, composition.RolledBackCards(f))
        else
          && error == None
          && status.snapshot ==
               StatusOf(composition, Starting, Ready, composition.ClimbedCards(|composition.Cards()|))
    {
      ClimbBegins(composition);
      status.SetDeckRunState(Starting);
      ghost var before := calls;
      assert before + composition.StartsFrom(|composition.services|, |composition.services|) == before;
      var fault := StartCards();
      if fault.Some? {
        error := AbandonDeck(log, fault);
      } else {
        FinishDeck(log);
        error := None;
      }
    }

    /** The deck is ready once all of its cards have started. */
    method FinishDeck(ghost log: seq<Invocation>)
      requires Valid() && composition.deck.Some?
      requires CardsStarted(log + composition.Starts(|composition.services|), |composition.Cards()|)
      modifies status
      ensures Valid() && status.Extends() && calls == log + composition.StartTrace()
      ensures composition.FirstFault(0) == composition.Count()
      ensures status.snapshot ==
        StatusOf(composition, Starting, Ready, composition.ClimbedCards(|composition.Cards()|))
    {
      composition.StartsJoin(log);
      ClimbEnds(composition);
      status.SetDeckRunState(Ready);
    }

    /** The service rollback after the cards of a failed start were cleaned up. */
    method AbandonDeck(ghost log: seq<Invocation>, fault: Option<(Failure, seq<Failure>)>)
      returns (error: Option<HostError>)
      requires Valid() && |composition.services| <= composition.FirstFault(0) < composition.Count()
      requires CardsRolledBack(log + composition.Starts(|composition.services|), fault)
      modifies this`calls, status
      ensures Valid() && status.Extends() && calls == log + composition.StartTrace()
      ensures var f := composition.FirstFault(0);
        && error == Some(StartFailed(Reported(composition.StartCall(f)).value, composition.RollbackFailures(f)))
        && status.snapshot == StatusOf(composition, Failed, Failed, composition.RolledBackCards(f))
    {
      composition.StartsJoin(log);
      var cleanupFailures := RollBackServices(log, fault.value.1);
      return Some(StartFailed(fault.value.0, cleanupFailures));
    }

    method RollBackServices(ghost log: seq<Invocation>, cardFailures: seq<Failure>) returns (cleanup: seq<Failure>)
      requires Valid() && |composition.services| <= composition.FirstFault(0) < composition.Count()
      requires var f, s := composition.FirstFault(0), |composition.services|;
        && status.snapshot == StatusOf(composition, Starting, Failed, composition.RolledBackCards(f))
        && calls == log + composition.Starts(f + 1) + composition.InterruptedStop(f) + composition.Stops(s, f)
        && cardFailures == Failures(composition.InterruptedStop(f)) + composition.StopFailures(s, f)
      modifies this`calls, status
      ensures Valid() && status.Extends() && calls == log + composition.StartTrace()
      ensures cleanup == composition.RollbackFailures(composition.FirstFault(0))
      ensures status.snapshot ==
        StatusOf(composition, Failed, Failed, composition.RolledBackCards(composition.FirstFault(0)))
    {
      var serviceFailures := StopStartedServices(|composition.services|);
      composition.RollbackJoins(log, cardFailures, serviceFailures);
      cleanup := cardFailures + serviceFailures;
      RolledBackIsCoherent(composition, composition.FirstFault(0) - |composition.services|);
      status.SetHostState(Failed);
    }
  }
}
