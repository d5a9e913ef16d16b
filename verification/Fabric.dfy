/**
  Admission and dispatch of Fabric queries: callbacks push into a bounded queue, and one dispatcher
  takes from it into a bounded set of tasks.
 */
module Fabric {
  import opened Wrappers
  import opened Text

  const INGRESS_CAPACITY := 16
  const MAX_IN_FLIGHT_REQUESTS := 8
  const MAX_PAYLOAD_BYTES := 64 * 1024

  datatype Query = Query(bindingIndex: nat, payloadBytes: nat)

  type HandlerId = nat

  /** A task of the `JoinSet`; it stays there, finished, until it is joined. */
  datatype Task = Task(query: Query, handler: HandlerId, finished: bool)

  datatype TrySendResult = Sent | Full | ClosedQueue

  /** How `recv` ends: it took a query, the queue is closed and empty, or it still waits at the end of the future. */
  datatype Receipt = Taken | NoMore | Waiting

  /** What other threads do beside the dispatcher. */
  datatype Outside =
    | CallbackEnters(query: Query)
    | CallbackSends(position: nat)
    | AdmissionOpens
    | AdmissionCloses
    | BindingUndeclared
    | TaskEnds(position: nat)

  /** How often a query occurs. */
  function Count(queries: seq<Query>, query: Query): (n: nat) {
    if queries == [] then 0 else Count(queries[1..], query) + if queries[0] == query then 1 else 0
  }

  lemma {:induction false} CountAppend(a: seq<Query>, b: seq<Query>, query: Query)
    ensures Count(a + b, query) == Count(a, query) + Count(b, query)
  {
    if a == [] {
      assert a + b == b;
    } else {
      assert (a + b)[1..] == a[1..] + b;
      CountAppend(a[1..], b, query);
    }
  }

  lemma CountOne(one: Query, query: Query)
    ensures Count([one], query) == if one == query then 1 else 0
  {
  }

  /** How many unfinished tasks serve a query. */
  function Running(tasks: seq<Task>, query: Query): (n: nat) {
    if tasks == [] then 0
    else Running(tasks[1..], query) + if !tasks[0].finished && tasks[0].query == query then 1 else 0
  }

  lemma {:induction false} RunningAppend(a: seq<Task>, b: seq<Task>, query: Query)
    ensures Running(a + b, query) == Running(a, query) + Running(b, query)
  {
    if a == [] {
      assert a + b == b;
    } else {
      assert (a + b)[1..] == a[1..] + b;
      RunningAppend(a[1..], b, query);
    }
  }

  /** Finishing a task takes its query out of the running ones. */
  lemma {:induction false} RunningAfterEnd(tasks: seq<Task>, i: nat, query: Query)
    requires i < |tasks| && !tasks[i].finished
    ensures Running(tasks, query)
      == Running(tasks[i := tasks[i].(finished := true)], query) + if tasks[i].query == query then 1 else 0
  {
    if i > 0 {
      RunningAfterEnd(tasks[1..], i - 1, query);
      assert tasks[i := tasks[i].(finished := true)][1..] == tasks[1..][i - 1 := tasks[i].(finished := true)];
    }
  }

  /** Joining a finished task leaves the running ones as they are. */
  lemma {:induction false} RunningAfterJoin(tasks: seq<Task>, i: nat, query: Query)
    requires i < |tasks| && tasks[i].finished
    ensures Running(tasks[..i] + tasks[i + 1..], query) == Running(tasks, query)
  {
    assert tasks == tasks[..i] + ([tasks[i]] + tasks[i + 1..]);
    RunningAppend(tasks[..i], [tasks[i]] + tasks[i + 1..], query);
    RunningAppend([tasks[i]], tasks[i + 1..], query);
    RunningAppend(tasks[..i], tasks[i + 1..], query);
    assert Running([tasks[i]], query) == 0;
  }

  /** The queries of the unfinished tasks. */
  function Unfinished(tasks: seq<Task>): (queries: seq<Query>) {
    if tasks == [] then []
    else (if tasks[0].finished then [] else [tasks[0].query]) + Unfinished(tasks[1..])
  }

  lemma {:induction false} UnfinishedAreRunning(tasks: seq<Task>, query: Query)
    ensures Count(Unfinished(tasks), query) == Running(tasks, query)
  {
    if tasks != [] {
      UnfinishedAreRunning(tasks[1..], query);
      CountAppend(if tasks[0].finished then [] else [tasks[0].query], Unfinished(tasks[1..]), query);
      CountOne(tasks[0].query, query);
    }
  }

  lemma CountWithout(queries: seq<Query>, i: nat, query: Query)
    requires i < |queries|
    ensures Count(queries, query)
      == Count(queries[..i] + queries[i + 1..], query) + if queries[i] == query then 1 else 0
  {
    assert queries == queries[..i] + ([queries[i]] + queries[i + 1..]);
    CountAppend(queries[..i], [queries[i]] + queries[i + 1..], query);
    CountAppend([queries[i]], queries[i + 1..], query);
    CountAppend(queries[..i], queries[i + 1..], query);
    CountOne(queries[i], query);
  }

  lemma CountLast(queries: seq<Query>, last: Query, query: Query)
    ensures Count(queries + [last], query) == Count(queries, query) + if last == query then 1 else 0
  {
    CountAppend(queries, [last], query);
    CountOne(last, query);
  }

  /** Every query a callback has seen has been rejected, is about to be sent, or was admitted. */
  ghost predicate Sorted(seen: seq<Query>, rejected: seq<Query>, entered: seq<Query>, admitted: seq<Query>) {
    forall q: Query :: Count(seen, q) == Count(rejected, q) + Count(entered, q) + Count(admitted, q)
  }

  /** Every spawned query is in flight, has been served, or was aborted with the dispatcher. */
  ghost predicate Tracked(spawned: seq<Query>, inFlight: seq<Task>, served: seq<Query>, aborted: seq<Query>) {
    forall q: Query :: Count(spawned, q) == Running(inFlight, q) + Count(served, q) + Count(aborted, q)
  }

  lemma SortedOnEntry(seen: seq<Query>, rejected: seq<Query>, entered: seq<Query>, admitted: seq<Query>, query: Query)
    requires Sorted(seen, rejected, entered, admitted)
    ensures Sorted(seen + [query], rejected + [query], entered, admitted)
    ensures Sorted(seen + [query], rejected, entered + [query], admitted)
  {
    forall q ensures
      && Count(seen + [query], q) == Count(seen, q) + (if query == q then 1 else 0)
      && Count(rejected + [query], q) == Count(rejected, q) + (if query == q then 1 else 0)
      && Count(entered + [query], q) == Count(entered, q) + (if query == q then 1 else 0)
    {
      CountLast(seen, query, q);
      CountLast(rejected, query, q);
      CountLast(entered, query, q);
    }
  }

  function Without<T>(s: seq<T>, i: nat): (r: seq<T>)
    requires i < |s|
  {
    s[..i] + s[i + 1..]
  }

  lemma SortedOnSend(seen: seq<Query>, rejected: seq<Query>, entered: seq<Query>, admitted: seq<Query>, i: nat)
    requires Sorted(seen, rejected, entered, admitted) && i < |entered|
    ensures Sorted(seen, rejected + [entered[i]], Without(entered, i), admitted)
    ensures Sorted(seen, rejected, Without(entered, i), admitted + [entered[i]])
  {
    var query := entered[i];
    forall q ensures
      && Count(entered, q) == Count(Without(entered, i), q) + (if query == q then 1 else 0)
      && Count(rejected + [query], q) == Count(rejected, q) + (if query == q then 1 else 0)
      && Count(admitted + [query], q) == Count(admitted, q) + (if query == q then 1 else 0)
    {
      CountWithout(entered, i, q);
      CountLast(rejected, query, q);
      CountLast(admitted, query, q);
    }
  }

  lemma TrackedOnSpawn(
    spawned: seq<Query>, inFlight: seq<Task>, served: seq<Query>, aborted: seq<Query>,
    query: Query, handler: HandlerId)
    requires Tracked(spawned, inFlight, served, aborted)
    ensures Tracked(spawned + [query], inFlight + [Task(query, handler, false)], served, aborted)
  {
    var task := Task(query, handler, false);
    forall q ensures
      && Count(spawned + [query], q) == Count(spawned, q) + (if query == q then 1 else 0)
      && Running(inFlight + [task], q) == Running(inFlight, q) + (if query == q then 1 else 0)
    {
      CountLast(spawned, query, q);
      RunningAppend(inFlight, [task], q);
      assert [task][1..] == [];
    }
  }

  lemma TrackedOnEnd(spawned: seq<Query>, inFlight: seq<Task>, served: seq<Query>, aborted: seq<Query>, i: nat)
    requires Tracked(spawned, inFlight, served, aborted) && i < |inFlight| && !inFlight[i].finished
    ensures Tracked(spawned, inFlight[i := inFlight[i].(finished := true)], served + [inFlight[i].query], aborted)
  {
    forall q ensures
      && Running(inFlight, q)
         == Running(inFlight[i := inFlight[i].(finished := true)], q) + (if inFlight[i].query == q then 1 else 0)
      && Count(served + [inFlight[i].query], q) == Count(served, q) + (if inFlight[i].query == q then 1 else 0)
    {
      RunningAfterEnd(inFlight, i, q);
      CountLast(served, inFlight[i].query, q);
    }
  }

  lemma TrackedOnJoin(spawned: seq<Query>, inFlight: seq<Task>, served: seq<Query>, aborted: seq<Query>, i: nat)
    requires Tracked(spawned, inFlight, served, aborted) && i < |inFlight| && inFlight[i].finished
    ensures Tracked(spawned, Without(inFlight, i), served, aborted)
  {
    forall q ensures Running(Without(inFlight, i), q) == Running(inFlight, q) {
      RunningAfterJoin(inFlight, i, q);
    }
  }

  lemma TrackedOnAbort(spawned: seq<Query>, inFlight: seq<Task>, served: seq<Query>)
    requires Tracked(spawned, inFlight, served, [])
    ensures Tracked(spawned, [], served, Unfinished(inFlight))
  {
    forall q ensures Count(Unfinished(inFlight), q) == Running(inFlight, q) {
      UnfinishedAreRunning(inFlight, q);
    }
  }

  ghost predicate Bound(queries: seq<Query>, bindings: nat) {
    forall i :: 0 <= i < |queries| ==> queries[i].bindingIndex < bindings
  }

  lemma WithoutKeepsBindings(queries: seq<Query>, i: nat, bindings: nat)
    requires i < |queries| && Bound(queries, bindings)
    ensures Bound(Without(queries, i), bindings)
  {
  }

  // ------------------------------------------------------- the ingress as a value

  /** All that has happened, in order; `dropped` and `aborted` are lost with an aborted dispatcher. */
  datatype Record = Record(
    seen: seq<Query>, rejected: seq<Query>, admitted: seq<Query>, spawned: seq<Query>,
    handledBy: seq<HandlerId>, served: seq<Query>, dropped: seq<Query>, aborted: seq<Query>)

  /** The state of the ingress; `inHand` is what the dispatcher has received and not yet spawned. */
  datatype Ingress = Ingress(
    admissionOpen: bool, senders: nat, entered: seq<Query>, receiving: bool,
    queue: seq<Query>, inHand: seq<Query>, inFlight: seq<Task>, record: Record)

  const NO_RECORD := Record([], [], [], [], [], [], [], [])

  /** The first half of `admit_query`: the callback loads the admission flag. */
  function Enter(v: Ingress, query: Query): (w: Ingress) {
    var seen := v.record.(seen := v.record.seen + [query]);
    if v.admissionOpen then v.(entered := v.entered + [query], record := seen)
    else v.(record := seen.(rejected := seen.rejected + [query]))
  }

  /** `try_send`. */
  function TrySend(v: Ingress, query: Query): (r: (Ingress, TrySendResult)) {
    if !v.receiving then (v, ClosedQueue)
    else if |v.queue| >= INGRESS_CAPACITY then (v, Full)
    else (v.(queue := v.queue + [query], record := v.record.(admitted := v.record.admitted + [query])), Sent)
  }

  function Reject(v: Ingress, query: Query): (w: Ingress) {
    v.(record := v.record.(rejected := v.record.rejected + [query]))
  }

  /** The second half: the size check and `try_send`, which fails on a full or a closed queue. */
  function Send(v: Ingress, position: nat): (w: Ingress)
    requires position < |v.entered|
  {
    var query := v.entered[position];
    var left := v.(entered := Without(v.entered, position));
    if query.payloadBytes > MAX_PAYLOAD_BYTES then Reject(left, query)
    else
      match TrySend(left, query)
      case (sent, Sent) => sent
      case (unsent, _) => Reject(unsent, query)
  }

  /** A task of the set ends, having replied. */
  function EndTask(v: Ingress, position: nat): (w: Ingress)
    requires position < |v.inFlight|
  {
    var task := v.inFlight[position];
    v.(inFlight := v.inFlight[position := task.(finished := true)],
       record := v.record.(served := v.record.served + [task.query]))
  }

  /** One thing happens outside the dispatcher; callbacks exist while their queryables are declared. */
  function Happen(v: Ingress, bindings: nat, event: Outside): (w: Ingress) {
    match event
    case CallbackEnters(query) => if v.senders > 0 && query.bindingIndex < bindings then Enter(v, query) else v
    case CallbackSends(position) => if position < |v.entered| then Send(v, position) else v
    case AdmissionOpens => v.(admissionOpen := true)
    case AdmissionCloses => v.(admissionOpen := false)
    case BindingUndeclared => if v.senders > 0 then v.(senders := v.senders - 1) else v
    case TaskEnds(position) =>
      if position < |v.inFlight| && !v.inFlight[position].finished then EndTask(v, position) else v
  }

  function Join(v: Ingress, position: nat): (w: Ingress)
    requires position < |v.inFlight|
  {
    v.(inFlight := Without(v.inFlight, position))
  }

  /** `recv`, when there is a query. */
  function Take(v: Ingress): (w: Ingress)
    requires v.queue != []
  {
    v.(inHand := [v.queue[0]], queue := v.queue[1..])
  }

  /** The query in hand goes to a task with the handler of its binding. */
  function Spawn(v: Ingress, handlers: seq<HandlerId>): (w: Ingress)
    requires v.inHand != [] && v.inHand[0].bindingIndex < |handlers|
  {
    var query := v.inHand[0];
    var handler := handlers[query.bindingIndex];
    var record := v.record.(spawned := v.record.spawned + [query], handledBy := v.record.handledBy + [handler]);
    v.(inHand := [], inFlight := v.inFlight + [Task(query, handler, false)], record := record)
  }

  /** The dispatcher is aborted: the queue is closed and all that it held is lost, unanswered. */
  function Abort(v: Ingress): (w: Ingress) {
    v.(receiving := false, queue := [], inHand := [], inFlight := [],
       record := v.record.(dropped := v.inHand + v.queue, aborted := Unfinished(v.inFlight)))
  }

  // -------------------------------------------------------- what happens, exactly

  /** A callback's query goes on to be sent exactly when admission is open, and is rejected otherwise. */
  lemma EntryIsExact(v: Ingress, bindings: nat, query: Query)
    requires v.senders > 0 && query.bindingIndex < bindings
    ensures var w := Happen(v, bindings, CallbackEnters(query));
      && w.record.seen == v.record.seen + [query]
      && (if v.admissionOpen
          then w.entered == v.entered + [query] && w.record.rejected == v.record.rejected
          else w.entered == v.entered && w.record.rejected == v.record.rejected + [query])
      && w.queue == v.queue && w.inHand == v.inHand && w.inFlight == v.inFlight
      && w.record.admitted == v.record.admitted && w.record.served == v.record.served
      && w.admissionOpen == v.admissionOpen && w.receiving == v.receiving && w.senders == v.senders
  {
  }

  /**
    A sent query is queued last and admitted last exactly when it is at most 64 KiB, the dispatcher
    exists and fewer than 16 are queued; otherwise it is rejected.
   */
  lemma SendIsExact(v: Ingress, bindings: nat, position: nat)
    requires position < |v.entered|
    ensures var w, query := Happen(v, bindings, CallbackSends(position)), v.entered[position];
      && w.entered == v.entered[..position] + v.entered[position + 1..]
      && (if query.payloadBytes <= 65536 && v.receiving && |v.queue| < 16
          then
            && w.queue == v.queue + [query] && w.record.admitted == v.record.admitted + [query]
            && w.record.rejected == v.record.rejected
          else
            && w.queue == v.queue && w.record.admitted == v.record.admitted
            && w.record.rejected == v.record.rejected + [query])
      && w.record.seen == v.record.seen && w.record.served == v.record.served
      && w.inHand == v.inHand && w.inFlight == v.inFlight
      && w.admissionOpen == v.admissionOpen && w.receiving == v.receiving && w.senders == v.senders
  {
  }

  /** A task that ends has served its query and stays in the set, finished, until it is joined. */
  lemma TaskEndIsExact(v: Ingress, bindings: nat, position: nat)
    requires position < |v.inFlight| && !v.inFlight[position].finished
    ensures var w, task := Happen(v, bindings, TaskEnds(position)), v.inFlight[position];
      && |w.inFlight| == |v.inFlight| && w.inFlight[position] == Task(task.query, task.handler, true)
      && (forall i :: 0 <= i < |v.inFlight| && i != position ==> w.inFlight[i] == v.inFlight[i])
      && w.record == v.record.(served := v.record.served + [task.query])
      && w.queue == v.queue && w.entered == v.entered && w.inHand == v.inHand
  {
  }

  /** The owner opens and closes admission and undeclares its queryables, and nothing else. */
  lemma OwnerActsAreExact(v: Ingress, bindings: nat)
    ensures var w, u := Happen(v, bindings, AdmissionOpens), Happen(v, bindings, AdmissionCloses);
      && w.admissionOpen && !u.admissionOpen
      && w.(admissionOpen := v.admissionOpen) == v && u.(admissionOpen := v.admissionOpen) == v
    ensures var w := Happen(v, bindings, BindingUndeclared);
      w.senders == (if v.senders > 0 then v.senders - 1 else 0) && w.(senders := v.senders) == v
  {
  }

  // ------------------------------------------------------------- what is kept

  /** Queries are spawned in the order of admission, each with the handler of its own binding. */
  ghost predicate InOrder(v: Ingress, handlers: seq<HandlerId>) {
    var r := v.record;
    && r.admitted == r.spawned + (v.inHand + v.queue + r.dropped)
    && |r.handledBy| == |r.spawned|
    && forall i :: 0 <= i < |r.spawned| ==>
      r.spawned[i].bindingIndex < |handlers| && r.handledBy[i] == handlers[r.spawned[i].bindingIndex]
  }

  ghost predicate Bounded(v: Ingress, handlers: seq<HandlerId>) {
    && |v.queue| <= INGRESS_CAPACITY && |v.inFlight| <= MAX_IN_FLIGHT_REQUESTS && |v.inHand| <= 1
    && Bound(v.entered, |handlers|) && Bound(v.queue, |handlers|) && Bound(v.inHand, |handlers|)
  }

  /** Nothing is lost while the dispatcher exists, and nothing is held once it does not. */
  ghost predicate LostOnlyWithDispatcher(v: Ingress) {
    if v.receiving then v.record.dropped == [] && v.record.aborted == []
    else v.queue == [] && v.inHand == [] && v.inFlight == []
  }

  ghost predicate Sound(v: Ingress, handlers: seq<HandlerId>) {
    && Sorted(v.record.seen, v.record.rejected, v.entered, v.record.admitted)
    && Tracked(v.record.spawned, v.inFlight, v.record.served, v.record.aborted)
    && InOrder(v, handlers) && Bounded(v, handlers) && LostOnlyWithDispatcher(v)
  }

  /** The queue is empty, and no callback can send any more. */
  predicate Finished(v: Ingress) {
    v.senders == 0 && v.entered == [] && v.queue == []
  }

  predicate Idle(v: Ingress) {
    forall i :: 0 <= i < |v.inFlight| ==> !v.inFlight[i].finished
  }

  /** The dispatcher cannot go on: it needs a task to end, or a query or the end of the senders. */
  ghost predicate Blocked(v: Ingress) {
    && v.inHand == []
    && (|| (v.queue == [] && !Finished(v))
        || (v.inFlight != [] && (|v.inFlight| == 8 || Finished(v)) && Idle(v)))
  }

  /** The records only grow. */
  ghost predicate Grows(a: Record, b: Record) {
    && a.seen <= b.seen && a.rejected <= b.rejected && a.admitted <= b.admitted
    && a.spawned <= b.spawned && a.handledBy <= b.handledBy && a.served <= b.served
  }

  /** What may come of things that happen outside the dispatcher. */
  ghost predicate Passes(v: Ingress, w: Ingress, handlers: seq<HandlerId>) {
    && Sound(w, handlers) && Grows(v.record, w.record)
    && w.receiving == v.receiving && w.inHand == v.inHand && |w.inFlight| == |v.inFlight| && v.queue <= w.queue
    && (Finished(v) ==> Finished(w))
  }

  /**
    Every query a callback has seen is in exactly one place: rejected, about to be sent, queued, in
    the dispatcher's hand, in flight, served, or lost with an aborted dispatcher.
   */
  lemma {:induction false} EveryQueryIsInOnePlace(v: Ingress, handlers: seq<HandlerId>, query: Query)
    requires Sound(v, handlers)
    ensures Count(v.record.seen, query) ==
      Count(v.record.rejected, query) + Count(v.entered, query) + Count(v.queue, query) + Count(v.inHand, query)
      + Running(v.inFlight, query) + Count(v.record.served, query)
      + Count(v.record.dropped, query) + Count(v.record.aborted, query)
    ensures v.receiving ==> Count(v.record.dropped, query) == Count(v.record.aborted, query) == 0
  {
    CountAppend(v.record.spawned, v.inHand + v.queue + v.record.dropped, query);
    CountAppend(v.inHand + v.queue, v.record.dropped, query);
    CountAppend(v.inHand, v.queue, query);
  }

  /** At most 16 queries are queued and at most 8 tasks are held. */
  lemma BoundsAreKept(v: Ingress, handlers: seq<HandlerId>)
    requires Sound(v, handlers)
    ensures |v.queue| <= 16 && |v.inFlight| <= 8
  {
  }

  lemma EnterPasses(v: Ingress, handlers: seq<HandlerId>, query: Query)
    requires Sound(v, handlers) && v.senders > 0 && query.bindingIndex < |handlers|
    ensures Passes(v, Enter(v, query), handlers)
  {
    SortedOnEntry(v.record.seen, v.record.rejected, v.entered, v.record.admitted, query);
  }

  lemma RejectPasses(v: Ingress, handlers: seq<HandlerId>, position: nat)
    requires Sound(v, handlers) && position < |v.entered|
    ensures Passes(v, Reject(v.(entered := Without(v.entered, position)), v.entered[position]), handlers)
  {
    SortedOnSend(v.record.seen, v.record.rejected, v.entered, v.record.admitted, position);
    WithoutKeepsBindings(v.entered, position, |handlers|);
  }

  lemma AdmitPasses(v: Ingress, handlers: seq<HandlerId>, position: nat)
    requires Sound(v, handlers) && position < |v.entered|
    requires v.receiving && |v.queue| < INGRESS_CAPACITY
    ensures Passes(v, TrySend(v.(entered := Without(v.entered, position)), v.entered[position]).0, handlers)
  {
    SortedOnSend(v.record.seen, v.record.rejected, v.entered, v.record.admitted, position);
    WithoutKeepsBindings(v.entered, position, |handlers|);
    AppendedLast(v.record.spawned, v.inHand, v.queue, v.record.dropped, v.entered[position]);
  }

  lemma SendPasses(v: Ingress, handlers: seq<HandlerId>, position: nat)
    requires Sound(v, handlers) && position < |v.entered|
    ensures Passes(v, Send(v, position), handlers) && |Send(v, position).queue| <= |v.queue| + 1
  {
    if v.entered[position].payloadBytes <= MAX_PAYLOAD_BYTES && v.receiving && |v.queue| < INGRESS_CAPACITY {
      AdmitPasses(v, handlers, position);
    } else {
      RejectPasses(v, handlers, position);
    }
  }

  lemma EndTaskPasses(v: Ingress, handlers: seq<HandlerId>, position: nat)
    requires Sound(v, handlers) && position < |v.inFlight| && !v.inFlight[position].finished
    ensures Passes(v, EndTask(v, position), handlers)
  {
    TrackedOnEnd(v.record.spawned, v.inFlight, v.record.served, v.record.aborted, position);
  }

  /** Nothing that happens outside the dispatcher breaks the invariant, at whatever moment it happens. */
  lemma HappenPasses(v: Ingress, handlers: seq<HandlerId>, event: Outside)
    requires Sound(v, handlers)
    ensures Passes(v, Happen(v, |handlers|, event), handlers)
    ensures |Happen(v, |handlers|, event).queue| <= |v.queue| + 1
  {
    if Happen(v, |handlers|, event) != v {
      match event
      case CallbackEnters(query) => EnterPasses(v, handlers, query);
      case CallbackSends(position) => SendPasses(v, handlers, position);
      case TaskEnds(position) => EndTaskPasses(v, handlers, position);
      case _ =>
    }
  }

  lemma PassesOn(v: Ingress, middle: Ingress, w: Ingress, handlers: seq<HandlerId>)
    requires Passes(v, middle, handlers) && Passes(middle, w, handlers)
    ensures Passes(v, w, handlers)
  {
  }

  lemma JoinKeeps(v: Ingress, handlers: seq<HandlerId>, position: nat)
    requires Sound(v, handlers) && position < |v.inFlight| && v.inFlight[position].finished
    ensures Sound(Join(v, position), handlers)
  {
    TrackedOnJoin(v.record.spawned, v.inFlight, v.record.served, v.record.aborted, position);
  }

  lemma TakeKeeps(v: Ingress, handlers: seq<HandlerId>)
    requires Sound(v, handlers) && v.inHand == [] && v.queue != []
    ensures Sound(Take(v), handlers)
  {
    assert v.inHand + v.queue == [v.queue[0]] + v.queue[1..];
  }

  lemma SpawnKeeps(v: Ingress, handlers: seq<HandlerId>)
    requires Sound(v, handlers) && v.receiving && v.inHand != [] && |v.inFlight| < MAX_IN_FLIGHT_REQUESTS
    ensures v.inHand[0].bindingIndex < |handlers|
    ensures Sound(Spawn(v, handlers), handlers) && Grows(v.record, Spawn(v, handlers).record)
  {
    var query := v.inHand[0];
    TrackedOnSpawn(
      v.record.spawned, v.inFlight, v.record.served, v.record.aborted, query, handlers[query.bindingIndex]);
    SpawnedInOrder(v.record.spawned, query, v.inHand, v.queue, v.record.dropped);
  }

  /** Aborting the dispatcher loses exactly what it held; every query is still accounted for. */
  lemma AbortKeeps(v: Ingress, handlers: seq<HandlerId>)
    requires Sound(v, handlers) && v.receiving
    ensures Sound(Abort(v), handlers) && Grows(v.record, Abort(v).record)
  {
    TrackedOnAbort(v.record.spawned, v.inFlight, v.record.served);
    assert v.inHand + v.queue + [] == [] + [] + (v.inHand + v.queue);
  }

  /** Once nothing is held, every query seen was rejected or served, and every admitted one was served. */
  lemma {:induction false} AllServed(v: Ingress, handlers: seq<HandlerId>, query: Query)
    requires Sound(v, handlers) && v.receiving && Finished(v) && v.inHand == [] && v.inFlight == []
    ensures v.record.admitted == v.record.spawned
    ensures Count(v.record.admitted, query) == Count(v.record.served, query)
    ensures Count(v.record.seen, query) == Count(v.record.rejected, query) + Count(v.record.served, query)
  {
    EveryQueryIsInOnePlace(v, handlers, query);
    assert v.inHand + v.queue + v.record.dropped == [];
  }

  lemma AppendedLast(spawned: seq<Query>, inHand: seq<Query>, queue: seq<Query>, dropped: seq<Query>, query: Query)
    requires dropped == []
    ensures spawned + (inHand + queue + dropped) + [query] == spawned + (inHand + (queue + [query]) + dropped)
  {
  }

  lemma SpawnedInOrder(
    spawned: seq<Query>, query: Query, inHand: seq<Query>, queue: seq<Query>, dropped: seq<Query>)
    requires inHand == [query]
    ensures spawned + (inHand + queue + dropped) == (spawned + [query]) + ([] + queue + dropped)
  {
    Assoc(spawned, [query], queue + dropped);
    assert inHand + queue + dropped == [query] + (queue + dropped);
  }

  // ------------------------------------------------------------ the program

  class FabricIngress {
    /** The handler of each binding. */
    const handlers: seq<HandlerId>
    var admissionOpen: bool
    /** Declared queryables, each holding a sender of the queue. */
    var senders: nat
    /** Callbacks that have found admission open and have not yet sent. */
    var entered: seq<Query>
    /** The dispatcher, which holds the receiver of the queue, exists. */
    var receiving: bool
    var queue: seq<Query>
    var inHand: seq<Query>
    var inFlight: seq<Task>
    /** What is still to happen outside the dispatcher. */
    var future: seq<Outside>
    ghost var record: Record

    ghost function View(): (v: Ingress)
      reads this
    {
      Ingress(admissionOpen, senders, entered, receiving, queue, inHand, inFlight, record)
    }

    ghost predicate Valid()
      reads this
    {
      Sound(View(), handlers)
    }

    ghost function Ahead(): (n: nat)
      reads this
    {
      2 * |future| + |queue|
    }

    constructor (handlers: seq<HandlerId>, future: seq<Outside>)
      ensures Valid() && this.handlers == handlers && this.future == future
      ensures View() == Ingress(false, |handlers|, [], true, [], [], [], NO_RECORD)
    {
      this.handlers := handlers;
      this.future := future;
      admissionOpen, receiving := false, true;
      senders := |handlers|;
      entered, queue, inHand, inFlight := [], [], [], [];
      record := NO_RECORD;
    }

    method EnterCallback(query: Query)
      modifies this`entered, this`record
      ensures View() == Enter(old(View()), query)
      ensures record.seen == old(record).seen + [query]
      ensures if admissionOpen
              then entered == old(entered) + [query] && record.rejected == old(record).rejected
              else entered == old(entered) && record.rejected == old(record).rejected + [query]
    {
      record := record.(seen := record.seen + [query]);
      if !admissionOpen {
        record := record.(rejected := record.rejected + [query]);
        return;
      }
      entered := entered + [query];
    }

    method SendQuery(position: nat)
      requires position < |entered|
      modifies this`entered, this`queue, this`record
      ensures View() == Send(old(View()), position)
      ensures var query := old(entered)[position];
        && entered == old(entered)[..position] + old(entered)[position + 1..]
        && if query.payloadBytes <= 65536 && receiving && |old(queue)| < 16
           then queue == old(queue) + [query] && record.admitted == old(record).admitted + [query]
                && record.rejected == old(record).rejected
           else queue == old(queue) && record.admitted == old(record).admitted
                && record.rejected == old(record).rejected + [query]
    {
      var query := entered[position];
      entered := Without(entered, position);
      if query.payloadBytes > MAX_PAYLOAD_BYTES {
        record := record.(rejected := record.rejected + [query]);
        return;
      }
      var sent := TrySendQuery(query);
      match sent {
        case Sent =>
        case Full => record := record.(rejected := record.rejected + [query]);
        case ClosedQueue => record := record.(rejected := record.rejected + [query]);
      }
    }

    method TrySendQuery(query: Query) returns (sent: TrySendResult)
      modifies this`queue, this`record
      ensures (View(), sent) == TrySend(old(View()), query)
    {
      if !receiving {
        return ClosedQueue;
      }
      if |queue| >= INGRESS_CAPACITY {
        return Full;
      }
      queue := queue + [query];
      record := record.(admitted := record.admitted + [query]);
      return Sent;
    }

    /** One thing happens outside the dispatcher. */
    method HappenNext()
      requires |future| > 0
      modifies this
      ensures View() == Happen(old(View()), |handlers|, old(future)[0]) && future == old(future)[1..]
    {
      var event := future[0];
      future := future[1..];
      match event {
        case CallbackEnters(query) =>
          if senders > 0 && query.bindingIndex < |handlers| {
            EnterCallback(query);
          }
        case CallbackSends(position) =>
          if position < |entered| {
            SendQuery(position);
          }
        case AdmissionOpens => admissionOpen := true;
        case AdmissionCloses => admissionOpen := false;
        case BindingUndeclared =>
          if senders > 0 {
            senders := senders - 1;
          }
        case TaskEnds(position) =>
          if position < |inFlight| && !inFlight[position].finished {
            var task := inFlight[position];
            inFlight := inFlight[position := task.(finished := true)];
            record := record.(served := record.served + [task.query]);
          }
      }
    }

    /** Any number of things happen outside, whether or not the dispatcher is waiting. */
    method LetHappen()
      requires Valid()
      modifies this
      ensures Passes(old(View()), View(), handlers) && Ahead() <= old(Ahead())
    {
      var goesOn: bool := *;
      while goesOn && |future| > 0
        invariant Passes(old(View()), View(), handlers) && Ahead() <= old(Ahead())
        decreases |future|
      {
        Await(old(View()));
        goesOn := *;
      }
    }

    /** One more thing happens after others. */
    method Await(ghost since: Ingress)
      requires Passes(since, View(), handlers) && |future| > 0
      modifies this
      ensures Passes(since, View(), handlers) && Ahead() < old(Ahead()) && |future| < |old(future)|
    {
      ghost var before := View();
      HappenPasses(before, handlers, future[0]);
      HappenNext();
      PassesOn(since, before, View(), handlers);
    }

    /** `join_next` on a set that is not empty; `false` when it is still waiting at the end of the future. */
    method JoinNext() returns (joined: bool)
      requires Valid() && |inFlight| > 0
      modifies this
      ensures Valid() && Grows(old(record), record)
      ensures receiving == old(receiving) && inHand == old(inHand)
      ensures old(Finished(View())) ==> Finished(View())
      ensures |inFlight| == |old(inFlight)| - if joined then 1 else 0
      ensures !joined ==> future == [] && Idle(View())
      ensures Ahead() <= old(Ahead())
    {
      LetHappen();
      while !exists i :: 0 <= i < |inFlight| && inFlight[i].finished
        invariant Passes(old(View()), View(), handlers) && Ahead() <= old(Ahead())
        decreases |future|
      {
        if |future| == 0 {
          return false;
        }
        Await(old(View()));
      }
      var i :| 0 <= i < |inFlight| && inFlight[i].finished;
      JoinKeeps(View(), handlers, i);
      inFlight := Without(inFlight, i);
      return true;
    }

    /** `recv`: waits for a query and takes it in hand. */
    method Receive() returns (receipt: Receipt)
      requires Valid() && receiving && inHand == []
      modifies this
      ensures Valid() && Grows(old(record), record) && receiving && |inFlight| == |old(inFlight)|
      ensures receipt.Taken? ==> inHand != [] && Ahead() < old(Ahead())
      ensures receipt.Taken? && old(queue) != [] ==> inHand == [old(queue)[0]]
      ensures receipt.NoMore? ==> inHand == [] && Finished(View())
      ensures receipt.Waiting? ==> inHand == [] && queue == [] && !Finished(View()) && future == []
    {
      LetHappen();
      while |queue| == 0
        invariant Passes(old(View()), View(), handlers) && Ahead() <= old(Ahead())
        decreases |future|
      {
        if senders == 0 && |entered| == 0 {
          return NoMore;
        }
        if |future| == 0 {
          return Waiting;
        }
        Await(old(View()));
      }
      TakeKeeps(View(), handlers);
      inHand, queue := [queue[0]], queue[1..];
      return Taken;
    }

    method SpawnTask()
      requires Valid() && receiving && inHand != [] && |inFlight| < MAX_IN_FLIGHT_REQUESTS
      modifies this`inHand, this`inFlight, this`record
      ensures Valid() && Grows(old(record), record)
      ensures old(View()).inHand[0].bindingIndex < |handlers| && View() == Spawn(old(View()), handlers)
      ensures inHand == [] && record.spawned == old(record).spawned + [old(inHand)[0]]
      ensures inFlight == old(inFlight) + [Task(old(inHand)[0], handlers[old(inHand)[0].bindingIndex], false)]
    {
      SpawnKeeps(View(), handlers);
      var query := inHand[0];
      var handler := handlers[query.bindingIndex];
      inHand := [];
      inFlight := inFlight + [Task(query, handler, false)];
      record := record.(spawned := record.spawned + [query], handledBy := record.handledBy + [handler]);
    }

    method AbortDispatcher()
      requires Valid() && receiving
      modifies this`receiving, this`queue, this`inHand, this`inFlight, this`record
      ensures Valid() && View() == Abort(old(View()))
      ensures !receiving && queue == [] && inHand == [] && inFlight == []
      ensures record.dropped == old(inHand) + old(queue) && record.served == old(record).served
    {
      AbortKeeps(View(), handlers);
      record := record.(dropped := inHand + queue, aborted := Unfinished(inFlight));
      receiving, queue, inHand, inFlight := false, [], [], [];
    }

    /**
      `dispatch_requests`, while callbacks and tasks go on at any time, before, between and after its
      own steps.  When it ends, every admitted query has been served and was spawned in the order of
      admission; otherwise it is blocked at the end of the future.
     */
    method Dispatch() returns (ended: bool)
      requires Valid() && receiving && inHand == []
      modifies this
      ensures Valid() && Grows(old(record), record)
      ensures !ended ==> receiving && future == [] && Blocked(View())
      ensures ended ==> !receiving && Finished(View()) && record.dropped == [] && record.aborted == []
      ensures ended ==> record.admitted == record.spawned
      ensures ended ==> forall q :: Count(record.admitted, q) == Count(record.served, q)
      ensures ended ==> forall q :: Count(record.seen, q) == Count(record.rejected, q) + Count(record.served, q)
    {
      ended := SpawnAll();
      if ended {
        ended := DrainTasks();
      }
      if ended {
        forall q
          ensures record.admitted == record.spawned
          ensures Count(record.admitted, q) == Count(record.served, q)
          ensures Count(record.seen, q) == Count(record.rejected, q) + Count(record.served, q)
        {
          AllServed(View(), handlers, q);
        }
        receiving := false;
      }
    }

    /** The main loop of the dispatcher, up to the end of the queue. */
    method SpawnAll() returns (closed: bool)
      requires Valid() && receiving && inHand == []
      modifies this
      ensures Valid() && Grows(old(record), record) && receiving && inHand == []
      ensures if closed then Finished(View()) else future == [] && Blocked(View())
    {
      while true
        invariant Valid() && Grows(old(record), record) && receiving && inHand == []
        decreases Ahead()
      {
        var receipt := SpawnNext();
        if !receipt.Taken? {
          return receipt.NoMore?;
        }
      }
    }

    /** One round of the main loop. */
    method SpawnNext() returns (receipt: Receipt)
      requires Valid() && receiving && inHand == []
      modifies this
      ensures Valid() && Grows(old(record), record) && receiving && inHand == []
      ensures receipt.Taken? ==> Ahead() < old(Ahead())
      ensures receipt.NoMore? ==> Finished(View())
      ensures receipt.Waiting? ==> future == [] && Blocked(View())
    {
      var room := MakeRoom();
      if !room {
        return Waiting;
      }
      receipt := ReceiveAndSpawn();
    }

    /** A query is received and, whatever happens in between, spawned. */
    method ReceiveAndSpawn() returns (receipt: Receipt)
      requires Valid() && receiving && inHand == [] && |inFlight| < MAX_IN_FLIGHT_REQUESTS
      modifies this
      ensures Valid() && Grows(old(record), record) && receiving && inHand == []
      ensures receipt.Taken? ==> Ahead() < old(Ahead())
      ensures receipt.NoMore? ==> Finished(View())
      ensures receipt.Waiting? ==> future == [] && Blocked(View())
    {
      receipt := Receive();
      if receipt.Taken? {
        LetHappen();
        SpawnTask();
      }
    }

    /** The inner loop: tasks are joined until there is room for one more. */
    method MakeRoom() returns (room: bool)
      requires Valid() && receiving && inHand == []
      modifies this
      ensures Valid() && Grows(old(record), record) && receiving && inHand == [] && Ahead() <= old(Ahead())
      ensures if room then |inFlight| < MAX_IN_FLIGHT_REQUESTS else future == [] && Blocked(View())
    {
      while |inFlight| >= MAX_IN_FLIGHT_REQUESTS
        invariant Valid() && Grows(old(record), record) && receiving && inHand == [] && Ahead() <= old(Ahead())
        decreases |inFlight|
      {
        var joined := JoinNext();
        if !joined {
          return false;
        }
      }
      return true;
    }

    /** The last loop of the dispatcher: every task still in the set is joined. */
    method DrainTasks() returns (drained: bool)
      requires Valid() && receiving && inHand == [] && Finished(View())
      modifies this
      ensures Valid() && Grows(old(record), record) && receiving && inHand == [] && Finished(View())
      ensures if drained then inFlight == [] else future == [] && Blocked(View())
    {
      while |inFlight| > 0
        invariant Valid() && Grows(old(record), record) && receiving && inHand == [] && Finished(View())
        decreases |inFlight|
      {
        var joined := JoinNext();
        if !joined {
          return false;
        }
      }
      return true;
    }
  }
}
