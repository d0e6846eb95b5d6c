/**
 The exit saga between broker and table as a step system.

 Actors: entry executions, one exit dispatcher per currency pair, the compensation drain,
 any number of overlapping position syncs, the emergency close, closes made outside the
 program, and a process restart. A step runs from one await to the next, or is the moment
 an awaited call takes effect at the broker or in the table; every call may fail, and a
 table write may take effect and still be reported as failed.
 */
module ExitSaga {
  import opened Outcomes
  import opened PositionStore
  import opened BrokerPaging
  import Q = CompensationQueue

  // ---------------------------------------------------------------- State

  /** `ExitExecution.closePosition` of one position, by the await it is at. */
  datatype Saga =
    | NoSaga
    | Finding(id: PositionId)
    | Ordered(id: PositionId, copy: Exit)
    | BrokerAccepted(id: PositionId, copy: Exit, fill: Fill)
    | Updating(id: PositionId, exit: Exit, written: bool)
    | Notifying(id: PositionId)

  /** One `dispatch` in progress. `drained` is history: ids whose compensation completed
      since this dispatch read the open positions. */
  datatype Dispatch = Dispatch(todo: seq<PositionId>, saga: Saga, drained: set<PositionId>)

  datatype SyncPhase =
    | Asking
    | Paging(prev: Cursor, ids: seq<PositionId>)
    | Marking(todo: seq<PositionId>)

  /** One position sync. `gone` is history: read as OPEN, closed at the broker before the
      broker read began. */
  datatype Sync = Sync(pair: CurrencyPair, read: seq<PositionId>, phase: SyncPhase, gone: set<PositionId>)

  datatype EmergencyTask = Placing(copy: Exit) | Storing(exit: Exit)

  datatype State = State(
    book: map<PositionId, CurrencyPair>,      // history: every position the broker ever opened
    live: set<PositionId>,                    // open at the broker now
    entering: map<PositionId, EntryInfo>,     // filled, not yet registered
    rows: Rows,
    queue: Q.Queue,
    drainWritten: bool,                       // the drain head's write has taken effect
    dispatches: map<CurrencyPair, Dispatch>,
    syncs: map<nat, Sync>,
    emergency: map<PositionId, EmergencyTask>,
    accepted: map<PositionId, Exit>,          // history: the exit each accepted order produces
    ours: set<PositionId>)                    // history: accepted by ExitExecution in this process

  const START := State(map[], {}, map[], map[], Q.EMPTY, false, map[], map[], map[], map[], {})

  /** The positions of a pair that are open at the broker. */
  function LiveOf(s: State, pair: CurrencyPair): set<PositionId> {
    set id | id in s.live && id in s.book && s.book[id] == pair
  }

  /** The result of `openPositions().forPair(pair)`, in whatever order. */
  ghost predicate IsOpenList(s: State, pair: CurrencyPair, ids: seq<PositionId>) {
    && DistinctIds(ids)
    && forall id :: id in ids <==> id in OpenIds(s.rows) && s.rows[id].info.pair == pair
  }

  /** `missingFrom`: what the table calls open and the broker did not list. */
  function Missing(read: seq<PositionId>, ids: seq<PositionId>): (missing: seq<PositionId>)
    ensures forall id :: id in missing <==> id in read && id !in ids
  {
    if read == [] then []
    else (if read[0] in ids then [] else [read[0]]) + Missing(read[1..], ids)
  }

  // ---------------------------------------------------------------- Entry

  /** `EntryExecution.openPosition`: the broker fills first, the row is registered after. */
  datatype EntryStep =
    | Fills(info: EntryInfo)
    | Registers
    | IsLost

  ghost predicate EntryEnabled(s: State, id: PositionId, e: EntryStep) {
    match e
    case Fills(_) => id !in s.book
    case Registers => id in s.entering
    case IsLost => id in s.entering
  }

  ghost function ApplyEntry(s: State, id: PositionId, e: EntryStep): State
    requires EntryEnabled(s, id, e)
  {
    match e
    case Fills(info) =>
      s.(book := s.book[id := info.pair], live := s.live + {id}, entering := s.entering[id := info])
    case Registers =>
      s.(rows := Registered(s.rows, id, s.entering[id]), entering := s.entering - {id})
    case IsLost =>
      s.(entering := s.entering - {id})
  }

  // ---------------------------------------------------------------- Dispatch

  /** The loop of `ExitDispatcher.dispatch`. */
  datatype LoopStep =
    | Reads(list: seq<PositionId>)
    | Skips
    | Fires
    | Ends

  ghost predicate LoopEnabled(s: State, pair: CurrencyPair, e: LoopStep) {
    match e
    case Reads(list) => pair !in s.dispatches && IsOpenList(s, pair, list)
    // a skip is always possible (shield, cooldown, no rule, rule silent, rule throws,
    // extremes unavailable), an attempt only unshielded
    case Skips => AtHead(s, pair)
    case Fires => AtHead(s, pair) && s.dispatches[pair].todo[0] !in s.queue.entries
    case Ends => pair in s.dispatches && s.dispatches[pair].saga.NoSaga? && s.dispatches[pair].todo == []
  }

  /** The loop stands at its next position, between two awaits. */
  ghost predicate AtHead(s: State, pair: CurrencyPair) {
    pair in s.dispatches && s.dispatches[pair].saga.NoSaga? && s.dispatches[pair].todo != []
  }

  ghost function ApplyLoop(s: State, pair: CurrencyPair, e: LoopStep): State
    requires LoopEnabled(s, pair, e)
  {
    match e
    case Reads(list) =>
      s.(dispatches := s.dispatches[pair := Dispatch(list, NoSaga, {})])
    case Skips =>
      var d := s.dispatches[pair];
      s.(dispatches := s.dispatches[pair := Dispatch(d.todo[1..], NoSaga, d.drained)])
    case Fires =>
      var d := s.dispatches[pair];
      s.(dispatches := s.dispatches[pair := Dispatch(d.todo[1..], Finding(d.todo[0]), d.drained)])
    case Ends =>
      s.(dispatches := s.dispatches - {pair})
  }

  // ---------------------------------------------------------------- closePosition

  /** `ExitExecution.closePosition` for the position the loop fired on. */
  datatype SagaStep =
    | FindFails
    | Orders(extremes: Extremes)
    | IsRejected
    | IsAccepted(fill: Fill)
    | Closes
    | UpdateWrites
    | UpdateReturns
    | UpdateThrows
    | Notified

  ghost predicate SagaEnabled(s: State, pair: CurrencyPair, e: SagaStep) {
    && pair in s.dispatches
    && var g := s.dispatches[pair].saga;
       match e
       case FindFails => g.Finding?
       case Orders(_) => g.Finding? && g.id in s.rows
       case IsRejected => g.Ordered?
       case IsAccepted(_) => g.Ordered? && g.id in s.live
       case Closes => g.BrokerAccepted?
       case UpdateWrites => g.Updating? && !g.written
       case UpdateReturns => g.Updating? && g.written
       case UpdateThrows => g.Updating?
       case Notified => g.Notifying?
  }

  ghost function WithSaga(s: State, pair: CurrencyPair, saga: Saga): State
    requires pair in s.dispatches
  {
    s.(dispatches := s.dispatches[pair := s.dispatches[pair].(saga := saga)])
  }

  /** Where the saga stands after the step. */
  ghost function NextSaga(s: State, g: Saga, e: SagaStep): Saga
    requires e.Orders? ==> g.Finding? && g.id in s.rows
    requires e.IsAccepted? ==> g.Ordered?
    requires e.Closes? ==> g.BrokerAccepted?
    requires e.UpdateWrites? || e.UpdateReturns? || e.UpdateThrows? ==> g.Updating?
  {
    match e
    case FindFails => NoSaga
    case Orders(extremes) => Ordered(g.id, WithExtremes(s.rows[g.id].info, Restored(s.rows[g.id]), extremes))
    case IsRejected => NoSaga
    case IsAccepted(fill) => BrokerAccepted(g.id, g.copy, fill)
    case Closes => if g.copy.status == CLOSED then Notifying(g.id) else Updating(g.id, Closing(g.copy, g.fill), false)
    case UpdateWrites => Updating(g.id, g.exit, true)
    case UpdateReturns => Notifying(g.id)
    case UpdateThrows => Notifying(g.id)
    case Notified => NoSaga
  }

  /** What the step does to everything but the saga itself. */
  ghost function SagaEffect(s: State, g: Saga, e: SagaStep): State
    requires e.IsAccepted? ==> g.Ordered?
    requires e.Closes? ==> g.BrokerAccepted?
    requires e.UpdateWrites? || e.UpdateReturns? || e.UpdateThrows? ==> g.Updating?
  {
    match e
    case IsAccepted(fill) => Accepting(s, g.id, Closing(g.copy, fill))
    case Closes => if g.copy.status == CLOSED then s.(queue := Q.Enqueued(s.queue, g.id, Q.MarkClosedKind)) else s
    case UpdateWrites => s.(rows := Updated(s.rows, g.id, g.exit))
    case UpdateThrows => s.(queue := Q.Enqueued(s.queue, g.id, Q.UpdateKind(g.exit)))
    case _ => s
  }

  ghost function ApplySaga(s: State, pair: CurrencyPair, e: SagaStep): State
    requires SagaEnabled(s, pair, e)
  {
    var g := s.dispatches[pair].saga;
    WithSaga(SagaEffect(s, g, e), pair, NextSaga(s, g, e))
  }

  /** The moment the broker closes a position for the saga. */
  ghost function Accepting(s: State, id: PositionId, exit: Exit): State {
    s.(live := s.live - {id}, accepted := s.accepted[id := exit], ours := s.ours + {id})
  }

  // ---------------------------------------------------------------- Drain

  /** `ExitCompensationQueue.drain`. */
  datatype DrainStep =
    | Begins(snapshot: seq<Q.Todo>)
    | Writes(now: int)
    | Succeeds
    | Fails
    | Finishes

  ghost predicate Draining(s: State) {
    s.queue.drain.Some? && s.queue.drain.value != []
  }

  ghost predicate DrainEnabled(s: State, e: DrainStep) {
    match e
    case Begins(snapshot) => s.queue.drain.None? && s.queue.entries != map[] && Q.IsSnapshot(s.queue, snapshot)
    case Writes(_) => Draining(s) && !s.drainWritten
    case Succeeds => Draining(s) && s.drainWritten
    case Fails => Draining(s)
    case Finishes => s.queue.drain == Some([])
  }

  /** A completed compensation is remembered by every dispatch under way. */
  ghost function NoteDrained(ds: map<CurrencyPair, Dispatch>, id: PositionId): map<CurrencyPair, Dispatch> {
    map pair | pair in ds :: ds[pair].(drained := ds[pair].drained + {id})
  }

  ghost function ApplyDrain(s: State, e: DrainStep): State
    requires DrainEnabled(s, e)
  {
    match e
    case Begins(snapshot) =>
      s.(queue := Q.DrainBegun(s.queue, snapshot), drainWritten := false)
    case Writes(now) =>
      var head := s.queue.drain.value[0];
      s.(rows := if head.kind.UpdateKind? then Updated(s.rows, head.id, head.kind.exit)
                 else MarkedClosed(s.rows, head.id, now),
         drainWritten := true)
    case Succeeds =>
      s.(queue := Q.Recovered(s.queue), drainWritten := false,
         dispatches := NoteDrained(s.dispatches, s.queue.drain.value[0].id))
    case Fails =>
      s.(queue := Q.RetryFailed(s.queue), drainWritten := false)
    case Finishes =>
      s.(queue := s.queue.(drain := None))
  }

  // ---------------------------------------------------------------- Sync

  /** `SyncPositionsUseCase.execute`: table first, broker second, marks last. */
  datatype SyncStep =
    | ReadsTable(pair: CurrencyPair, list: seq<PositionId>)
    | Asks
    | Pages(page: seq<PositionId>)
    | Marks(now: int)
    | Completes
    | Aborts

  ghost predicate SyncEnabled(s: State, k: nat, e: SyncStep) {
    if e.ReadsTable? then k !in s.syncs && IsOpenList(s, e.pair, e.list)
    else
      && k in s.syncs
      && var y := s.syncs[k];
      match e
      case ReadsTable(_, _) => false
      case Asks => y.phase.Asking?
      case Pages(page) => y.phase.Paging? && IsPage(page, LiveOf(s, y.pair), y.phase.prev)
      case Marks(_) => y.phase.Marking? && y.phase.todo != []
      case Completes => y.phase == Marking([])
      case Aborts => true
  }

  ghost function ApplySync(s: State, k: nat, e: SyncStep): State
    requires SyncEnabled(s, k, e)
  {
    if e.ReadsTable? then
      s.(syncs := s.syncs[k := Sync(e.pair, e.list, Asking, {})])
    else
      var y := s.syncs[k];
      match e
      case ReadsTable(_, _) => s
      case Asks =>
        s.(syncs := s.syncs[k := y.(phase := Paging(None, []), gone := set id | id in y.read && id !in s.live)])
      case Pages(page) =>
        s.(syncs := s.syncs[k := y.(phase := Paged(y, page))])
      case Marks(now) =>
        s.(rows := MarkedClosed(s.rows, y.phase.todo[0], now), syncs := s.syncs[k := y.(phase := Marking(y.phase.todo[1..]))])
      case Completes =>
        s.(syncs := s.syncs - {k})
      case Aborts =>
        s.(syncs := s.syncs - {k})
  }

  ghost function Paged(y: Sync, page: seq<PositionId>): SyncPhase
    requires y.phase.Paging?
  {
    var ids := y.phase.ids + page;
    if |page| < PAGE_SIZE then Marking(Missing(y.read, ids)) else Paging(Some(Smallest(page)), ids)
  }

  // ---------------------------------------------------------------- Emergency close

  /** `EmergencyCloseAllUseCase.execute`: all pairs, in parallel, failures left to the sync. */
  datatype EmergencyStep =
    | ReadsAll
    | Refused(id: PositionId)
    | Closed(id: PositionId, fill: Fill)
    | Stores(id: PositionId)
    | Settles(id: PositionId)

  ghost predicate EmergencyEnabled(s: State, e: EmergencyStep) {
    match e
    case ReadsAll => s.emergency == map[]
    case Refused(id) => id in s.emergency && s.emergency[id].Placing?
    case Closed(id, _) => id in s.emergency && s.emergency[id].Placing? && id in s.live
    case Stores(id) => id in s.emergency && s.emergency[id].Storing?
    case Settles(id) => id in s.emergency && s.emergency[id].Storing?
  }

  ghost function ApplyEmergency(s: State, e: EmergencyStep): State
    requires EmergencyEnabled(s, e)
  {
    match e
    case ReadsAll =>
      s.(emergency := map id | id in OpenIds(s.rows) :: Placing(Restored(s.rows[id])))
    case Refused(id) =>
      s.(emergency := s.emergency - {id})
    case Closed(id, fill) =>
      var exit := Closing(s.emergency[id].copy, fill);
      s.(live := s.live - {id}, accepted := s.accepted[id := exit], emergency := s.emergency[id := Storing(exit)])
    case Stores(id) =>
      s.(rows := Updated(s.rows, id, s.emergency[id].exit))
    case Settles(id) =>
      s.(emergency := s.emergency - {id})
  }

  // ---------------------------------------------------------------- Steps and runs

  datatype Label =
    | Entry(entryId: PositionId, entry: EntryStep)
    | Dispatching(pair: CurrencyPair, loop: LoopStep)
    | Executing(pair: CurrencyPair, saga: SagaStep)
    | Compensating(drain: DrainStep)
    | Syncing(k: nat, sync: SyncStep)
    | Emergency(emergency: EmergencyStep)
    | ClosedElsewhere(id: PositionId)
    | Restarts

  ghost predicate Enabled(s: State, l: Label) {
    match l
    case Entry(id, e) => EntryEnabled(s, id, e)
    case Dispatching(pair, e) => LoopEnabled(s, pair, e)
    case Executing(pair, e) => SagaEnabled(s, pair, e)
    case Compensating(e) => DrainEnabled(s, e)
    case Syncing(k, e) => SyncEnabled(s, k, e)
    case Emergency(e) => EmergencyEnabled(s, e)
    case ClosedElsewhere(id) => id in s.live
    case Restarts => true
  }

  /** Everything in memory is gone; the broker and the table stay. */
  ghost function Restarted(s: State): State {
    s.(entering := map[], queue := Q.EMPTY, drainWritten := false, dispatches := map[], syncs := map[],
       emergency := map[], ours := {})
  }

  ghost function Apply(s: State, l: Label): State
    requires Enabled(s, l)
  {
    match l
    case Entry(id, e) => ApplyEntry(s, id, e)
    case Dispatching(pair, e) => ApplyLoop(s, pair, e)
    case Executing(pair, e) => ApplySaga(s, pair, e)
    case Compensating(e) => ApplyDrain(s, e)
    case Syncing(k, e) => ApplySync(s, k, e)
    case Emergency(e) => ApplyEmergency(s, e)
    case ClosedElsewhere(id) => s.(live := s.live - {id})
    case Restarts => Restarted(s)
  }

  ghost predicate CanRun(s: State, run: seq<Label>)
    decreases |run|
  {
    run == [] || (Enabled(s, run[0]) && CanRun(Apply(s, run[0]), run[1..]))
  }

  ghost function After(s: State, run: seq<Label>): State
    requires CanRun(s, run)
    decreases |run|
  {
    if run == [] then s else After(Apply(s, run[0]), run[1..])
  }
}
