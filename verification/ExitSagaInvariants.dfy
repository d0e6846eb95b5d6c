/** What every step of the exit saga keeps. */
module ExitSagaInvariants {
  import opened Outcomes
  import opened PositionStore
  import opened BrokerPaging
  import opened ExitSaga

  /** Ids are never reused, and rows appear only after fills. */
  ghost predicate IdsAgree(s: State) {
    && s.live <= s.book.Keys
    && s.entering.Keys <= s.book.Keys
    && s.rows.Keys <= s.book.Keys
    && s.entering.Keys !! s.rows.Keys
    && (forall id :: id in s.rows ==> s.rows[id].info.pair == s.book[id])
    && (forall id :: id in s.entering ==> s.entering[id].pair == s.book[id])
  }

  /** An accepted exit names a registered position, closes it at the broker, and has a fill. */
  ghost predicate AcceptedAreClosed(s: State) {
    && s.accepted.Keys <= s.rows.Keys
    && s.accepted.Keys !! s.live
    && s.ours <= s.accepted.Keys
    && (forall id :: id in s.accepted ==> s.accepted[id].status == CLOSED && s.accepted[id].fill.Some?)
  }

  /** CLOSED in the table implies closed at the broker. */
  ghost predicate ClosedRowsAreDead(s: State) {
    forall id :: id in s.rows && s.rows[id].exit.status == CLOSED ==> id !in s.live
  }

  /** The only fill a row ever shows is the one the broker accepted. */
  ghost predicate FillsAreAccepted(s: State) {
    forall id :: id in s.rows && s.rows[id].exit.fill.Some? ==> Recorded(s, id)
  }

  /** The table shows the accepted exit in full. */
  ghost predicate Recorded(s: State, id: PositionId) {
    id in s.rows && id in s.accepted && s.rows[id].exit == s.accepted[id]
  }

  /** Every entry is the full update of an exit accepted by this process. */
  ghost predicate QueueIsOurs(s: State) {
    forall id :: id in s.queue.entries ==>
      id in s.ours && id in s.accepted && s.queue.entries[id].kind == Q.UpdateKind(s.accepted[id])
  }

  ghost predicate DrainIsFaithful(s: State) {
    && (s.drainWritten ==> Draining(s))
    && (s.queue.drain.Some? ==>
          var todo := s.queue.drain.value;
          && (forall i, j :: 0 <= i < j < |todo| ==> todo[i].id != todo[j].id)
          && (forall i :: 0 <= i < |todo| ==>
                todo[i].id in s.queue.entries && s.queue.entries[todo[i].id].kind == todo[i].kind)
          && (s.drainWritten ==> Recorded(s, todo[0].id)))
  }

  /** The position a saga holds between its shield check and the end of its table write. */
  ghost predicate Holds(g: Saga, id: PositionId) {
    match g
    case NoSaga => false
    case Finding(i) => i == id
    case Ordered(i, _) => i == id
    case BrokerAccepted(i, _, _) => i == id
    case Updating(i, _, _) => i == id
    case Notifying(_) => false
  }

  /** What is settled by the time the saga is at an await. */
  ghost predicate StandsFor(s: State, g: Saga) {
    match g
    case Ordered(id, copy) => copy.status == CLOSED ==> id !in s.live
    case BrokerAccepted(id, copy, fill) =>
      copy.status == OPEN && id in s.ours && id in s.accepted && s.accepted[id] == Closing(copy, fill)
    case Updating(id, exit, written) =>
      id in s.ours && id in s.accepted && s.accepted[id] == exit && (written ==> Recorded(s, id))
    case _ => true
  }

  ghost predicate SagaIsSound(s: State, pair: CurrencyPair, g: Saga) {
    && (forall id :: Holds(g, id) ==>
          id in s.rows && s.rows[id].info.pair == pair && id !in s.queue.entries)
    && StandsFor(s, g)
  }

  ghost predicate DispatchIsSound(s: State, pair: CurrencyPair)
    requires pair in s.dispatches
  {
    var d := s.dispatches[pair];
    && DistinctIds(d.todo)
    && (forall id :: id in d.todo ==> id in s.rows && s.rows[id].info.pair == pair && !Holds(d.saga, id))
    && SagaIsSound(s, pair, d.saga)
  }

  ghost predicate DispatchesAreSound(s: State) {
    forall pair :: pair in s.dispatches ==> DispatchIsSound(s, pair)
  }

  /** Everything the sync still counts as open at the broker is listed or yet to be listed. */
  ghost predicate SyncIsSound(s: State, y: Sync) {
    && (forall id :: id in y.read ==> id in s.rows && s.rows[id].info.pair == y.pair)
    && (forall id :: id in y.gone ==> id in y.read && id !in s.live)
    && match y.phase
       case Asking => y.gone == {}
       case Paging(prev, ids) =>
         && (forall id :: id in y.gone ==> id !in ids)
         && (forall id :: id in y.read && id in s.live && !Below(id, prev) ==> id in ids)
       case Marking(todo) =>
         && (forall id :: id in todo ==> id in y.read && id !in s.live)
         && (forall id :: id in y.gone ==> id in todo || s.rows[id].exit.status == CLOSED)
  }

  ghost predicate SyncsAreSound(s: State) {
    forall k :: k in s.syncs ==> SyncIsSound(s, s.syncs[k])
  }

  ghost predicate EmergencyIsSound(s: State) {
    forall id :: id in s.emergency ==>
      match s.emergency[id]
      case Placing(copy) => id in s.rows && copy.status == OPEN
      case Storing(exit) => id in s.rows && id in s.accepted && id !in s.ours && s.accepted[id] == exit
  }

  /** A saga of the position's own pair is between the broker's acceptance and the end of
      the table write. */
  ghost predicate InOwnSaga(s: State, id: PositionId) {
    && id in s.book && s.book[id] in s.dispatches
    && var g := s.dispatches[s.book[id]].saga;
       (g.BrokerAccepted? && g.id == id) || (g.Updating? && g.id == id)
  }

  /** No accepted exit is forgotten: recorded, queued, or still inside its own saga. */
  ghost predicate NothingForgotten(s: State) {
    forall id :: id in s.ours ==> Recorded(s, id) || id in s.queue.entries || InOwnSaga(s, id)
  }

  /** For a position still to be looked at, the shield is up exactly until a drain takes it down. */
  ghost predicate ShieldHolds(s: State) {
    forall pair :: pair in s.dispatches ==>
      && (forall id :: id in s.dispatches[pair].todo && id in s.ours ==>
            (id in s.queue.entries <==> id !in s.dispatches[pair].drained))
      && (forall id :: s.dispatches[pair].saga == Finding(id) && id in s.ours ==> id in s.dispatches[pair].drained)
  }

  ghost predicate Core(s: State) {
    IdsAgree(s) && AcceptedAreClosed(s) && ClosedRowsAreDead(s) && FillsAreAccepted(s) && QueueIsOurs(s)
  }

  ghost predicate Inv(s: State) {
    && Core(s) && DrainIsFaithful(s) && DispatchesAreSound(s) && SyncsAreSound(s)
    && EmergencyIsSound(s) && NothingForgotten(s) && ShieldHolds(s)
  }

  // ---------------------------------------------------------------- Monotone history

  /** Nothing a step does can be taken back: rows stay, CLOSED stays, a recorded exit stays
      recorded, a position closed at the broker stays closed, an accepted exit stays accepted. */
  ghost predicate Onward(s: State, t: State) {
    && (forall id :: id in s.book ==> id in t.book && t.book[id] == s.book[id] && (id in t.live ==> id in s.live))
    && (forall id :: id in s.accepted ==> id in t.accepted && t.accepted[id] == s.accepted[id])
    && (forall id :: id in s.rows ==>
          && id in t.rows && t.rows[id].info == s.rows[id].info
          && (s.rows[id].exit.status == CLOSED ==> t.rows[id].exit.status == CLOSED)
          && (Recorded(s, id) ==> Recorded(t, id)))
  }

  /** Apart from rows, nothing durable or historical moves; queue entries may go, none come. */
  ghost predicate OnlyRowsMove(s: State, t: State) {
    && t.book == s.book && t.live == s.live && t.accepted == s.accepted && t.ours == s.ours && t.entering == s.entering
    && (forall id :: id in t.queue.entries ==> id in s.queue.entries && t.queue.entries[id].kind == s.queue.entries[id].kind)
  }

  lemma NothingMoves(s: State, t: State)
    requires Core(s) && OnlyRowsMove(s, t) && t.rows == s.rows
    ensures Onward(s, t) && Core(t)
  {
  }

  lemma RowIsRecorded(s: State, t: State, id: PositionId)
    requires Core(s) && OnlyRowsMove(s, t) && id in s.accepted && t.rows == Updated(s.rows, id, s.accepted[id])
    ensures Onward(s, t) && Core(t)
  {
  }

  lemma RowIsMarked(s: State, t: State, id: PositionId, now: int)
    requires Core(s) && OnlyRowsMove(s, t) && id !in s.live && t.rows == MarkedClosed(s.rows, id, now)
    ensures Onward(s, t) && Core(t)
  {
    MarkedRows(s, t, id, now);
    MarkIsOnward(s, t);
    MarkKeepsCore(s, t);
  }

  /** What a mark does to rows: entries stay, one OPEN row at most becomes CLOSED, fills and recorded exits stay. */
  ghost predicate RowsMarked(s: State, t: State) {
    && t.rows.Keys == s.rows.Keys
    && forall id :: id in s.rows ==>
         && t.rows[id].info == s.rows[id].info
         && (t.rows[id] == s.rows[id]
             || (s.rows[id].exit.status == OPEN && id !in s.live && t.rows[id].exit.fill == s.rows[id].exit.fill))
  }

  lemma MarkedRows(s: State, t: State, id: PositionId, now: int)
    requires id !in s.live && t.rows == MarkedClosed(s.rows, id, now)
    ensures RowsMarked(s, t)
  {
  }

  lemma MarkIsOnward(s: State, t: State)
    requires Core(s) && OnlyRowsMove(s, t) && RowsMarked(s, t)
    ensures Onward(s, t)
  {
  }

  lemma MarkKeepsCore(s: State, t: State)
    requires Core(s) && OnlyRowsMove(s, t) && RowsMarked(s, t) && Onward(s, t)
    ensures Core(t)
  {
  }

  /** The broker closes a registered position and its exit is noted. */
  lemma ExitIsAccepted(s: State, t: State, id: PositionId, exit: Exit)
    requires Core(s) && id in s.live && id in s.rows && exit.status == CLOSED && exit.fill.Some?
    requires t.live == s.live - {id} && t.accepted == s.accepted[id := exit] && s.ours <= t.ours <= s.ours + {id}
    requires t.book == s.book && t.rows == s.rows && t.entering == s.entering && t.queue == s.queue
    ensures Onward(s, t) && Core(t)
  {
  }

  lemma {:induction false} EntryOnward(s: State, id: PositionId, e: EntryStep)
    requires Core(s) && EntryEnabled(s, id, e)
    ensures Onward(s, ApplyEntry(s, id, e)) && Core(ApplyEntry(s, id, e))
  {
    match e
    case Fills(info) => FillOnward(s, id, info);
    case Registers => RegisterOnward(s, id);
    case IsLost =>
  }

  lemma FillOnward(s: State, id: PositionId, info: EntryInfo)
    requires Core(s) && EntryEnabled(s, id, Fills(info))
    ensures var t := ApplyEntry(s, id, Fills(info)); Onward(s, t) && Core(t)
  {
  }

  lemma RegisterOnward(s: State, id: PositionId)
    requires Core(s) && EntryEnabled(s, id, Registers)
    ensures var t := ApplyEntry(s, id, Registers); Onward(s, t) && Core(t)
  {
  }

  lemma {:induction false} ExitIsEnqueued(s: State, t: State, id: PositionId)
    requires Core(s) && id in s.ours && id in s.accepted
    requires t == s.(queue := Q.Enqueued(s.queue, id, Q.UpdateKind(s.accepted[id])))
    ensures Onward(s, t) && Core(t)
  {
  }

  lemma {:induction false} LoopOnward(s: State, pair: CurrencyPair, e: LoopStep)
    requires Core(s) && LoopEnabled(s, pair, e)
    ensures Onward(s, ApplyLoop(s, pair, e)) && Core(ApplyLoop(s, pair, e))
  {
    NothingMoves(s, ApplyLoop(s, pair, e));
  }

  lemma {:induction false} EffectOnward(s: State, pair: CurrencyPair, e: SagaStep)
    requires Core(s) && SagaEnabled(s, pair, e) && DispatchIsSound(s, pair)
    ensures var t := SagaEffect(s, s.dispatches[pair].saga, e); Onward(s, t) && Core(t)
  {
    var g := s.dispatches[pair].saga;
    match e
    case IsAccepted(fill) => AcceptanceOnward(s, pair, fill);
    case UpdateWrites => RowIsRecorded(s, SagaEffect(s, g, e), g.id);
    case UpdateThrows => ExitIsEnqueued(s, SagaEffect(s, g, e), g.id);
    case _ =>
      NoEffect(s, pair, e);
      NothingMoves(s, s);
  }

  lemma {:induction false} AcceptanceOnward(s: State, pair: CurrencyPair, fill: Fill)
    requires Core(s) && SagaEnabled(s, pair, IsAccepted(fill)) && DispatchIsSound(s, pair)
    ensures var t := SagaEffect(s, s.dispatches[pair].saga, IsAccepted(fill)); Onward(s, t) && Core(t)
  {
    var g := s.dispatches[pair].saga;
    assert Holds(g, g.id);
    ExitIsAccepted(s, SagaEffect(s, g, IsAccepted(fill)), g.id, Closing(g.copy, fill));
  }

  lemma {:induction false} NoEffect(s: State, pair: CurrencyPair, e: SagaStep)
    requires SagaEnabled(s, pair, e) && SagaIsSound(s, pair, s.dispatches[pair].saga)
    requires !e.IsAccepted? && !e.UpdateWrites? && !e.UpdateThrows?
    ensures SagaEffect(s, s.dispatches[pair].saga, e) == s
  {
  }

  lemma {:induction false} SagaOnward(s: State, pair: CurrencyPair, e: SagaStep)
    requires Core(s) && SagaEnabled(s, pair, e) && DispatchIsSound(s, pair)
    ensures Onward(s, ApplySaga(s, pair, e)) && Core(ApplySaga(s, pair, e))
  {
    EffectOnward(s, pair, e);
    SameWorld(s, SagaEffect(s, s.dispatches[pair].saga, e), ApplySaga(s, pair, e));
  }

  /** Dispatches are no part of what `Onward` and `Core` look at. */
  lemma SameWorld(s: State, t: State, u: State)
    requires Onward(s, t) && Core(t) && u == t.(dispatches := u.dispatches)
    ensures Onward(s, u) && Core(u)
  {
  }

  lemma {:induction false} DrainOnward(s: State, e: DrainStep)
    requires Core(s) && DrainIsFaithful(s) && DrainEnabled(s, e)
    ensures Onward(s, ApplyDrain(s, e)) && Core(ApplyDrain(s, e))
  {
    if e.Writes? {
      RowIsRecorded(s, ApplyDrain(s, e), s.queue.drain.value[0].id);
    } else {
      NothingMoves(s, ApplyDrain(s, e));
    }
  }

  lemma {:induction false} SyncOnward(s: State, k: nat, e: SyncStep)
    requires Core(s) && SyncEnabled(s, k, e)
    requires k in s.syncs ==> SyncIsSound(s, s.syncs[k])
    ensures Onward(s, ApplySync(s, k, e)) && Core(ApplySync(s, k, e))
  {
    if e.Marks? {
      var id := s.syncs[k].phase.todo[0];
      assert id in s.syncs[k].phase.todo;
      RowIsMarked(s, ApplySync(s, k, e), id, e.now);
    } else {
      NothingMoves(s, ApplySync(s, k, e));
    }
  }

  lemma {:induction false} EmergencyOnward(s: State, e: EmergencyStep)
    requires Core(s) && EmergencyIsSound(s) && EmergencyEnabled(s, e)
    ensures Onward(s, ApplyEmergency(s, e)) && Core(ApplyEmergency(s, e))
  {
    match e
    case Closed(id, fill) => ExitIsAccepted(s, ApplyEmergency(s, e), id, Closing(s.emergency[id].copy, fill));
    case Stores(id) => RowIsRecorded(s, ApplyEmergency(s, e), id);
    case _ => NothingMoves(s, ApplyEmergency(s, e));
  }

  // ---------------------------------------------------------------- What other actors rely on

  lemma SyncFrame(s: State, t: State, y: Sync)
    requires IdsAgree(s) && Onward(s, t) && SyncIsSound(s, y)
    ensures SyncIsSound(t, y)
  {
  }

  lemma SyncsFrame(s: State, t: State)
    requires IdsAgree(s) && Onward(s, t) && SyncsAreSound(s) && t.syncs == s.syncs
    ensures SyncsAreSound(t)
  {
    forall k | k in t.syncs ensures SyncIsSound(t, t.syncs[k]) {
      SyncFrame(s, t, s.syncs[k]);
    }
  }

  lemma DrainFrame(s: State, t: State)
    requires Onward(s, t) && DrainIsFaithful(s)
    requires t.queue.drain == s.queue.drain && t.drainWritten == s.drainWritten
    requires forall id :: id in s.queue.entries ==>
               id in t.queue.entries && t.queue.entries[id].kind == s.queue.entries[id].kind
    ensures DrainIsFaithful(t)
  {
  }

  lemma EmergencyFrame(s: State, t: State)
    requires Onward(s, t) && EmergencyIsSound(s) && t.emergency == s.emergency
    requires forall id :: id in t.ours && id !in s.ours ==> id !in s.accepted
    ensures EmergencyIsSound(t)
  {
  }

  /** A dispatch is untouched when its loop and saga stay and nothing of its pair is enqueued. */
  ghost predicate SameDispatch(s: State, t: State, pair: CurrencyPair) {
    && pair in s.dispatches && pair in t.dispatches
    && t.dispatches[pair].todo == s.dispatches[pair].todo
    && t.dispatches[pair].saga == s.dispatches[pair].saga
    && forall id :: id in t.queue.entries && id !in s.queue.entries ==>
         id in s.rows && s.rows[id].info.pair != pair
  }

  lemma DispatchFrame(s: State, t: State, pair: CurrencyPair)
    requires IdsAgree(s) && Onward(s, t) && s.ours <= t.ours
    requires SameDispatch(s, t, pair) && DispatchIsSound(s, pair)
    ensures DispatchIsSound(t, pair)
  {
  }

  lemma DispatchesFrame(s: State, t: State)
    requires IdsAgree(s) && Onward(s, t) && s.ours <= t.ours && DispatchesAreSound(s)
    requires t.dispatches.Keys == s.dispatches.Keys
    requires forall pair :: pair in s.dispatches ==> SameDispatch(s, t, pair)
    ensures DispatchesAreSound(t)
  {
    forall pair | pair in t.dispatches ensures DispatchIsSound(t, pair) {
      DispatchFrame(s, t, pair);
    }
  }

  lemma ForgottenFrame(s: State, t: State)
    requires Onward(s, t) && NothingForgotten(s) && t.ours == s.ours
    requires forall id :: id in s.ours && id in s.queue.entries ==> id in t.queue.entries || Recorded(t, id)
    requires forall id :: id in s.ours && InOwnSaga(s, id) ==>
               InOwnSaga(t, id) || id in t.queue.entries || Recorded(t, id)
    ensures NothingForgotten(t)
  {
  }

  ghost predicate SameShield(s: State, t: State, pair: CurrencyPair)
    requires pair in s.dispatches && pair in t.dispatches
  {
    && t.dispatches[pair] == s.dispatches[pair]
    && (forall id :: id in s.dispatches[pair].todo || s.dispatches[pair].saga == Finding(id) ==>
          && (id in t.ours ==> id in s.ours)
          && (id in t.queue.entries <==> id in s.queue.entries))
  }

  lemma ShieldFrame(s: State, t: State)
    requires ShieldHolds(s)
    requires forall pair :: pair in t.dispatches ==> pair in s.dispatches && SameShield(s, t, pair)
    ensures ShieldHolds(t)
  {
  }

  /** Same dispatches, same queue entries, same exits of ours: the loop side is untouched. */
  lemma LoopsFrame(s: State, t: State)
    requires IdsAgree(s) && Onward(s, t) && DispatchesAreSound(s) && NothingForgotten(s) && ShieldHolds(s)
    requires t.dispatches == s.dispatches && t.ours == s.ours
    requires t.queue.entries.Keys == s.queue.entries.Keys
    ensures DispatchesAreSound(t) && NothingForgotten(t) && ShieldHolds(t)
  {
    DispatchesFrame(s, t);
    forall id | id in s.ours && InOwnSaga(s, id) ensures InOwnSaga(t, id) {
    }
    ForgottenFrame(s, t);
    ShieldFrame(s, t);
  }

  // ---------------------------------------------------------------- Each actor keeps the invariant

  /** A step beside the queue, the loops and the syncs: only the emergency close is left to look at. */
  lemma BesideKeeps(s: State, t: State)
    requires Inv(s) && Onward(s, t)
    requires t.queue == s.queue && t.drainWritten == s.drainWritten && t.syncs == s.syncs
    requires t.dispatches == s.dispatches && t.ours == s.ours
    ensures DrainIsFaithful(t) && SyncsAreSound(t) && DispatchesAreSound(t) && NothingForgotten(t) && ShieldHolds(t)
  {
    DrainFrame(s, t);
    SyncsFrame(s, t);
    LoopsFrame(s, t);
  }

  lemma {:induction false} EntryKeeps(s: State, id: PositionId, e: EntryStep)
    requires Inv(s) && EntryEnabled(s, id, e)
    ensures Inv(ApplyEntry(s, id, e))
  {
    EntryOnward(s, id, e);
    EntryBeside(s, id, e);
    BesideKeeps(s, ApplyEntry(s, id, e));
    EmergencyFrame(s, ApplyEntry(s, id, e));
  }

  lemma {:induction false} EntryBeside(s: State, id: PositionId, e: EntryStep)
    requires EntryEnabled(s, id, e)
    ensures var t := ApplyEntry(s, id, e);
            && t.queue == s.queue && t.drainWritten == s.drainWritten && t.syncs == s.syncs
            && t.dispatches == s.dispatches && t.ours == s.ours && t.emergency == s.emergency && t.accepted == s.accepted
  {
  }

  lemma {:induction false} ClosedElsewhereKeeps(s: State, id: PositionId)
    requires Inv(s) && id in s.live
    ensures Inv(s.(live := s.live - {id})) && Onward(s, s.(live := s.live - {id}))
  {
    var t := s.(live := s.live - {id});
    assert Onward(s, t) && Core(t);
    BesideKeeps(s, t);
    EmergencyFrame(s, t);
  }

  lemma {:induction false} RestartKeeps(s: State)
    requires Inv(s)
    ensures Inv(Restarted(s)) && Onward(s, Restarted(s))
  {
    var t := Restarted(s);
    assert Onward(s, t) && Core(t);
  }

  lemma {:induction false} SyncStepSound(s: State, k: nat, e: SyncStep)
    requires Core(s) && SyncEnabled(s, k, e)
    requires k in s.syncs ==> SyncIsSound(s, s.syncs[k])
    ensures k in ApplySync(s, k, e).syncs ==> SyncIsSound(ApplySync(s, k, e), ApplySync(s, k, e).syncs[k])
  {
    match e
    case ReadsTable(pair, list) => ReadIsSound(s, pair, list);
    case Asks => AskIsSound(s, s.syncs[k]);
    case Pages(page) => PageIsSound(s, s.syncs[k], page);
    case Marks(now) => MarkIsSound(s, k, now);
    case Completes =>
    case Aborts =>
  }

  lemma ReadIsSound(s: State, pair: CurrencyPair, list: seq<PositionId>)
    requires IsOpenList(s, pair, list)
    ensures forall t: State :: t.rows == s.rows && t.live == s.live ==> SyncIsSound(t, Sync(pair, list, Asking, {}))
  {
  }

  lemma AskIsSound(s: State, y: Sync)
    requires SyncIsSound(s, y) && y.phase.Asking?
    ensures forall t: State :: t.rows == s.rows && t.live == s.live ==>
              SyncIsSound(t, y.(phase := Paging(None, []), gone := set id | id in y.read && id !in s.live))
  {
  }

  lemma PageIsSound(s: State, y: Sync, page: seq<PositionId>)
    requires Core(s) && SyncIsSound(s, y) && y.phase.Paging? && IsPage(page, LiveOf(s, y.pair), y.phase.prev)
    ensures forall t: State :: t.rows == s.rows && t.live == s.live ==> SyncIsSound(t, y.(phase := Paged(y, page)))
  {
    var ids := y.phase.ids + page;
    forall id | id in y.read && id in s.live && (|page| < PAGE_SIZE || Smallest(page) <= id) ensures id in ids {
      assert id in LiveOf(s, y.pair);
    }
  }

  lemma MarkIsSound(s: State, k: nat, now: int)
    requires SyncEnabled(s, k, Marks(now)) && SyncIsSound(s, s.syncs[k])
    ensures SyncIsSound(ApplySync(s, k, Marks(now)), ApplySync(s, k, Marks(now)).syncs[k])
  {
    var todo := s.syncs[k].phase.todo;
    assert todo == [todo[0]] + todo[1..];
  }

  lemma {:induction false} SyncKeeps(s: State, k: nat, e: SyncStep)
    requires Inv(s) && SyncEnabled(s, k, e)
    ensures Inv(ApplySync(s, k, e))
  {
    var t := ApplySync(s, k, e);
    SyncOnward(s, k, e);
    SyncStepSound(s, k, e);
    forall j | j in t.syncs && j != k ensures SyncIsSound(t, t.syncs[j]) {
      SyncFrame(s, t, s.syncs[j]);
    }
    DrainFrame(s, t);
    EmergencyFrame(s, t);
    LoopsFrame(s, t);
  }

  lemma {:induction false} EmergencyKeeps(s: State, e: EmergencyStep)
    requires Inv(s) && EmergencyEnabled(s, e)
    ensures Inv(ApplyEmergency(s, e))
  {
    EmergencyOnward(s, e);
    EmergencyBeside(s, e);
    BesideKeeps(s, ApplyEmergency(s, e));
    EmergencyStepSound(s, e);
  }

  lemma {:induction false} EmergencyBeside(s: State, e: EmergencyStep)
    requires EmergencyEnabled(s, e)
    ensures var t := ApplyEmergency(s, e);
            && t.queue == s.queue && t.drainWritten == s.drainWritten && t.syncs == s.syncs
            && t.dispatches == s.dispatches && t.ours == s.ours
  {
  }

  lemma {:induction false} EmergencyStepSound(s: State, e: EmergencyStep)
    requires Core(s) && EmergencyIsSound(s) && EmergencyEnabled(s, e)
    ensures EmergencyIsSound(ApplyEmergency(s, e))
  {
    match e
    case Closed(id, fill) => ClosedIsSound(s, id, fill);
    case Stores(id) =>
    case _ =>
  }

  lemma ClosedIsSound(s: State, id: PositionId, fill: Fill)
    requires Core(s) && EmergencyIsSound(s) && EmergencyEnabled(s, EmergencyStep.Closed(id, fill))
    ensures EmergencyIsSound(ApplyEmergency(s, EmergencyStep.Closed(id, fill)))
  {
    assert id !in s.accepted && id !in s.ours;
  }

  lemma {:induction false} DrainKeeps(s: State, e: DrainStep)
    requires Inv(s) && DrainEnabled(s, e)
    ensures Inv(ApplyDrain(s, e))
  {
    var t := ApplyDrain(s, e);
    DrainOnward(s, e);
    DrainStepFaithful(s, e);
    DrainBeside(s, e);
    SyncsFrame(s, t);
    EmergencyFrame(s, t);
    if e.Succeeds? {
      RecoveryKeepsLoops(s, t);
    } else {
      DrainLeavesLoops(s, e);
      LoopsFrame(s, t);
    }
  }

  lemma {:induction false} DrainStepFaithful(s: State, e: DrainStep)
    requires Core(s) && DrainIsFaithful(s) && DrainEnabled(s, e)
    ensures DrainIsFaithful(ApplyDrain(s, e))
  {
  }

  lemma {:induction false} DrainBeside(s: State, e: DrainStep)
    requires DrainEnabled(s, e)
    ensures var t := ApplyDrain(s, e);
            t.syncs == s.syncs && t.emergency == s.emergency && t.ours == s.ours && t.accepted == s.accepted
  {
  }

  lemma {:induction false} DrainLeavesLoops(s: State, e: DrainStep)
    requires DrainIsFaithful(s) && DrainEnabled(s, e) && !e.Succeeds?
    ensures var t := ApplyDrain(s, e);
            t.dispatches == s.dispatches && t.queue.entries.Keys == s.queue.entries.Keys
  {
  }

  /** Taking down a shield: the write is in the table, and every dispatch is told. */
  lemma {:induction false} RecoveryKeepsLoops(s: State, t: State)
    requires Core(s) && DrainIsFaithful(s) && DispatchesAreSound(s) && NothingForgotten(s) && ShieldHolds(s)
    requires DrainEnabled(s, Succeeds) && t == ApplyDrain(s, Succeeds) && Onward(s, t)
    ensures DispatchesAreSound(t) && NothingForgotten(t) && ShieldHolds(t)
  {
    RecoveryLeavesDispatches(s, t);
    DispatchesFrame(s, t);
    RecoveryForgetsNothing(s, t);
    RecoveryTakesShieldDown(s, t);
  }

  lemma {:induction false} RecoveryLeavesDispatches(s: State, t: State)
    requires DrainEnabled(s, Succeeds) && t == ApplyDrain(s, Succeeds)
    ensures t.ours == s.ours && t.dispatches.Keys == s.dispatches.Keys
    ensures forall pair :: pair in s.dispatches ==> SameDispatch(s, t, pair)
  {
  }

  lemma {:induction false} RecoveryForgetsNothing(s: State, t: State)
    requires DrainIsFaithful(s) && NothingForgotten(s)
    requires DrainEnabled(s, Succeeds) && t == ApplyDrain(s, Succeeds) && Onward(s, t)
    ensures NothingForgotten(t)
  {
    forall id | id in s.ours && InOwnSaga(s, id) ensures InOwnSaga(t, id) {
    }
    assert Recorded(t, s.queue.drain.value[0].id);
    ForgottenFrame(s, t);
  }

  lemma {:induction false} RecoveryTakesShieldDown(s: State, t: State)
    requires ShieldHolds(s) && DrainEnabled(s, Succeeds) && t == ApplyDrain(s, Succeeds)
    ensures ShieldHolds(t)
  {
    assert t.queue.entries == s.queue.entries - {s.queue.drain.value[0].id};
  }

  lemma {:induction false} LoopKeeps(s: State, pair: CurrencyPair, e: LoopStep)
    requires Inv(s) && LoopEnabled(s, pair, e)
    ensures Inv(ApplyLoop(s, pair, e))
  {
    var t := ApplyLoop(s, pair, e);
    LoopOnward(s, pair, e);
    DrainFrame(s, t);
    SyncsFrame(s, t);
    EmergencyFrame(s, t);
    LoopStepSound(s, pair, e);
    OthersInLoop(s, pair, e);
    LoopForgetsNothing(s, pair, e);
    LoopShield(s, pair, e);
  }

  lemma {:induction false} LoopStepSound(s: State, pair: CurrencyPair, e: LoopStep)
    requires Core(s) && LoopEnabled(s, pair, e)
    requires pair in s.dispatches ==> DispatchIsSound(s, pair)
    ensures pair in ApplyLoop(s, pair, e).dispatches ==> DispatchIsSound(ApplyLoop(s, pair, e), pair)
  {
  }

  lemma {:induction false} OthersInLoop(s: State, pair: CurrencyPair, e: LoopStep)
    requires Core(s) && LoopEnabled(s, pair, e) && DispatchesAreSound(s) && Onward(s, ApplyLoop(s, pair, e))
    ensures forall other :: other in ApplyLoop(s, pair, e).dispatches && other != pair ==>
              DispatchIsSound(ApplyLoop(s, pair, e), other)
  {
    var t := ApplyLoop(s, pair, e);
    forall other | other in t.dispatches && other != pair ensures DispatchIsSound(t, other) {
      DispatchFrame(s, t, other);
    }
  }

  lemma {:induction false} LoopForgetsNothing(s: State, pair: CurrencyPair, e: LoopStep)
    requires LoopEnabled(s, pair, e) && NothingForgotten(s) && Onward(s, ApplyLoop(s, pair, e))
    ensures NothingForgotten(ApplyLoop(s, pair, e))
  {
    var t := ApplyLoop(s, pair, e);
    forall id | id in s.ours && InOwnSaga(s, id) ensures InOwnSaga(t, id) {
    }
    ForgottenFrame(s, t);
  }

  /** Reading the open positions: whatever of ours is still OPEN in the table is queued. */
  lemma {:induction false} ReadShield(s: State, pair: CurrencyPair, list: seq<PositionId>)
    requires Core(s) && LoopEnabled(s, pair, Reads(list)) && NothingForgotten(s)
    ensures forall id :: id in list && id in s.ours ==> id in s.queue.entries
  {
    forall id | id in list && id in s.ours ensures id in s.queue.entries {
      assert !Recorded(s, id);
    }
  }

  lemma {:induction false} LoopShield(s: State, pair: CurrencyPair, e: LoopStep)
    requires Core(s) && LoopEnabled(s, pair, e) && NothingForgotten(s) && ShieldHolds(s)
    ensures ShieldHolds(ApplyLoop(s, pair, e))
  {
    if e.Reads? {
      ReadShield(s, pair, e.list);
    }
  }

  lemma {:induction false} SagaKeeps(s: State, pair: CurrencyPair, e: SagaStep)
    requires Inv(s) && SagaEnabled(s, pair, e)
    ensures Inv(ApplySaga(s, pair, e))
  {
    SagaOnward(s, pair, e);
    SagaFootprint(s, pair, e);
    OtherActors(s, ApplySaga(s, pair, e));
    SagaStepSound(s, pair, e);
    OthersInSaga(s, pair, e);
    SagaForgetsNothing(s, pair, e);
    SagaShield(s, pair, e);
  }

  /** What a saga step leaves alone. */
  ghost predicate Beside(s: State, t: State) {
    && t.syncs == s.syncs && t.emergency == s.emergency && t.drainWritten == s.drainWritten
    && t.queue.drain == s.queue.drain && s.ours <= t.ours
    && (forall id :: id in s.queue.entries ==>
          id in t.queue.entries && t.queue.entries[id] == s.queue.entries[id])
    && (forall id :: id in t.ours && id !in s.ours ==> id in s.live)
  }

  /** The only position a saga step can enqueue or accept is the one it holds. */
  ghost predicate OnlyTouches(s: State, t: State, id: PositionId) {
    t.ours <= s.ours + {id} && forall i :: i in t.queue.entries && i != id ==> i in s.queue.entries
  }

  lemma EnqueueFootprint(s: State, id: PositionId, kind: Q.Kind)
    ensures var t := s.(queue := Q.Enqueued(s.queue, id, kind)); Beside(s, t) && OnlyTouches(s, t, id)
  {
  }

  lemma AcceptFootprint(s: State, id: PositionId, exit: Exit)
    requires id in s.live
    ensures Beside(s, Accepting(s, id, exit)) && OnlyTouches(s, Accepting(s, id, exit), id)
  {
  }

  lemma {:induction false} EffectFootprint(s: State, pair: CurrencyPair, e: SagaStep)
    requires SagaEnabled(s, pair, e)
    ensures var g := s.dispatches[pair].saga;
            var t := SagaEffect(s, g, e);
            !g.NoSaga? && Beside(s, t) && OnlyTouches(s, t, g.id) && t.dispatches == s.dispatches
  {
    var g := s.dispatches[pair].saga;
    match e
    case IsAccepted(fill) => AcceptFootprint(s, g.id, Closing(g.copy, fill));
    case Closes => EnqueueFootprint(s, g.id, Q.MarkClosedKind);
    case UpdateThrows => EnqueueFootprint(s, g.id, Q.UpdateKind(g.exit));
    case _ => assert SagaEffect(s, g, e).queue == s.queue && SagaEffect(s, g, e).ours == s.ours;
  }

  /** Dispatches apart from its own saga's place are untouched. */
  ghost predicate OnlySagaMoves(s: State, t: State, pair: CurrencyPair) {
    && pair in s.dispatches && pair in t.dispatches && !s.dispatches[pair].saga.NoSaga?
    && OnlyTouches(s, t, s.dispatches[pair].saga.id)
    && t.dispatches == s.dispatches[pair := s.dispatches[pair].(saga := t.dispatches[pair].saga)]
  }

  lemma {:induction false} SagaFootprint(s: State, pair: CurrencyPair, e: SagaStep)
    requires SagaEnabled(s, pair, e)
    ensures Beside(s, ApplySaga(s, pair, e)) && OnlySagaMoves(s, ApplySaga(s, pair, e), pair)
  {
    EffectFootprint(s, pair, e);
  }

  lemma OtherActors(s: State, t: State)
    requires Core(s) && DrainIsFaithful(s) && SyncsAreSound(s) && EmergencyIsSound(s) && Onward(s, t)
    requires Beside(s, t)
    ensures DrainIsFaithful(t) && SyncsAreSound(t) && EmergencyIsSound(t)
  {
    DrainFrame(s, t);
    SyncsFrame(s, t);
    EmergencyFrame(s, t);
  }

  lemma {:induction false} SagaStepSound(s: State, pair: CurrencyPair, e: SagaStep)
    requires Core(s) && SagaEnabled(s, pair, e) && DispatchIsSound(s, pair)
    ensures DispatchIsSound(ApplySaga(s, pair, e), pair)
  {
    SagaHoldsLess(s, pair, e);
    SagaKeepsInfo(s, pair, e);
    OwnSagaSound(s, pair, e);
  }

  /** The saga goes on holding the position it held, or lets go of it; what it queues it lets go of. */
  lemma {:induction false} SagaHoldsLess(s: State, pair: CurrencyPair, e: SagaStep)
    requires SagaEnabled(s, pair, e)
    ensures var g, h := s.dispatches[pair].saga, NextSaga(s, s.dispatches[pair].saga, e);
            forall id :: Holds(h, id) ==> Holds(g, id)
    ensures !NextSaga(s, s.dispatches[pair].saga, e).Notifying? ==>
              SagaEffect(s, s.dispatches[pair].saga, e).queue == s.queue
  {
  }

  lemma {:induction false} SagaKeepsInfo(s: State, pair: CurrencyPair, e: SagaStep)
    requires SagaEnabled(s, pair, e)
    ensures var t := ApplySaga(s, pair, e);
            t.rows.Keys == s.rows.Keys && forall id :: id in s.rows ==> t.rows[id].info == s.rows[id].info
  {
  }

  lemma {:induction false} OwnSagaSound(s: State, pair: CurrencyPair, e: SagaStep)
    requires Core(s) && SagaEnabled(s, pair, e) && SagaIsSound(s, pair, s.dispatches[pair].saga)
    ensures SagaIsSound(ApplySaga(s, pair, e), pair, ApplySaga(s, pair, e).dispatches[pair].saga)
  {
    SagaHoldsLess(s, pair, e);
    SagaKeepsInfo(s, pair, e);
    NextIsSound(s, pair, e);
  }

  lemma {:induction false} NextIsSound(s: State, pair: CurrencyPair, e: SagaStep)
    requires Core(s) && SagaEnabled(s, pair, e) && SagaIsSound(s, pair, s.dispatches[pair].saga)
    ensures StandsFor(ApplySaga(s, pair, e), ApplySaga(s, pair, e).dispatches[pair].saga)
  {
    match e
    case Orders(extremes) => OrderStands(s, pair, extremes);
    case IsAccepted(fill) => AcceptanceStands(s, pair, fill);
    case Closes =>
    case UpdateWrites => WriteStands(s, pair);
    case _ =>
  }

  lemma {:induction false} OrderStands(s: State, pair: CurrencyPair, extremes: Extremes)
    requires ClosedRowsAreDead(s) && SagaEnabled(s, pair, Orders(extremes))
    ensures StandsFor(ApplySaga(s, pair, Orders(extremes)), ApplySaga(s, pair, Orders(extremes)).dispatches[pair].saga)
  {
  }

  lemma {:induction false} AcceptanceStands(s: State, pair: CurrencyPair, fill: Fill)
    requires SagaEnabled(s, pair, IsAccepted(fill)) && StandsFor(s, s.dispatches[pair].saga)
    ensures StandsFor(ApplySaga(s, pair, IsAccepted(fill)), ApplySaga(s, pair, IsAccepted(fill)).dispatches[pair].saga)
  {
  }

  lemma {:induction false} WriteStands(s: State, pair: CurrencyPair)
    requires SagaEnabled(s, pair, UpdateWrites) && SagaIsSound(s, pair, s.dispatches[pair].saga)
    ensures StandsFor(ApplySaga(s, pair, UpdateWrites), ApplySaga(s, pair, UpdateWrites).dispatches[pair].saga)
  {
    var g := s.dispatches[pair].saga;
    assert Holds(g, g.id);
  }

  lemma {:induction false} OthersInSaga(s: State, pair: CurrencyPair, e: SagaStep)
    requires Core(s) && SagaEnabled(s, pair, e) && DispatchesAreSound(s) && Onward(s, ApplySaga(s, pair, e))
    ensures forall other :: other in s.dispatches && other != pair ==> DispatchIsSound(ApplySaga(s, pair, e), other)
  {
    var t := ApplySaga(s, pair, e);
    var g := s.dispatches[pair].saga;
    SagaFootprint(s, pair, e);
    assert DispatchIsSound(s, pair);
    forall other | other in s.dispatches && other != pair ensures DispatchIsSound(t, other) {
      assert SameDispatch(s, t, other);
      DispatchFrame(s, t, other);
    }
  }

  lemma {:induction false} SagaForgetsNothing(s: State, pair: CurrencyPair, e: SagaStep)
    requires Core(s) && SagaEnabled(s, pair, e) && DispatchesAreSound(s) && NothingForgotten(s)
    requires Onward(s, ApplySaga(s, pair, e))
    ensures NothingForgotten(ApplySaga(s, pair, e))
  {
    var t := ApplySaga(s, pair, e);
    SagaFootprint(s, pair, e);
    OwnExitIsKept(s, pair, e);
    OtherExitsAreKept(s, t, pair);
  }

  lemma {:induction false} OwnExitIsKept(s: State, pair: CurrencyPair, e: SagaStep)
    requires Core(s) && SagaEnabled(s, pair, e) && DispatchIsSound(s, pair) && NothingForgotten(s)
    requires Onward(s, ApplySaga(s, pair, e))
    ensures var t := ApplySaga(s, pair, e);
            var id := s.dispatches[pair].saga.id;
            id in t.ours ==> Recorded(t, id) || id in t.queue.entries || InOwnSaga(t, id)
  {
    match e
    case IsAccepted(_) => OwnSagaHoldsOn(s, pair, e);
    case Closes => OwnSagaHoldsOn(s, pair, e);
    case UpdateWrites => OwnSagaHoldsOn(s, pair, e);
    case UpdateReturns =>
    case UpdateThrows =>
    case _ => NothingOfItsOwn(s, pair, e);
  }

  /** From the broker's acceptance to the end of the table write the saga itself keeps the exit. */
  lemma {:induction false} OwnSagaHoldsOn(s: State, pair: CurrencyPair, e: SagaStep)
    requires Core(s) && SagaEnabled(s, pair, e) && DispatchIsSound(s, pair)
    requires e.IsAccepted? || e.Closes? || e.UpdateWrites?
    ensures InOwnSaga(ApplySaga(s, pair, e), s.dispatches[pair].saga.id)
  {
    var g := s.dispatches[pair].saga;
    assert Holds(g, g.id) && s.book[g.id] == pair;
  }

  /** Before and after that, it keeps none. */
  lemma {:induction false} NothingOfItsOwn(s: State, pair: CurrencyPair, e: SagaStep)
    requires Core(s) && SagaEnabled(s, pair, e) && DispatchIsSound(s, pair) && NothingForgotten(s)
    requires e.FindFails? || e.Orders? || e.IsRejected? || e.Notified?
    requires Onward(s, ApplySaga(s, pair, e))
    ensures var t := ApplySaga(s, pair, e);
            var id := s.dispatches[pair].saga.id;
            id in t.ours ==> Recorded(t, id) || id in t.queue.entries || InOwnSaga(t, id)
  {
    var g, t := s.dispatches[pair].saga, ApplySaga(s, pair, e);
    assert t.ours == s.ours && t.queue == s.queue;
    if g.id in s.ours && InOwnSaga(s, g.id) {
      assert s.book[g.id] != pair;
      assert t.dispatches[s.book[g.id]] == s.dispatches[s.book[g.id]];
    }
  }

  lemma {:induction false} OtherExitsAreKept(s: State, t: State, pair: CurrencyPair)
    requires IdsAgree(s) && NothingForgotten(s) && Onward(s, t) && Beside(s, t) && OnlySagaMoves(s, t, pair)
    ensures forall id :: id in t.ours && id != s.dispatches[pair].saga.id ==>
              Recorded(t, id) || id in t.queue.entries || InOwnSaga(t, id)
  {
    forall id | id in t.ours && id != s.dispatches[pair].saga.id && InOwnSaga(s, id) ensures InOwnSaga(t, id) {
      assert s.book[id] != pair;
      assert t.book[id] == s.book[id] && t.dispatches[s.book[id]] == s.dispatches[s.book[id]];
    }
  }

  lemma {:induction false} SagaShield(s: State, pair: CurrencyPair, e: SagaStep)
    requires SagaEnabled(s, pair, e) && DispatchesAreSound(s) && ShieldHolds(s)
    ensures ShieldHolds(ApplySaga(s, pair, e))
  {
    SagaFootprint(s, pair, e);
    ShieldBesideSaga(s, ApplySaga(s, pair, e), pair);
  }

  /** A saga moves no shield but that of the position it holds, which is in no loop. */
  lemma {:induction false} ShieldBesideSaga(s: State, t: State, pair: CurrencyPair)
    requires DispatchesAreSound(s) && ShieldHolds(s) && Beside(s, t) && OnlySagaMoves(s, t, pair)
    requires !t.dispatches[pair].saga.Finding? && (t.queue.entries != s.queue.entries || t.ours != s.ours ==> !s.dispatches[pair].saga.Notifying?)
    ensures ShieldHolds(t)
  {
    forall other | other in t.dispatches && other != pair ensures SameShield(s, t, other) {
      SameShieldElsewhere(s, t, pair, other);
    }
    OwnShield(s, t, pair);
  }

  lemma {:induction false} SameShieldElsewhere(s: State, t: State, pair: CurrencyPair, other: CurrencyPair)
    requires DispatchesAreSound(s) && Beside(s, t) && OnlySagaMoves(s, t, pair) && other in t.dispatches && other != pair
    requires t.queue.entries != s.queue.entries || t.ours != s.ours ==> !s.dispatches[pair].saga.Notifying?
    ensures SameShield(s, t, other)
  {
    var g, h := s.dispatches[pair].saga, s.dispatches[other].saga;
    assert DispatchIsSound(s, pair) && DispatchIsSound(s, other);
    assert !g.Notifying? ==> Holds(g, g.id) && s.rows[g.id].info.pair == pair;
    assert h.Finding? ==> Holds(h, h.id);
  }

  lemma {:induction false} OwnShield(s: State, t: State, pair: CurrencyPair)
    requires DispatchesAreSound(s) && ShieldHolds(s) && Beside(s, t) && OnlySagaMoves(s, t, pair)
    requires t.queue.entries != s.queue.entries || t.ours != s.ours ==> !s.dispatches[pair].saga.Notifying?
    ensures forall id :: id in t.dispatches[pair].todo && id in t.ours ==>
              (id in t.queue.entries <==> id !in t.dispatches[pair].drained)
  {
    var g := s.dispatches[pair].saga;
    assert DispatchIsSound(s, pair);
    assert !g.Notifying? ==> Holds(g, g.id);
  }

  lemma {:induction false} StepKeeps(s: State, l: Label)
    requires Inv(s) && Enabled(s, l)
    ensures Inv(Apply(s, l))
  {
    match l
    case Entry(id, e) => EntryKeeps(s, id, e);
    case Dispatching(pair, e) => LoopKeeps(s, pair, e);
    case Executing(pair, e) => SagaKeeps(s, pair, e);
    case Compensating(e) => DrainKeeps(s, e);
    case Syncing(k, e) => SyncKeeps(s, k, e);
    case Emergency(e) => EmergencyKeeps(s, e);
    case ClosedElsewhere(id) => ClosedElsewhereKeeps(s, id);
    case Restarts => RestartKeeps(s);
  }

  lemma {:induction false} StartHolds()
    ensures Inv(START)
  {
  }
}
