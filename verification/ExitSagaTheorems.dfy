/** Safety of the exit saga over whole runs. */
module ExitSagaTheorems {
  import opened PositionStore
  import opened ExitSaga
  import opened ExitSagaInvariants

  lemma {:induction false} StepOnward(s: State, l: Label)
    requires Inv(s) && Enabled(s, l)
    ensures Onward(s, Apply(s, l))
  {
    match l
    case Entry(id, e) => EntryOnward(s, id, e);
    case Dispatching(pair, e) => LoopOnward(s, pair, e);
    case Executing(pair, e) => SagaOnward(s, pair, e);
    case Compensating(e) => DrainOnward(s, e);
    case Syncing(k, e) => SyncOnward(s, k, e);
    case Emergency(e) => EmergencyOnward(s, e);
    case ClosedElsewhere(id) => ClosedElsewhereKeeps(s, id);
    case Restarts => RestartKeeps(s);
  }

  lemma {:induction false} RunKeeps(s: State, run: seq<Label>)
    requires Inv(s) && CanRun(s, run)
    ensures Inv(After(s, run)) && Onward(s, After(s, run))
    decreases |run|
  {
    if run == [] {
    } else {
      StepKeeps(s, run[0]);
      StepOnward(s, run[0]);
      RunKeeps(Apply(s, run[0]), run[1..]);
      OnwardComposes(s, Apply(s, run[0]), After(s, run));
    }
  }

  lemma OnwardComposes(s: State, t: State, u: State)
    requires Onward(s, t) && Onward(t, u)
    ensures Onward(s, u)
  {
  }

  lemma {:induction false} FromStart(run: seq<Label>)
    requires CanRun(START, run)
    ensures Inv(After(START, run))
  {
    StartHolds();
    RunKeeps(START, run);
  }

  /** In every reachable state, restarts and emergency closes included, a position that is
      CLOSED in the table is closed at the broker. */
  lemma {:induction false} ClosedRowIsClosedAtBroker(run: seq<Label>, id: PositionId)
    requires CanRun(START, run)
    ensures var s := After(START, run);
            id in s.rows && s.rows[id].exit.status == CLOSED ==> id !in s.live
  {
    FromStart(run);
  }

  /** Whatever a sync is about to mark is closed at the broker, however stale its reads are. */
  lemma {:induction false} SyncNeverMarksALivePosition(run: seq<Label>, k: nat, now: int)
    requires CanRun(START, run) && Enabled(After(START, run), Syncing(k, Marks(now)))
    ensures var s := After(START, run); s.syncs[k].phase.todo[0] !in s.live
  {
    FromStart(run);
    MarkIsSafe(After(START, run), k);
  }

  lemma MarkIsSafe(s: State, k: nat)
    requires SyncsAreSound(s) && k in s.syncs && s.syncs[k].phase.Marking? && s.syncs[k].phase.todo != []
    ensures s.syncs[k].phase.todo[0] !in s.live
  {
    var id := s.syncs[k].phase.todo[0];
    assert SyncIsSound(s, s.syncs[k]) && id in s.syncs[k].phase.todo;
  }

  /** Sync k is neither finished nor aborted by this step. */
  predicate KeepsSync(l: Label, k: nat) {
    && !l.Restarts?
    && (l.Syncing? && l.k == k ==> !l.sync.Completes? && !l.sync.Aborts?)
  }

  lemma {:induction false} GoneStays(s: State, k: nat, run: seq<Label>)
    requires CanRun(s, run) && k in s.syncs && !s.syncs[k].phase.Asking?
    requires forall i :: 0 <= i < |run| ==> KeepsSync(run[i], k)
    ensures k in After(s, run).syncs && After(s, run).syncs[k].gone == s.syncs[k].gone
    decreases |run|
  {
    if run == [] {
    } else {
      assert KeepsSync(run[0], k);
      GoneStaysOneStep(s, k, run[0]);
      GoneStays(Apply(s, run[0]), k, run[1..]);
    }
  }

  lemma {:induction false} SyncsUntouched(s: State, l: Label)
    requires Enabled(s, l) && !l.Syncing? && !l.Restarts?
    ensures Apply(s, l).syncs == s.syncs
  {
    match l
    case Entry(id, e) => EntryFootprint(s, id, e);
    case Dispatching(pair, e) => LoopFootprint(s, pair, e);
    case Executing(pair, e) => SagaFootprint(s, pair, e);
    case Compensating(e) => DrainFootprint(s, e);
    case Emergency(e) => EmergencyFootprint(s, e);
    case ClosedElsewhere(_) =>
  }

  lemma {:induction false} EntryFootprint(s: State, id: PositionId, e: EntryStep)
    requires EntryEnabled(s, id, e)
    ensures var t := ApplyEntry(s, id, e); t.queue == s.queue && t.dispatches == s.dispatches && t.syncs == s.syncs
  {
  }

  lemma {:induction false} DrainFootprint(s: State, e: DrainStep)
    requires DrainEnabled(s, e)
    ensures ApplyDrain(s, e).syncs == s.syncs
  {
  }

  lemma {:induction false} SyncFootprint(s: State, k: nat, e: SyncStep)
    requires SyncEnabled(s, k, e)
    ensures var t := ApplySync(s, k, e); t.queue == s.queue && t.dispatches == s.dispatches
  {
  }

  lemma {:induction false} EmergencyFootprint(s: State, e: EmergencyStep)
    requires EmergencyEnabled(s, e)
    ensures var t := ApplyEmergency(s, e); t.queue == s.queue && t.dispatches == s.dispatches && t.syncs == s.syncs
  {
  }

  lemma {:induction false} LoopFootprint(s: State, pair: CurrencyPair, e: LoopStep)
    requires LoopEnabled(s, pair, e)
    ensures var t := ApplyLoop(s, pair, e); t.queue == s.queue && t.syncs == s.syncs
  {
  }

  lemma {:induction false} GoneStaysOneStep(s: State, k: nat, l: Label)
    requires Enabled(s, l) && k in s.syncs && !s.syncs[k].phase.Asking? && KeepsSync(l, k)
    ensures var t := Apply(s, l); k in t.syncs && t.syncs[k].gone == s.syncs[k].gone && !t.syncs[k].phase.Asking?
  {
    if l.Syncing? {
      GoneStaysInSync(s, k, l.k, l.sync);
    } else {
      SyncsUntouched(s, l);
    }
  }

  lemma {:induction false} GoneStaysInSync(s: State, k: nat, j: nat, e: SyncStep)
    requires SyncEnabled(s, j, e) && k in s.syncs && !s.syncs[k].phase.Asking?
    requires j == k ==> !e.Completes? && !e.Aborts?
    ensures var t := ApplySync(s, j, e); k in t.syncs && t.syncs[k].gone == s.syncs[k].gone && !t.syncs[k].phase.Asking?
  {
  }

  /** A sync that is done has marked all it knew gone. */
  lemma DoneHasMarked(s: State, k: nat, id: PositionId)
    requires SyncsAreSound(s) && SyncEnabled(s, k, Completes) && id in s.syncs[k].gone
    ensures id in s.rows && s.rows[id].exit.status == CLOSED
  {
    assert SyncIsSound(s, s.syncs[k]);
  }

  lemma {:induction false} GoneIsRepaired(asked: State, k: nat, during: seq<Label>, id: PositionId)
    requires Inv(asked) && k in asked.syncs && !asked.syncs[k].phase.Asking? && id in asked.syncs[k].gone
    requires CanRun(asked, during) && forall i :: 0 <= i < |during| ==> KeepsSync(during[i], k)
    requires SyncEnabled(After(asked, during), k, Completes)
    ensures var t := After(asked, during); id in t.rows && t.rows[id].exit.status == CLOSED
  {
    RunKeeps(asked, during);
    GoneStays(asked, k, during);
    DoneHasMarked(After(asked, during), k, id);
  }

  /** A sync that completes leaves CLOSED every position of its pair that it had read as OPEN
      and that was closed at the broker before its broker read began. */
  lemma {:induction false} CompletedSyncRepairs(before: seq<Label>, k: nat, during: seq<Label>, id: PositionId)
    requires CanRun(START, before) && Enabled(After(START, before), Syncing(k, Asks))
    requires CanRun(Apply(After(START, before), Syncing(k, Asks)), during)
    requires forall i :: 0 <= i < |during| ==> KeepsSync(during[i], k)
    requires Enabled(After(Apply(After(START, before), Syncing(k, Asks)), during), Syncing(k, Completes))
    requires id in After(START, before).syncs[k].read && id !in After(START, before).live
    ensures var t := After(Apply(After(START, before), Syncing(k, Asks)), during);
            id in t.rows && t.rows[id].exit.status == CLOSED
  {
    FromStart(before);
    StepKeeps(After(START, before), Syncing(k, Asks));
    GoneIsRepaired(Apply(After(START, before), Syncing(k, Asks)), k, during, id);
  }

  /** At every await, each exit the broker accepted through the saga in this process is fully
      in the table, in the compensation queue, or inside its own unfinished closePosition. */
  lemma {:induction false} NoAcceptedExitIsForgotten(run: seq<Label>, id: PositionId)
    requires CanRun(START, run) && id in After(START, run).ours
    ensures var s := After(START, run); Recorded(s, id) || id in s.queue.entries || InOwnSaga(s, id)
  {
    FromStart(run);
  }

  /** An entry leaves the queue only when the table shows its exit in full. */
  lemma {:induction false} QueueLosesOnlyRecorded(run: seq<Label>, l: Label, id: PositionId)
    requires CanRun(START, run)
    ensures var s := After(START, run);
            Enabled(s, l) && !l.Restarts? && id in s.queue.entries && id !in Apply(s, l).queue.entries ==>
              l == Compensating(Succeeds) && Recorded(Apply(s, l), id)
  {
    FromStart(run);
    var s := After(START, run);
    if Enabled(s, l) && !l.Restarts? {
      QueueShrinks(s, l, id);
    }
  }

  lemma {:induction false} QueueShrinks(s: State, l: Label, id: PositionId)
    requires DrainIsFaithful(s) && Enabled(s, l) && !l.Restarts?
    ensures id in s.queue.entries && id !in Apply(s, l).queue.entries ==>
              l == Compensating(Succeeds) && Recorded(Apply(s, l), id)
  {
    match l
    case Entry(i, e) => EntryFootprint(s, i, e);
    case Dispatching(pair, e) => LoopFootprint(s, pair, e);
    case Executing(pair, e) => SagaFootprint(s, pair, e);
    case Compensating(e) => QueueShrinksInDrain(s, e, id);
    case Syncing(k, e) => SyncFootprint(s, k, e);
    case Emergency(e) => EmergencyFootprint(s, e);
    case ClosedElsewhere(_) =>
  }

  lemma {:induction false} QueueShrinksInDrain(s: State, e: DrainStep, id: PositionId)
    requires DrainIsFaithful(s) && DrainEnabled(s, e)
    ensures id in s.queue.entries && id !in ApplyDrain(s, e).queue.entries ==> e == Succeeds && Recorded(ApplyDrain(s, e), id)
  {
  }

  /** `Position.close` never throws after an accepted exit, and no status-only entry is queued. */
  lemma {:induction false} FallbackIsNeverReached(run: seq<Label>)
    requires CanRun(START, run)
    ensures var s := After(START, run);
            && (forall pair :: pair in s.dispatches && s.dispatches[pair].saga.BrokerAccepted? ==>
                  s.dispatches[pair].saga.copy.status == OPEN)
            && (forall id :: id in s.queue.entries ==> s.queue.entries[id].kind.UpdateKind?)
  {
    FromStart(run);
    var s := After(START, run);
    forall pair | pair in s.dispatches ensures DispatchIsSound(s, pair) {
    }
  }

  /** No closePosition is under way for a queued position, in any interleaving. */
  lemma {:induction false} QueuedIsNeverHeld(run: seq<Label>, pair: CurrencyPair, id: PositionId)
    requires CanRun(START, run) && pair in After(START, run).dispatches
    requires Holds(After(START, run).dispatches[pair].saga, id)
    ensures id !in After(START, run).queue.entries
  {
    FromStart(run);
    assert DispatchIsSound(After(START, run), pair);
  }

  /** For a position whose exit the broker has already accepted, from whomever, the loop may attempt it
      again exactly when the exit was not accepted in this process through ExitExecution, or its
      compensation completed after this dispatch had read the open positions. */
  lemma {:induction false} SecondAttemptExactly(run: seq<Label>, pair: CurrencyPair)
    requires CanRun(START, run) && AtHead(After(START, run), pair)
    requires After(START, run).dispatches[pair].todo[0] in After(START, run).accepted
    ensures var s := After(START, run);
            var id := s.dispatches[pair].todo[0];
            Enabled(s, Dispatching(pair, Fires)) <==> id !in s.ours || id in s.dispatches[pair].drained
  {
    FromStart(run);
    ShieldAtHead(After(START, run), pair);
  }

  lemma ShieldAtHead(s: State, pair: CurrencyPair)
    requires QueueIsOurs(s) && ShieldHolds(s) && AtHead(s, pair)
    ensures var id := s.dispatches[pair].todo[0];
            LoopEnabled(s, pair, Fires) <==> id !in s.ours || id in s.dispatches[pair].drained
  {
    var id := s.dispatches[pair].todo[0];
    assert id in s.dispatches[pair].todo;
  }

  /** No drain completes for a position some dispatch has read and not yet looked at. */
  ghost predicate Quiet(s: State, run: seq<Label>)
    requires CanRun(s, run)
    decreases |run|
  {
    run != [] ==>
      && (run[0] == Compensating(Succeeds) ==>
            forall pair :: pair in s.dispatches ==> s.queue.drain.value[0].id !in s.dispatches[pair].todo)
      && Quiet(Apply(s, run[0]), run[1..])
  }

  ghost predicate NothingDrainedAhead(s: State) {
    forall pair :: pair in s.dispatches ==> NotAhead(s.dispatches[pair])
  }

  ghost predicate NotAhead(d: Dispatch) {
    && (forall id :: id in d.drained ==> id !in d.todo)
    && (d.saga.Finding? ==> d.saga.id !in d.drained)
  }

  lemma {:induction false} QuietStep(s: State, l: Label)
    requires DrainIsFaithful(s) && DispatchesAreSound(s) && NothingDrainedAhead(s) && Enabled(s, l)
    requires l == Compensating(Succeeds) ==>
               forall pair :: pair in s.dispatches ==> s.queue.drain.value[0].id !in s.dispatches[pair].todo
    ensures NothingDrainedAhead(Apply(s, l))
  {
    match l
    case Entry(id, e) => EntryFootprint(s, id, e);
    case Dispatching(pair, e) => QuietLoopStep(s, pair, e);
    case Executing(pair, e) => QuietSagaStep(s, pair, e);
    case Compensating(e) => QuietDrainStep(s, e);
    case Syncing(k, e) => SyncFootprint(s, k, e);
    case Emergency(e) => EmergencyFootprint(s, e);
    case ClosedElsewhere(_) =>
    case Restarts =>
  }

  lemma {:induction false} QuietDrainStep(s: State, e: DrainStep)
    requires DrainIsFaithful(s) && DispatchesAreSound(s) && NothingDrainedAhead(s) && DrainEnabled(s, e)
    requires e.Succeeds? ==> forall pair :: pair in s.dispatches ==> s.queue.drain.value[0].id !in s.dispatches[pair].todo
    ensures NothingDrainedAhead(ApplyDrain(s, e))
  {
    if e.Succeeds? {
      var head := s.queue.drain.value[0].id;
      forall pair | pair in s.dispatches ensures s.dispatches[pair].saga != Finding(head) {
        assert DispatchIsSound(s, pair);
        assert s.dispatches[pair].saga == Finding(head) ==> Holds(s.dispatches[pair].saga, head);
      }
    }
  }

  lemma {:induction false} QuietLoopStep(s: State, pair: CurrencyPair, e: LoopStep)
    requires NothingDrainedAhead(s) && LoopEnabled(s, pair, e)
    ensures NothingDrainedAhead(ApplyLoop(s, pair, e))
  {
    if e.Fires? {
      var head := s.dispatches[pair].todo[0];
      assert NotAhead(s.dispatches[pair]) && head in s.dispatches[pair].todo;
    }
  }

  lemma {:induction false} QuietSagaStep(s: State, pair: CurrencyPair, e: SagaStep)
    requires NothingDrainedAhead(s) && SagaEnabled(s, pair, e)
    ensures NothingDrainedAhead(ApplySaga(s, pair, e))
  {
    SagaFootprint(s, pair, e);
    assert NotAhead(s.dispatches[pair]);
  }

  lemma {:induction false} QuietRun(s: State, run: seq<Label>)
    requires Inv(s) && NothingDrainedAhead(s) && CanRun(s, run) && Quiet(s, run)
    ensures Inv(After(s, run)) && NothingDrainedAhead(After(s, run))
    decreases |run|
  {
    if run == [] {
    } else {
      StepKeeps(s, run[0]);
      QuietStep(s, run[0]);
      QuietRun(Apply(s, run[0]), run[1..]);
    }
  }

  /** Over runs whose drains are quiet, no exit order is ever sent for a position whose exit was
      already accepted in this process through ExitExecution, however many table writes fail. */
  lemma {:induction false} NoSecondOrderInQuietRuns(run: seq<Label>, pair: CurrencyPair, extremes: Extremes)
    requires CanRun(START, run) && Quiet(START, run)
    requires Enabled(After(START, run), Executing(pair, Orders(extremes)))
    ensures After(START, run).dispatches[pair].saga.id !in After(START, run).ours
  {
    StartHolds();
    QuietRun(START, run);
    var s := After(START, run);
    assert NotAhead(s.dispatches[pair]);
  }

  /** Along any run from any reachable state no row goes from CLOSED to OPEN, and a recorded
      fill stays exactly as it is. */
  lemma {:induction false} RowsNeverGoBack(before: seq<Label>, after: seq<Label>, id: PositionId)
    requires CanRun(START, before) && CanRun(After(START, before), after)
    requires id in After(START, before).rows
    ensures var s, t := After(START, before), After(After(START, before), after);
            && id in t.rows && t.rows[id].info == s.rows[id].info
            && (s.rows[id].exit.status == CLOSED ==> t.rows[id].exit.status == CLOSED)
            && (s.rows[id].exit.fill.Some? ==> t.rows[id].exit == s.rows[id].exit)
  {
    FromStart(before);
    RunKeeps(After(START, before), after);
  }

  // ---------------------------------------------------------------- The re-ordering race

  lemma {:induction false} RunExtends(s: State, run: seq<Label>, l: Label)
    requires CanRun(s, run) && Enabled(After(s, run), l)
    ensures CanRun(s, run + [l]) && After(s, run + [l]) == Apply(After(s, run), l)
    decreases |run|
  {
    if run == [] {
      assert (run + [l])[1..] == [];
      assert CanRun(Apply(s, l), []);
    } else {
      assert (run + [l])[1..] == run[1..] + [l];
      RunExtends(Apply(s, run[0]), run[1..], l);
    }
  }
}
