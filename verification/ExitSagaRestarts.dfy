/**
 Exits accepted by the saga before a restart: the queue that shielded them is gone, but a sync that
 completes before the first dispatch has closed their rows.
 */
module ExitSagaRestarts {
  import opened PositionStore
  import opened ExitSaga
  import opened ExitSagaInvariants
  import opened ExitSagaTheorems

  /** What a run has seen: the exits the saga's orders got accepted in any process, whether the process was
      ever restarted, and the pairs some sync completed for since the last start. */
  datatype Past = Past(sagaAccepted: set<PositionId>, restarted: bool, synced: set<CurrencyPair>)

  const NOTHING := Past({}, false, {})

  ghost function Remembered(p: Past, s: State, l: Label): Past
    requires Enabled(s, l)
  {
    match l
    case Executing(pair, e) =>
      if e.IsAccepted? then p.(sagaAccepted := p.sagaAccepted + {s.dispatches[pair].saga.id}) else p
    case Syncing(k, e) => if e.Completes? then p.(synced := p.synced + {s.syncs[k].pair}) else p
    case Restarts => p.(restarted := true, synced := {})
    case _ => p
  }

  ghost function PastOf(p: Past, s: State, run: seq<Label>): Past
    requires CanRun(s, run)
    decreases |run|
  {
    if run == [] then p else PastOf(Remembered(p, s, run[0]), Apply(s, run[0]), run[1..])
  }

  /** The start-up sequence: after a restart, a sync of the pair completes before a dispatch of the pair reads. */
  ghost predicate SyncsFirst(p: Past, s: State, run: seq<Label>)
    requires CanRun(s, run)
    decreases |run|
  {
    run != [] ==>
      && (run[0].Dispatching? && run[0].loop.Reads? && p.restarted ==> run[0].pair in p.synced)
      && SyncsFirst(Remembered(p, s, run[0]), Apply(s, run[0]), run[1..])
  }

  /** Accepted by the saga of an earlier process. */
  ghost function Earlier(p: Past, s: State): set<PositionId> {
    p.sagaAccepted - s.ours
  }

  /** Still to be looked at, or looked at and about to be ordered. */
  ghost predicate Awaits(d: Dispatch, id: PositionId) {
    id in d.todo || d.saga == Finding(id)
  }

  ghost predicate PastFits(p: Past, s: State) {
    s.ours <= p.sagaAccepted <= s.accepted.Keys && (!p.restarted ==> p.sagaAccepted <= s.ours)
  }

  ghost predicate SyncedAreClosed(p: Past, s: State) {
    forall id :: id in Earlier(p, s) && id in s.rows && s.rows[id].info.pair in p.synced ==> s.rows[id].exit.status == CLOSED
  }

  /** A sync since the start has read every such position, or its row is CLOSED; asked, it knows it gone. */
  ghost predicate SyncKnows(earlier: set<PositionId>, s: State, y: Sync) {
    forall id :: id in earlier && id in s.rows && s.rows[id].info.pair == y.pair ==>
      s.rows[id].exit.status == CLOSED || (id in y.read && (!y.phase.Asking? ==> id in y.gone))
  }

  ghost predicate SyncsKnow(p: Past, s: State) {
    forall k :: k in s.syncs ==> SyncKnows(Earlier(p, s), s, s.syncs[k])
  }

  ghost predicate AwaitsNone(d: Dispatch, earlier: set<PositionId>) {
    forall id :: Awaits(d, id) ==> id !in earlier
  }

  ghost predicate NoneAwaited(p: Past, s: State) {
    forall pair :: pair in s.dispatches ==> AwaitsNone(s.dispatches[pair], Earlier(p, s))
  }

  ghost predicate PastInv(p: Past, s: State) {
    PastFits(p, s) && SyncedAreClosed(p, s) && SyncsKnow(p, s) && NoneAwaited(p, s)
  }

  // ---------------------------------------------------------------- Steps

  ghost predicate NoMore(d: Dispatch, was: Dispatch) {
    forall id :: Awaits(d, id) ==> Awaits(was, id)
  }

  /** Dispatches await nothing they did not await before. */
  ghost predicate AwaitsLess(s: State, t: State) {
    forall pair :: pair in t.dispatches ==> pair in s.dispatches && NoMore(t.dispatches[pair], s.dispatches[pair])
  }

  lemma KnowsFrame(earlier: set<PositionId>, less: set<PositionId>, s: State, t: State, y: Sync)
    requires less <= earlier <= s.accepted.Keys && AcceptedAreClosed(s) && Onward(s, t) && SyncKnows(earlier, s, y)
    ensures SyncKnows(less, t, y)
  {
  }

  lemma ClosedFrame(p: Past, q: Past, s: State, t: State)
    requires PastFits(p, s) && AcceptedAreClosed(s) && Onward(s, t) && SyncedAreClosed(p, s)
    requires Earlier(q, t) <= Earlier(p, s) && q.synced == p.synced
    ensures SyncedAreClosed(q, t)
  {
  }

  lemma PastFrame(p: Past, q: Past, s: State, t: State)
    requires AcceptedAreClosed(s) && Onward(s, t) && PastInv(p, s)
    requires PastFits(q, t) && Earlier(q, t) <= Earlier(p, s) && q.synced == p.synced
    requires t.syncs == s.syncs && AwaitsLess(s, t)
    ensures PastInv(q, t)
  {
    ClosedFrame(p, q, s, t);
    forall k | k in t.syncs ensures SyncKnows(Earlier(q, t), t, t.syncs[k]) {
      KnowsFrame(Earlier(p, s), Earlier(q, t), s, t, s.syncs[k]);
    }
  }

  lemma {:induction false} LoopKeepsPast(p: Past, s: State, pair: CurrencyPair, e: LoopStep)
    requires Core(s) && PastInv(p, s) && LoopEnabled(s, pair, e) && Onward(s, ApplyLoop(s, pair, e))
    requires e.Reads? && p.restarted ==> pair in p.synced
    ensures PastInv(p, ApplyLoop(s, pair, e))
  {
    var t := ApplyLoop(s, pair, e);
    if e.Reads? {
      ReadsAwaitNoneEarlier(p, s, pair, e.list);
    } else {
      PastFrame(p, p, s, t);
    }
  }

  lemma ReadsAwaitNoneEarlier(p: Past, s: State, pair: CurrencyPair, list: seq<PositionId>)
    requires Core(s) && PastInv(p, s) && LoopEnabled(s, pair, Reads(list)) && (p.restarted ==> pair in p.synced)
    ensures NoneAwaited(p, ApplyLoop(s, pair, Reads(list)))
  {
    forall id | id in list ensures id !in Earlier(p, s) {
      assert id in s.rows && s.rows[id].info.pair == pair && s.rows[id].exit.status == OPEN;
    }
  }

  lemma {:induction false} SagaKeepsPast(p: Past, s: State, pair: CurrencyPair, e: SagaStep)
    requires Core(s) && PastInv(p, s) && SagaEnabled(s, pair, e) && Onward(s, ApplySaga(s, pair, e))
    ensures PastInv(Remembered(p, s, Executing(pair, e)), ApplySaga(s, pair, e))
  {
    var q, t := Remembered(p, s, Executing(pair, e)), ApplySaga(s, pair, e);
    SagaFootprint(s, pair, e);
    SagaAcceptance(p, s, pair, e);
    SagaAwaitsLess(s, pair, e);
    PastFrame(p, q, s, t);
  }

  /** What the broker accepts is noted in both accounts, so nothing becomes an earlier process's. */
  lemma {:induction false} SagaAcceptance(p: Past, s: State, pair: CurrencyPair, e: SagaStep)
    requires PastFits(p, s) && SagaEnabled(s, pair, e)
    ensures var q, t := Remembered(p, s, Executing(pair, e)), ApplySaga(s, pair, e);
            PastFits(q, t) && Earlier(q, t) <= Earlier(p, s) && q.synced == p.synced
  {
  }

  lemma {:induction false} SagaAwaitsLess(s: State, pair: CurrencyPair, e: SagaStep)
    requires SagaEnabled(s, pair, e)
    ensures AwaitsLess(s, ApplySaga(s, pair, e))
  {
    SagaFootprint(s, pair, e);
  }

  lemma {:induction false} SyncKeepsPast(p: Past, s: State, k: nat, e: SyncStep)
    requires Core(s) && SyncsAreSound(s) && PastInv(p, s) && SyncEnabled(s, k, e) && Onward(s, ApplySync(s, k, e))
    ensures PastInv(Remembered(p, s, Syncing(k, e)), ApplySync(s, k, e))
  {
    SyncFootprint(s, k, e);
    SyncKeepsClosed(p, s, k, e);
    SyncsStillKnow(p, s, k, e);
    SyncMovesNoExit(p, s, k, e);
  }

  lemma {:induction false} SyncMovesNoExit(p: Past, s: State, k: nat, e: SyncStep)
    requires PastFits(p, s) && NoneAwaited(p, s) && SyncEnabled(s, k, e)
    ensures PastFits(Remembered(p, s, Syncing(k, e)), ApplySync(s, k, e))
    ensures NoneAwaited(Remembered(p, s, Syncing(k, e)), ApplySync(s, k, e))
  {
    SyncFootprint(s, k, e);
  }

  lemma {:induction false} SyncKeepsClosed(p: Past, s: State, k: nat, e: SyncStep)
    requires Core(s) && SyncsAreSound(s) && PastInv(p, s) && SyncEnabled(s, k, e) && Onward(s, ApplySync(s, k, e))
    ensures SyncedAreClosed(Remembered(p, s, Syncing(k, e)), ApplySync(s, k, e))
  {
    if e.Completes? {
      CompletionClosesPair(p, s, k);
    } else {
      SyncFootprint(s, k, e);
      SameExits(s, k, e);
      ClosedFrame(p, p, s, ApplySync(s, k, e));
    }
  }

  lemma {:induction false} SameExits(s: State, k: nat, e: SyncStep)
    requires SyncEnabled(s, k, e)
    ensures ApplySync(s, k, e).ours == s.ours && ApplySync(s, k, e).accepted == s.accepted
  {
  }

  lemma CompletionClosesPair(p: Past, s: State, k: nat)
    requires SyncsAreSound(s) && SyncedAreClosed(p, s) && SyncsKnow(p, s) && SyncEnabled(s, k, Completes)
    ensures SyncedAreClosed(p.(synced := p.synced + {s.syncs[k].pair}), ApplySync(s, k, Completes))
  {
    CompletedKnowsAllClosed(p, s, k);
  }

  lemma {:induction false} SyncsStillKnow(p: Past, s: State, k: nat, e: SyncStep)
    requires Core(s) && PastInv(p, s) && SyncEnabled(s, k, e) && Onward(s, ApplySync(s, k, e))
    ensures SyncsKnow(Remembered(p, s, Syncing(k, e)), ApplySync(s, k, e))
  {
    var q, t := Remembered(p, s, Syncing(k, e)), ApplySync(s, k, e);
    SameExits(s, k, e);
    forall j | j in t.syncs ensures SyncKnows(Earlier(q, t), t, t.syncs[j]) {
      if j == k { OwnSyncKnows(p, s, k, e); } else { KnowsFrame(Earlier(p, s), Earlier(q, t), s, t, s.syncs[j]); }
    }
  }

  /** A sync that is done has left CLOSED all it knew gone. */
  lemma CompletedKnowsAllClosed(p: Past, s: State, k: nat)
    requires SyncsAreSound(s) && SyncsKnow(p, s) && SyncEnabled(s, k, Completes)
    ensures forall id :: id in Earlier(p, s) && id in s.rows && s.rows[id].info.pair == s.syncs[k].pair ==>
              s.rows[id].exit.status == CLOSED
  {
    assert SyncIsSound(s, s.syncs[k]) && SyncKnows(Earlier(p, s), s, s.syncs[k]);
  }

  lemma {:induction false} OwnSyncKnows(p: Past, s: State, k: nat, e: SyncStep)
    requires Core(s) && PastFits(p, s) && SyncsKnow(p, s) && SyncEnabled(s, k, e) && Onward(s, ApplySync(s, k, e))
    requires k in ApplySync(s, k, e).syncs
    ensures SyncKnows(Earlier(p, s), ApplySync(s, k, e), ApplySync(s, k, e).syncs[k])
  {
    if !e.ReadsTable? {
      assert SyncKnows(Earlier(p, s), s, s.syncs[k]);
    }
  }

  /** Steps that move no sync, no dispatch and no exit of the saga's. */
  lemma BesidePast(p: Past, s: State, t: State)
    requires Core(s) && PastInv(p, s) && Onward(s, t)
    requires t.ours == s.ours && t.syncs == s.syncs && AwaitsLess(s, t)
    ensures PastInv(p, t)
  {
    forall id | id in p.sagaAccepted ensures id in t.accepted.Keys {
      assert id in s.accepted;
    }
    PastFrame(p, p, s, t);
  }

  lemma {:induction false} EntryKeepsPast(p: Past, s: State, id: PositionId, e: EntryStep)
    requires Core(s) && PastInv(p, s) && EntryEnabled(s, id, e) && Onward(s, ApplyEntry(s, id, e))
    ensures PastInv(p, ApplyEntry(s, id, e))
  {
    EntryFootprint(s, id, e);
    BesidePast(p, s, ApplyEntry(s, id, e));
  }

  lemma {:induction false} DrainKeepsPast(p: Past, s: State, e: DrainStep)
    requires Core(s) && PastInv(p, s) && DrainEnabled(s, e) && Onward(s, ApplyDrain(s, e))
    ensures PastInv(p, ApplyDrain(s, e))
  {
    DrainFootprint(s, e);
    BesidePast(p, s, ApplyDrain(s, e));
  }

  lemma {:induction false} EmergencyKeepsPast(p: Past, s: State, e: EmergencyStep)
    requires Core(s) && PastInv(p, s) && EmergencyEnabled(s, e) && Onward(s, ApplyEmergency(s, e))
    ensures PastInv(p, ApplyEmergency(s, e))
  {
    EmergencyFootprint(s, e);
    BesidePast(p, s, ApplyEmergency(s, e));
  }

  lemma RestartKeepsPast(p: Past, s: State)
    requires Core(s) && PastInv(p, s)
    ensures PastInv(Remembered(p, s, Restarts), Restarted(s))
  {
  }

  lemma {:induction false} StepKeepsPast(p: Past, s: State, l: Label)
    requires Core(s) && SyncsAreSound(s) && PastInv(p, s) && Enabled(s, l) && Onward(s, Apply(s, l))
    requires l.Dispatching? && l.loop.Reads? && p.restarted ==> l.pair in p.synced
    ensures PastInv(Remembered(p, s, l), Apply(s, l))
  {
    match l
    case Entry(id, e) => EntryKeepsPast(p, s, id, e);
    case Dispatching(pair, e) => LoopKeepsPast(p, s, pair, e);
    case Executing(pair, e) => SagaKeepsPast(p, s, pair, e);
    case Compensating(e) => DrainKeepsPast(p, s, e);
    case Syncing(k, e) => SyncKeepsPast(p, s, k, e);
    case Emergency(e) => EmergencyKeepsPast(p, s, e);
    case ClosedElsewhere(id) => BesidePast(p, s, Apply(s, l));
    case Restarts => RestartKeepsPast(p, s);
  }

  // ---------------------------------------------------------------- Runs

  lemma {:induction false} RunKeepsPast(p: Past, s: State, run: seq<Label>)
    requires Inv(s) && PastInv(p, s) && NothingDrainedAhead(s)
    requires CanRun(s, run) && Quiet(s, run) && SyncsFirst(p, s, run)
    ensures PastInv(PastOf(p, s, run), After(s, run)) && NothingDrainedAhead(After(s, run))
    decreases |run|
  {
    if run == [] {
    } else {
      StepKeeps(s, run[0]);
      StepOnward(s, run[0]);
      StepKeepsPast(p, s, run[0]);
      QuietStep(s, run[0]);
      RunKeepsPast(Remembered(p, s, run[0]), Apply(s, run[0]), run[1..]);
    }
  }

  /**
   Across restarts: over quiet runs in which a sync of the pair completes after each restart before a
   dispatch of the pair reads, no exit order is ever sent for a position whose exit the saga got
   accepted in any process, however many table writes fail and whatever the restart lost.
   */
  lemma {:induction false} NoSecondOrderAcrossRestarts(run: seq<Label>, pair: CurrencyPair, extremes: Extremes)
    requires CanRun(START, run) && Quiet(START, run) && SyncsFirst(NOTHING, START, run)
    requires Enabled(After(START, run), Executing(pair, Orders(extremes)))
    ensures After(START, run).dispatches[pair].saga.id !in PastOf(NOTHING, START, run).sagaAccepted
  {
    StartHolds();
    RunKeepsPast(NOTHING, START, run);
    NoSecondOrderInQuietRuns(run, pair, extremes);
    var s := After(START, run);
    assert AwaitsNone(s.dispatches[pair], Earlier(PastOf(NOTHING, START, run), s));
    assert Awaits(s.dispatches[pair], s.dispatches[pair].saga.id);
  }
}
