/**
 What the table shows against what the broker answered: the fills and the extremes a run has seen,
 kept as history, and the columns of every recorded row written out in them.
 */
module ExitSagaRecords {
  import opened Outcomes
  import opened PositionStore
  import opened ExitSaga
  import opened ExitSagaInvariants
  import opened ExitSagaTheorems

  /** The broker's answer to an accepted exit; the extremes its order was sent with, if the saga sent it. */
  datatype Answer = Answer(fill: Fill, extremes: Option<Extremes>)

  /** The answers by position, and the extremes of the last order of each pair. */
  datatype History = History(answers: map<PositionId, Answer>, asked: map<CurrencyPair, Extremes>)

  const NOTHING_SEEN := History(map[], map[])

  ghost function Seen(h: History, s: State, l: Label): History
    requires Enabled(s, l)
  {
    match l
    case Executing(pair, e) => SeenBySaga(h, s, pair, e)
    case Emergency(Closed(id, fill)) => h.(answers := h.answers[id := Answer(fill, None)])
    case _ => h
  }

  ghost function SeenBySaga(h: History, s: State, pair: CurrencyPair, e: SagaStep): History
    requires SagaEnabled(s, pair, e)
  {
    match e
    case Orders(extremes) => h.(asked := h.asked[pair := extremes])
    case IsAccepted(fill) =>
      h.(answers := h.answers[s.dispatches[pair].saga.id :=
           Answer(fill, if pair in h.asked then Some(h.asked[pair]) else None)])
    case _ => h
  }

  ghost function HistoryOf(h: History, s: State, run: seq<Label>): History
    requires CanRun(s, run)
    decreases |run|
  {
    if run == [] then h else HistoryOf(Seen(h, s, run[0]), Apply(s, run[0]), run[1..])
  }

  // ---------------------------------------------------------------- What a row shows

  /** Favourable and adverse excursion in pips, by side; a pip is a hundredth of a yen or a ten-thousandth. */
  predicate ShowsExtremes(info: EntryInfo, excursion: Option<Excursion>, e: Extremes) {
    && excursion.Some?
    && var pip := if info.pair.quote == "JPY" then 0.01 else 0.0001;
       if info.side == BUY
       then excursion.value.mfePips == (e.highest - info.entryPrice) / pip
            && excursion.value.maePips == (info.entryPrice - e.lowest) / pip
       else excursion.value.mfePips == (info.entryPrice - e.lowest) / pip
            && excursion.value.maePips == (e.highest - info.entryPrice) / pip
  }

  /** Every exit column is the broker's answer, or follows from the extremes of the order. */
  predicate Shows(info: EntryInfo, exit: Exit, a: Answer) {
    && exit.status == CLOSED && exit.closedAt == Some(a.fill.executedAt) && exit.fill.Some?
    && exit.fill.value.exitPrice == a.fill.exitPrice && exit.fill.value.profitLoss == a.fill.profitLoss
    && exit.fill.value.exitType == a.fill.exitType && exit.fill.value.exitReason == a.fill.exitReason
    && if a.extremes.None? then exit.excursion == None else ShowsExtremes(info, exit.excursion, a.extremes.value)
  }

  /** The copy an order was made of, while the position can still be closed. */
  ghost predicate CopyFits(h: History, s: State, pair: CurrencyPair, g: Saga) {
    g.Ordered? || g.BrokerAccepted? ==>
      && g.id in s.rows
      && (g.copy.status == OPEN ==> pair in h.asked && ShowsExtremes(s.rows[g.id].info, g.copy.excursion, h.asked[pair]))
  }

  ghost predicate CopiesFit(h: History, s: State) {
    forall pair :: pair in s.dispatches ==> CopyFits(h, s, pair, s.dispatches[pair].saga)
  }

  ghost predicate AnswersFit(h: History, s: State) {
    && h.answers.Keys == s.accepted.Keys <= s.rows.Keys
    && forall id :: id in s.accepted ==> Shows(s.rows[id].info, s.accepted[id], h.answers[id])
  }

  ghost predicate TasksFit(s: State) {
    forall id :: id in s.emergency && s.emergency[id].Placing? ==>
      s.emergency[id].copy.status == OPEN && s.emergency[id].copy.excursion == None
  }

  ghost predicate HistoryFits(h: History, s: State) {
    CopiesFit(h, s) && AnswersFit(h, s) && TasksFit(s)
  }

  // ---------------------------------------------------------------- Steps

  lemma AnswersFrame(h: History, s: State, k: History, t: State)
    requires AnswersFit(h, s) && Onward(s, t) && t.accepted == s.accepted && k.answers == h.answers
    ensures AnswersFit(k, t)
  {
    assert forall id :: id in t.accepted.Keys ==> id in t.rows.Keys;
  }

  lemma CopiesFrame(h: History, s: State, t: State)
    requires CopiesFit(h, s) && Onward(s, t)
    requires forall pair :: pair in t.dispatches ==>
               t.dispatches[pair].saga.NoSaga? || t.dispatches[pair].saga.Finding?
               || (pair in s.dispatches && t.dispatches[pair].saga == s.dispatches[pair].saga)
    ensures CopiesFit(h, t)
  {
    forall pair | pair in t.dispatches ensures CopyFits(h, t, pair, t.dispatches[pair].saga) {
      if pair in s.dispatches { assert CopyFits(h, s, pair, s.dispatches[pair].saga); }
    }
  }

  /** What an order takes over from the row: nothing when OPEN, so the excursion is that of its extremes. */
  lemma OrderedCopyFits(info: EntryInfo, row: Row, extremes: Extremes)
    requires row.info == info
    ensures var copy := WithExtremes(info, Restored(row), extremes);
            copy.status == OPEN ==> ShowsExtremes(info, copy.excursion, extremes)
  {
  }

  lemma ClosedShows(info: EntryInfo, copy: Exit, a: Answer)
    requires if a.extremes.None? then copy.excursion == None else ShowsExtremes(info, copy.excursion, a.extremes.value)
    ensures Shows(info, Closing(copy, a.fill), a)
  {
  }

  /** The broker closes a position: its exit is the answer, put into the copy the order was made of. */
  lemma AnswerAdded(h: History, s: State, t: State, id: PositionId, copy: Exit, a: Answer)
    requires AnswersFit(h, s) && id in s.rows && t.rows == s.rows
    requires t.accepted == s.accepted[id := Closing(copy, a.fill)]
    requires if a.extremes.None? then copy.excursion == None
             else ShowsExtremes(s.rows[id].info, copy.excursion, a.extremes.value)
    ensures AnswersFit(h.(answers := h.answers[id := a]), t)
  {
    ClosedShows(s.rows[id].info, copy, a);
  }

  lemma {:induction false} SagaFits(h: History, s: State, pair: CurrencyPair, e: SagaStep)
    requires HistoryFits(h, s) && Inv(s) && SagaEnabled(s, pair, e) && Onward(s, ApplySaga(s, pair, e))
    ensures HistoryFits(SeenBySaga(h, s, pair, e), ApplySaga(s, pair, e))
  {
    SagaFootprint(s, pair, e);
    SagaCopies(h, s, pair, e);
    SagaAnswers(h, s, pair, e);
    TasksFrame(s, ApplySaga(s, pair, e));
  }

  lemma TasksFrame(s: State, t: State)
    requires TasksFit(s) && (t.emergency == s.emergency || t.emergency == map[])
    ensures TasksFit(t)
  {
  }

  lemma {:induction false} SagaAnswers(h: History, s: State, pair: CurrencyPair, e: SagaStep)
    requires CopiesFit(h, s) && AnswersFit(h, s) && Inv(s) && SagaEnabled(s, pair, e) && Onward(s, ApplySaga(s, pair, e))
    ensures AnswersFit(SeenBySaga(h, s, pair, e), ApplySaga(s, pair, e))
  {
    if e.IsAccepted? {
      AcceptanceFits(h, s, pair, e.fill);
    } else {
      AcceptedStays(s, pair, e);
      AnswersFrame(h, s, SeenBySaga(h, s, pair, e), ApplySaga(s, pair, e));
    }
  }

  lemma {:induction false} AcceptedStays(s: State, pair: CurrencyPair, e: SagaStep)
    requires SagaEnabled(s, pair, e) && !e.IsAccepted?
    ensures ApplySaga(s, pair, e).accepted == s.accepted
  {
    EffectAcceptsNothing(s, s.dispatches[pair].saga, e);
  }

  lemma {:induction false} EffectAcceptsNothing(s: State, g: Saga, e: SagaStep)
    requires !e.IsAccepted? && (e.Closes? ==> g.BrokerAccepted?)
    requires e.UpdateWrites? || e.UpdateReturns? || e.UpdateThrows? ==> g.Updating?
    ensures SagaEffect(s, g, e).accepted == s.accepted
  {
  }

  lemma {:induction false} AcceptanceFits(h: History, s: State, pair: CurrencyPair, fill: Fill)
    requires CopiesFit(h, s) && AnswersFit(h, s) && DispatchesAreSound(s) && AcceptedAreClosed(s)
    requires SagaEnabled(s, pair, IsAccepted(fill))
    ensures AnswersFit(SeenBySaga(h, s, pair, IsAccepted(fill)), ApplySaga(s, pair, IsAccepted(fill)))
  {
    var g := s.dispatches[pair].saga;
    assert CopyFits(h, s, pair, g);
    OpenWhileLive(s, pair);
    AnswerAdded(h, s, ApplySaga(s, pair, IsAccepted(fill)), g.id, g.copy,
                Answer(fill, if pair in h.asked then Some(h.asked[pair]) else None));
  }

  /** An order the broker can still accept was made of an OPEN row. */
  lemma {:induction false} OpenWhileLive(s: State, pair: CurrencyPair)
    requires DispatchesAreSound(s) && pair in s.dispatches && s.dispatches[pair].saga.Ordered?
    requires s.dispatches[pair].saga.id in s.live
    ensures s.dispatches[pair].saga.copy.status == OPEN
  {
    assert DispatchIsSound(s, pair);
  }

  lemma {:induction false} SagaCopies(h: History, s: State, pair: CurrencyPair, e: SagaStep)
    requires CopiesFit(h, s) && SagaEnabled(s, pair, e) && Onward(s, ApplySaga(s, pair, e))
    requires OnlySagaMoves(s, ApplySaga(s, pair, e), pair)
    ensures CopiesFit(SeenBySaga(h, s, pair, e), ApplySaga(s, pair, e))
  {
    var t, k := ApplySaga(s, pair, e), SeenBySaga(h, s, pair, e);
    OwnCopyFits(h, s, pair, e);
    forall other | other in t.dispatches && other != pair ensures CopyFits(k, t, other, t.dispatches[other].saga) {
      assert CopyFits(h, s, other, s.dispatches[other].saga);
    }
  }

  lemma {:induction false} OwnCopyFits(h: History, s: State, pair: CurrencyPair, e: SagaStep)
    requires SagaEnabled(s, pair, e) && CopyFits(h, s, pair, s.dispatches[pair].saga)
    ensures var t := ApplySaga(s, pair, e); CopyFits(SeenBySaga(h, s, pair, e), t, pair, t.dispatches[pair].saga)
  {
    var g := s.dispatches[pair].saga;
    match e
    case Orders(extremes) => OrderedCopyFits(s.rows[g.id].info, s.rows[g.id], extremes);
    case _ =>
  }

  lemma {:induction false} EmergencyFits(h: History, s: State, e: EmergencyStep)
    requires HistoryFits(h, s) && Inv(s) && EmergencyEnabled(s, e) && Onward(s, ApplyEmergency(s, e))
    ensures HistoryFits(Seen(h, s, Emergency(e)), ApplyEmergency(s, e))
  {
    EmergencyBeside(s, e);
    EmergencyCopies(h, s, e);
    EmergencyAnswers(h, s, e);
    EmergencyTasks(s, e);
  }

  lemma {:induction false} EmergencyCopies(h: History, s: State, e: EmergencyStep)
    requires CopiesFit(h, s) && EmergencyEnabled(s, e) && Onward(s, ApplyEmergency(s, e))
    requires ApplyEmergency(s, e).dispatches == s.dispatches
    ensures CopiesFit(Seen(h, s, Emergency(e)), ApplyEmergency(s, e))
  {
    var t, k := ApplyEmergency(s, e), Seen(h, s, Emergency(e));
    forall pair | pair in t.dispatches ensures CopyFits(k, t, pair, t.dispatches[pair].saga) {
      assert CopyFits(h, s, pair, s.dispatches[pair].saga);
    }
  }

  lemma {:induction false} EmergencyAnswers(h: History, s: State, e: EmergencyStep)
    requires AnswersFit(h, s) && TasksFit(s) && EmergencyIsSound(s) && EmergencyEnabled(s, e)
    requires Onward(s, ApplyEmergency(s, e))
    ensures AnswersFit(Seen(h, s, Emergency(e)), ApplyEmergency(s, e))
  {
    match e
    case Closed(id, fill) => AnswerAdded(h, s, ApplyEmergency(s, e), id, s.emergency[id].copy, Answer(fill, None));
    case _ => AnswersFrame(h, s, h, ApplyEmergency(s, e));
  }

  lemma {:induction false} EmergencyTasks(s: State, e: EmergencyStep)
    requires TasksFit(s) && EmergencyEnabled(s, e)
    ensures TasksFit(ApplyEmergency(s, e))
  {
  }

  lemma {:induction false} DrainDispatches(s: State, e: DrainStep)
    requires DrainEnabled(s, e)
    ensures var t := ApplyDrain(s, e);
            && t.accepted == s.accepted && t.emergency == s.emergency
            && t.dispatches.Keys == s.dispatches.Keys
            && forall pair :: pair in s.dispatches ==> t.dispatches[pair].saga == s.dispatches[pair].saga
  {
  }

  lemma {:induction false} LoopDispatches(s: State, pair: CurrencyPair, e: LoopStep)
    requires LoopEnabled(s, pair, e)
    ensures var t := ApplyLoop(s, pair, e);
            && t.accepted == s.accepted && t.emergency == s.emergency
            && forall other :: other in t.dispatches ==>
                 t.dispatches[other].saga.NoSaga? || t.dispatches[other].saga.Finding?
                 || (other in s.dispatches && t.dispatches[other].saga == s.dispatches[other].saga)
  {
  }

  lemma {:induction false} SyncDispatches(s: State, k: nat, e: SyncStep)
    requires SyncEnabled(s, k, e)
    ensures var t := ApplySync(s, k, e);
            t.accepted == s.accepted && t.emergency == s.emergency && t.dispatches == s.dispatches
  {
  }

  lemma {:induction false} StepFits(h: History, s: State, l: Label)
    requires HistoryFits(h, s) && Inv(s) && Enabled(s, l) && Onward(s, Apply(s, l))
    ensures HistoryFits(Seen(h, s, l), Apply(s, l))
  {
    match l
    case Executing(pair, e) => SagaFits(h, s, pair, e);
    case Emergency(e) => EmergencyFits(h, s, e);
    case _ => OthersFit(h, s, l);
  }

  lemma {:induction false} OthersFit(h: History, s: State, l: Label)
    requires HistoryFits(h, s) && Enabled(s, l) && !l.Executing? && !l.Emergency? && Onward(s, Apply(s, l))
    ensures HistoryFits(h, Apply(s, l))
  {
    OthersBeside(s, l);
    AnswersFrame(h, s, h, Apply(s, l));
    CopiesFrame(h, s, Apply(s, l));
    TasksFrame(s, Apply(s, l));
  }

  /** Nobody else touches what has been accepted, or a saga at the broker. */
  lemma {:induction false} OthersBeside(s: State, l: Label)
    requires Enabled(s, l) && !l.Executing? && !l.Emergency?
    ensures var t := Apply(s, l);
            && t.accepted == s.accepted && (t.emergency == s.emergency || t.emergency == map[])
            && forall other :: other in t.dispatches ==>
                 t.dispatches[other].saga.NoSaga? || t.dispatches[other].saga.Finding?
                 || (other in s.dispatches && t.dispatches[other].saga == s.dispatches[other].saga)
  {
    match l
    case Entry(id, e) => EntryBeside(s, id, e);
    case Dispatching(pair, e) => LoopDispatches(s, pair, e);
    case Compensating(e) => DrainDispatches(s, e);
    case Syncing(k, e) => SyncDispatches(s, k, e);
    case ClosedElsewhere(_) =>
    case Restarts =>
  }

  lemma {:induction false} RunFits(h: History, s: State, run: seq<Label>)
    requires HistoryFits(h, s) && Inv(s) && CanRun(s, run)
    ensures HistoryFits(HistoryOf(h, s, run), After(s, run)) && Inv(After(s, run))
    decreases |run|
  {
    if run != [] {
      StepKeeps(s, run[0]);
      StepOnward(s, run[0]);
      StepFits(h, s, run[0]);
      RunFits(Seen(h, s, run[0]), Apply(s, run[0]), run[1..]);
    }
  }

  /**
   In every reachable state, whoever wrote it and whatever failed on the way: a row that shows a fill shows
   the very answer the broker gave when it closed that position, column by column, with the excursion that
   follows from the extremes its order was sent with. So does every entry waiting in the queue.
   */
  lemma {:induction false} RecordedIsWhatTheBrokerAnswered(run: seq<Label>, id: PositionId)
    requires CanRun(START, run)
    ensures var s, h := After(START, run), HistoryOf(NOTHING_SEEN, START, run);
            && (id in s.rows && s.rows[id].exit.fill.Some? ==>
                  id in h.answers && Shows(s.rows[id].info, s.rows[id].exit, h.answers[id]))
            && (id in s.queue.entries ==>
                  id in h.answers && id in s.rows && s.queue.entries[id].kind.UpdateKind?
                  && Shows(s.rows[id].info, s.queue.entries[id].kind.exit, h.answers[id]))
  {
    StartHolds();
    RunFits(NOTHING_SEEN, START, run);
    var s := After(START, run);
    assert id in s.rows && s.rows[id].exit.fill.Some? ==> Recorded(s, id);
  }
}
