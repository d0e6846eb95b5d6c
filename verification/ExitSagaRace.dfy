/**
 Three ways to a second exit order for a position, each a concrete run: its compensation completes
 between a dispatch's read and its loop; the process restarts and dispatches without a sync; the
 emergency close got the exit accepted and its table write failed.
 */
module ExitSagaRace {
  import opened Outcomes
  import opened PositionStore
  import opened ExitSaga
  import opened ExitSagaTheorems

  const USDJPY := CurrencyPair("USD", "JPY")
  const INFO := EntryInfo(USDJPY, BUY, 100, 150.0, 0, "SMA_CROSS")
  const FILL := Fill(151.0, 100.0, 2, "TAKE_PROFIT", "target")
  const EXTREMES := Extremes(151.0, 150.0)

  function AcceptedExit(): Exit {
    Closing(WithExtremes(INFO, NOT_EXITED, EXTREMES), FILL)
  }

  /** Open at the broker and in the table, nothing under way. */
  ghost predicate Opened(s: State) {
    && s.dispatches == map[] && s.queue == Q.EMPTY
    && s.rows == map[1 := Row(INFO, NOT_EXITED)] && s.live == {1} && s.emergency == map[]
  }

  ghost predicate ExitOrdered(s: State) {
    && s.dispatches == map[USDJPY := Dispatch([], Ordered(1, WithExtremes(INFO, NOT_EXITED, EXTREMES)), {})]
    && s.queue == Q.EMPTY
    && s.rows == map[1 := Row(INFO, NOT_EXITED)] && s.live == {1}
  }

  /** The state right after a dispatch whose table write failed. */
  ghost predicate Ghosted(s: State) {
    && s.dispatches == map[]
    && s.queue == Q.Queue(map[1 := Q.Entry(Q.UpdateKind(AcceptedExit()), 0)], None)
    && s.rows == map[1 := Row(INFO, NOT_EXITED)]
    && 1 in s.ours
  }

  lemma {:induction false} OpenedRun() returns (run: seq<Label>)
    ensures CanRun(START, run) && Opened(After(START, run))
  {
    run := [];
    run := Then(run, Entry(1, Fills(INFO)));
    run := Then(run, Entry(1, Registers));
  }

  /** Nothing stands in the way of the next dispatch looking at the position. */
  ghost predicate Idle(s: State) {
    s.dispatches == map[] && s.queue == Q.EMPTY && s.rows == map[1 := Row(INFO, NOT_EXITED)]
  }

  lemma {:induction false} ReadingRun(before: seq<Label>) returns (run: seq<Label>)
    requires CanRun(START, before) && Idle(After(START, before))
    ensures CanRun(START, run)
    ensures After(START, run) == After(START, before).(dispatches := map[USDJPY := Dispatch([1], NoSaga, {})])
  {
    run := Then(before, Dispatching(USDJPY, Reads([1])));
  }

  lemma {:induction false} FiringRun(before: seq<Label>) returns (run: seq<Label>)
    requires CanRun(START, before) && Idle(After(START, before))
    ensures CanRun(START, run)
    ensures After(START, run) == After(START, before).(dispatches := map[USDJPY := Dispatch([], Finding(1), {})])
  {
    run := ReadingRun(before);
    var open: seq<PositionId> := [1];
    assert open[0] == 1 && open[1..] == [];
    run := Then(run, Dispatching(USDJPY, Fires));
  }

  lemma {:induction false} OrderedRun() returns (run: seq<Label>)
    ensures CanRun(START, run) && ExitOrdered(After(START, run))
  {
    run := OpenedRun();
    run := FiringRun(run);
    run := Then(run, Executing(USDJPY, Orders(EXTREMES)));
  }

  /** The broker has closed it and the table write is about to be tried. */
  ghost predicate Storing(s: State) {
    && s.dispatches == map[USDJPY := Dispatch([], Updating(1, AcceptedExit(), false), {})]
    && s.queue == Q.EMPTY
    && s.rows == map[1 := Row(INFO, NOT_EXITED)]
    && 1 in s.ours && 1 in s.accepted
  }

  lemma {:induction false} StoringRun() returns (run: seq<Label>)
    ensures CanRun(START, run) && Storing(After(START, run))
  {
    run := OrderedRun();
    run := Then(run, Executing(USDJPY, IsAccepted(FILL)));
    run := Then(run, Executing(USDJPY, Closes));
  }

  lemma {:induction false} FailedWriteRun() returns (run: seq<Label>)
    ensures CanRun(START, run) && Ghosted(After(START, run))
  {
    run := StoringRun();
    run := Then(run, Executing(USDJPY, UpdateThrows));
    run := Then(run, Executing(USDJPY, Notified));
    run := Then(run, Dispatching(USDJPY, Ends));
  }

  lemma {:induction false} Then(run: seq<Label>, l: Label) returns (longer: seq<Label>)
    requires CanRun(START, run) && Enabled(After(START, run), l)
    ensures CanRun(START, longer) && After(START, longer) == Apply(After(START, run), l)
  {
    RunExtends(START, run, l);
    longer := run + [l];
  }

  function Retry(): seq<Q.Todo> {
    [Q.Todo(1, Q.UpdateKind(AcceptedExit()))]
  }

  /** The drain has begun, and a dispatch has read the position as still OPEN. */
  ghost predicate ReadDuringDrain(s: State) {
    && s.dispatches == map[USDJPY := Dispatch([1], NoSaga, {})]
    && s.queue == Q.Queue(map[1 := Q.Entry(Q.UpdateKind(AcceptedExit()), 0)], Some(Retry())) && !s.drainWritten
    && s.rows == map[1 := Row(INFO, NOT_EXITED)]
    && 1 in s.ours
  }

  lemma {:induction false} ReadDuringDrainRun() returns (run: seq<Label>)
    ensures CanRun(START, run) && ReadDuringDrain(After(START, run))
  {
    run := FailedWriteRun();
    var todo := Retry();
    assert todo[0].id == 1 && 1 in After(START, run).queue.entries;
    run := Then(run, Compensating(Begins(todo)));
    run := Then(run, Dispatching(USDJPY, Reads([1])));
  }

  lemma {:induction false} RetryWrittenRun() returns (run: seq<Label>)
    ensures CanRun(START, run)
    ensures var s := After(START, run);
            && s.dispatches == map[USDJPY := Dispatch([1], NoSaga, {})] && s.drainWritten
            && s.queue == Q.Queue(map[1 := Q.Entry(Q.UpdateKind(AcceptedExit()), 0)], Some(Retry()))
            && 1 in s.ours && 1 in s.rows
  {
    run := ReadDuringDrainRun();
    assert Retry()[0].id == 1;
    run := Then(run, Compensating(Writes(3)));
  }

  lemma {:induction false} ShieldDownRun() returns (run: seq<Label>)
    ensures CanRun(START, run)
    ensures var s := After(START, run);
            && s.queue.entries == map[] && s.dispatches == map[USDJPY := Dispatch([1], NoSaga, {1})]
            && 1 in s.ours && 1 in s.rows
  {
    run := RetryWrittenRun();
    assert Retry()[0].id == 1;
    run := Then(run, Compensating(Succeeds));
    var s := After(START, run);
    assert s.dispatches[USDJPY].drained == {1};
    assert s.queue.entries == map[1 := Q.Entry(Q.UpdateKind(AcceptedExit()), 0)] - {1};
  }

  /** A second exit order for an accepted position, in a run whose drain is not quiet. */
  lemma {:induction false} DrainBetweenReadAndLoopAllowsASecondOrder()
    ensures exists run :: CanRun(START, run) && Enabled(After(START, run), Executing(USDJPY, Orders(EXTREMES)))
                          && After(START, run).dispatches[USDJPY].saga.id in After(START, run).ours
  {
    var run := ShieldDownRun();
    run := Then(run, Dispatching(USDJPY, Fires));
    assert Enabled(After(START, run), Executing(USDJPY, Orders(EXTREMES)));
  }

  /** A second exit order after a restart in the middle of the table write, with no sync and no drain. */
  lemma {:induction false} RestartWithoutSyncAllowsASecondOrder()
    ensures exists run :: CanRun(START, run) && Enabled(After(START, run), Executing(USDJPY, Orders(EXTREMES)))
                          && After(START, run).dispatches == map[USDJPY := Dispatch([], Finding(1), {})]
                          && 1 in After(START, run).accepted
  {
    var run := StoringRun();
    run := Then(run, Restarts);
    run := FiringRun(run);
    assert Enabled(After(START, run), Executing(USDJPY, Orders(EXTREMES)));
  }

  /** A second exit order after an emergency close whose table write failed. */
  lemma {:induction false} FailedEmergencyWriteAllowsASecondOrder()
    ensures exists run :: CanRun(START, run) && Enabled(After(START, run), Executing(USDJPY, Orders(EXTREMES)))
                          && After(START, run).dispatches == map[USDJPY := Dispatch([], Finding(1), {})]
                          && 1 in After(START, run).accepted
  {
    var run := OpenedRun();
    run := Then(run, Emergency(ReadsAll));
    run := Then(run, Emergency(EmergencyStep.Closed(1, FILL)));
    run := Then(run, Emergency(Settles(1)));
    run := FiringRun(run);
    assert Enabled(After(START, run), Executing(USDJPY, Orders(EXTREMES)));
  }
}
