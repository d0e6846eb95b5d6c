/**
 The live session's routing of market data: one snapshot is processed at a time, what arrives
 meanwhile is coalesced to the latest, and the kill-switch ends it. A step runs from one await
 to the next; snapshots may arrive, and the session may be stopped, between any two.
 */
module TradingSession {
  import opened Outcomes

  /** The session's fields. Snapshots are named by the order of their arrival. */
  datatype Flags = Flags(processing: bool, pending: Option<nat>, stopped: bool)

  datatype Reception = Ignored | Coalesced | Processes

  /** `onMarketData` up to its first await. */
  function ReceptionOf(f: Flags, ofThisPair: bool): Reception {
    if f.stopped || !ofThisPair then Ignored else if f.processing then Coalesced else Processes
  }

  function Received(f: Flags, snapshot: nat, ofThisPair: bool): Flags {
    match ReceptionOf(f, ofThisPair)
    case Ignored => f
    case Coalesced => f.(pending := Some(snapshot))
    case Processes => f.(processing := true)
  }

  /** After one snapshot: the pending one is next unless the session has been stopped. */
  function NextOf(f: Flags): Option<nat> {
    if f.stopped then None else f.pending
  }

  function Continued(f: Flags): Flags {
    if NextOf(f).Some? then f.(pending := None) else f.(processing := false, pending := None)
  }

  class TradingSession {
    var processing: bool
    var pending: Option<nat>
    var stopped: bool

    function State(): Flags
      reads this
    {
      Flags(processing, pending, stopped)
    }

    constructor ()
      ensures State() == Flags(false, None, false)
    {
      processing, pending, stopped := false, None, false;
    }

    /** True when the caller goes on to process the snapshot. */
    method OnMarketData(snapshot: nat, ofThisPair: bool) returns (processes: bool)
      modifies this
      ensures State() == Received(old(State()), snapshot, ofThisPair)
      ensures processes <==> !old(stopped) && ofThisPair && !old(processing)
      ensures stopped == old(stopped) && processing == (old(processing) || processes)
      ensures pending == if !stopped && ofThisPair && !processes then Some(snapshot) else old(pending)
      ensures processes <==> ReceptionOf(old(State()), ofThisPair) == Processes
    {
      if stopped { return false; }
      if !ofThisPair { return false; }
      if processing {
        pending := Some(snapshot);
        return false;
      }
      processing := true;
      processes := true;
    }

    /** The loop head after a snapshot was processed or threw. */
    method TakePending() returns (next: Option<nat>)
      modifies this
      ensures State() == Continued(old(State())) && next == NextOf(old(State()))
      ensures next == (if old(stopped) then None else old(pending)) && pending == None
      ensures stopped == old(stopped) && processing == (old(processing) && next.Some?)
    {
      if pending.Some? && !stopped {
        next := pending;
        pending := None;
        return;
      }
      processing := false;
      pending := None;
      next := None;
    }

    /** Idempotent. */
    method Stop()
      modifies this`stopped
      ensures stopped
    {
      stopped := true;
    }
  }

  // ---------------------------------------------------------------- Runs

  /** Where the processing of one snapshot stands: the await it is at. */
  datatype Stage = UpdatingExtremes | Dispatching | Stopping | Reporting | HandlingSignals

  datatype Invocation = Invocation(snapshot: nat, stage: Stage)

  /** `arrived` counts the snapshots of the session's pair that came before it was stopped; `started`,
      `dispatched` and `evaluated` are the snapshots whose processing, exit dispatch and entry
      evaluation began, in order. */
  datatype State = State(flags: Flags, invocations: map<nat, Invocation>, arrived: nat, started: seq<nat>,
                         dispatched: seq<nat>, evaluated: seq<nat>, killed: bool)

  const START := State(Flags(false, None, false), map[], 0, [], [], [], false)

  datatype Outcome = Returns(kill: bool) | Throws

  datatype Label =
    | Arrives(ofThisPair: bool)
    | Stops
    | Resumes(invocation: nat, outcome: Outcome)

  predicate Enabled(s: State, l: Label) {
    l.Resumes? ==> l.invocation in s.invocations
  }

  function Begun(s: State, invocation: nat, snapshot: nat): State {
    s.(invocations := s.invocations[invocation := Invocation(snapshot, UpdatingExtremes)], started := s.started + [snapshot])
  }

  /** An arrival that is processed is an invocation of its own, named after its snapshot. */
  function Arrive(s: State, ofThisPair: bool): State {
    var after := s.(flags := Received(s.flags, s.arrived, ofThisPair));
    match ReceptionOf(s.flags, ofThisPair)
    case Ignored => s
    case Coalesced => after.(arrived := s.arrived + 1)
    case Processes => Begun(after.(arrived := s.arrived + 1), s.arrived, s.arrived)
  }

  function AtStage(s: State, invocation: nat, stage: Stage): State
    requires invocation in s.invocations
  {
    s.(invocations := s.invocations[invocation := s.invocations[invocation].(stage := stage)])
  }

  /** The snapshot is done with, normally or not: the invocation takes the pending one or ends. */
  function Finish(s: State, invocation: nat): State {
    var after := s.(flags := Continued(s.flags));
    if NextOf(s.flags).Some? then Begun(after, invocation, NextOf(s.flags).value)
    else after.(invocations := s.invocations - {invocation})
  }

  function Resume(s: State, invocation: nat, outcome: Outcome): State
    requires invocation in s.invocations
  {
    var i := s.invocations[invocation];
    match i.stage
    case UpdatingExtremes =>
      if outcome.Throws? then Finish(s, invocation)
      else AtStage(s, invocation, Dispatching).(dispatched := s.dispatched + [i.snapshot])
    case Dispatching =>
      if outcome.Throws? then Finish(s, invocation)
      else if outcome.kill then AtStage(s, invocation, Stopping).(flags := s.flags.(stopped := true), killed := true)
      else AtStage(s, invocation, HandlingSignals).(evaluated := s.evaluated + [i.snapshot])
    case Stopping => AtStage(s, invocation, Reporting)
    case Reporting => Finish(s, invocation)
    case HandlingSignals => Finish(s, invocation)
  }

  function Step(s: State, l: Label): State
    requires Enabled(s, l)
  {
    match l
    case Arrives(ofThisPair) => Arrive(s, ofThisPair)
    case Stops => s.(flags := s.flags.(stopped := true))
    case Resumes(invocation, outcome) => Resume(s, invocation, outcome)
  }

  ghost predicate CanRun(s: State, ls: seq<Label>)
    decreases |ls|, 0
  {
    ls == [] || (CanRun(s, ls[..|ls| - 1]) && Enabled(After(s, ls[..|ls| - 1]), ls[|ls| - 1]))
  }

  ghost function After(s: State, ls: seq<Label>): State
    requires CanRun(s, ls)
    decreases |ls|, 1
  {
    if ls == [] then s else Step(After(s, ls[..|ls| - 1]), ls[|ls| - 1])
  }

  // ---------------------------------------------------------------- What every run keeps

  predicate InArrivalOrder(xs: seq<nat>) {
    forall i, j :: 0 <= i < j < |xs| ==> xs[i] < xs[j]
  }

  predicate LastIs(xs: seq<nat>, x: nat) {
    xs != [] && xs[|xs| - 1] == x
  }

  /** Everything in `xs` is at most the last of `ys`. */
  predicate Within(xs: seq<nat>, ys: seq<nat>) {
    xs != [] ==> ys != [] && xs[|xs| - 1] <= ys[|ys| - 1]
  }

  /** Single flight: `processing` is up exactly while one invocation is inside `process`. */
  ghost predicate SingleFlight(s: State) {
    && (s.flags.processing <==> s.invocations.Keys != {})
    && (forall a, b :: a in s.invocations && b in s.invocations ==> a == b)
    && (forall a :: a in s.invocations ==> LastIs(s.started, s.invocations[a].snapshot))
  }

  /** The sequences are in order of arrival and contain nothing twice; a dispatch in progress is the
      last one begun, a snapshot not yet dispatched is not among the dispatched. */
  ghost predicate InOrder(s: State) {
    && InArrivalOrder(s.started) && InArrivalOrder(s.dispatched) && InArrivalOrder(s.evaluated)
    && Within(s.dispatched, s.started) && Within(s.evaluated, s.dispatched)
    && (s.started != [] ==> s.started[|s.started| - 1] < s.arrived)
    && forall a :: a in s.invocations ==>
         match s.invocations[a].stage
         case UpdatingExtremes => s.dispatched != [] ==> s.dispatched[|s.dispatched| - 1] < s.invocations[a].snapshot
         case Dispatching => LastIs(s.dispatched, s.invocations[a].snapshot)
                             && (s.evaluated != [] ==> s.evaluated[|s.evaluated| - 1] < s.invocations[a].snapshot)
         case _ => true
  }

  /** The latest arrival is pending or the last one begun, until the session is stopped. */
  ghost predicate LatestKept(s: State) {
    && (s.flags.pending.Some? ==> s.flags.processing && s.flags.pending.value < s.arrived
                                  && s.started != [] && s.started[|s.started| - 1] < s.flags.pending.value)
    && (!s.flags.stopped && s.arrived > 0 ==>
          if s.flags.pending.Some? then s.flags.pending.value == s.arrived - 1 else LastIs(s.started, s.arrived - 1))
  }

  ghost predicate Halted(s: State) {
    s.killed ==> s.flags.stopped && forall a :: a in s.invocations ==> s.invocations[a].stage in {Stopping, Reporting}
  }

  ghost predicate Inv(s: State) {
    SingleFlight(s) && InOrder(s) && LatestKept(s) && Halted(s)
  }

  lemma OneMore(xs: seq<nat>, x: nat)
    requires InArrivalOrder(xs) && (xs != [] ==> xs[|xs| - 1] < x)
    ensures InArrivalOrder(xs + [x])
  {
    forall i | 0 <= i < |xs| ensures xs[i] < x {
      assert xs[i] <= xs[|xs| - 1];
    }
  }

  lemma ArriveKeeps(s: State, ofThisPair: bool)
    requires Inv(s)
    ensures Inv(Arrive(s, ofThisPair))
  {
    if ReceptionOf(s.flags, ofThisPair) == Processes {
      OneMore(s.started, s.arrived);
      assert s.arrived in Arrive(s, ofThisPair).invocations;
    }
  }

  lemma FinishKeeps(s: State, invocation: nat)
    requires Inv(s) && invocation in s.invocations
    ensures Inv(Finish(s, invocation))
  {
    if NextOf(s.flags).Some? {
      OneMore(s.started, NextOf(s.flags).value);
      assert invocation in Finish(s, invocation).invocations;
    }
  }

  lemma DispatchBeginsKeeps(s: State, a: nat)
    requires Inv(s) && a in s.invocations && s.invocations[a].stage == UpdatingExtremes
    ensures var snapshot := s.invocations[a].snapshot;
            Inv(AtStage(s, a, Dispatching).(dispatched := s.dispatched + [snapshot]))
  {
    OneMore(s.dispatched, s.invocations[a].snapshot);
    assert a in AtStage(s, a, Dispatching).invocations;
  }

  lemma EvaluationBeginsKeeps(s: State, a: nat)
    requires Inv(s) && a in s.invocations && s.invocations[a].stage == Dispatching
    ensures var snapshot := s.invocations[a].snapshot;
            Inv(AtStage(s, a, HandlingSignals).(evaluated := s.evaluated + [snapshot]))
  {
    OneMore(s.evaluated, s.invocations[a].snapshot);
    assert a in AtStage(s, a, HandlingSignals).invocations;
  }

  lemma KillKeeps(s: State, a: nat)
    requires Inv(s) && a in s.invocations && s.invocations[a].stage == Dispatching
    ensures Inv(AtStage(s, a, Stopping).(flags := s.flags.(stopped := true), killed := true))
  {
    assert a in AtStage(s, a, Stopping).invocations;
  }

  lemma ReportKeeps(s: State, a: nat)
    requires Inv(s) && a in s.invocations && s.invocations[a].stage == Stopping
    ensures Inv(AtStage(s, a, Reporting))
  {
    assert a in AtStage(s, a, Reporting).invocations;
  }

  lemma ResumeKeeps(s: State, invocation: nat, outcome: Outcome)
    requires Inv(s) && invocation in s.invocations
    ensures Inv(Resume(s, invocation, outcome))
  {
    match s.invocations[invocation].stage
    case UpdatingExtremes =>
      if outcome.Throws? { FinishKeeps(s, invocation); } else { DispatchBeginsKeeps(s, invocation); }
    case Dispatching =>
      if outcome.Throws? { FinishKeeps(s, invocation); }
      else if outcome.kill { KillKeeps(s, invocation); }
      else { EvaluationBeginsKeeps(s, invocation); }
    case Stopping => ReportKeeps(s, invocation);
    case Reporting => FinishKeeps(s, invocation);
    case HandlingSignals => FinishKeeps(s, invocation);
  }

  lemma {:induction false} RunKeeps(ls: seq<Label>)
    requires CanRun(START, ls)
    ensures Inv(After(START, ls))
  {
    if ls != [] {
      var init, l := ls[..|ls| - 1], ls[|ls| - 1];
      RunKeeps(init);
      var s := After(START, init);
      match l
      case Arrives(ofThisPair) => ArriveKeeps(s, ofThisPair);
      case Stops =>
      case Resumes(invocation, outcome) => ResumeKeeps(s, invocation, outcome);
    }
  }

  /** At most one snapshot is in processing at any moment, whatever arrives, returns or throws. */
  lemma ProcessingIsSingleFlight(ls: seq<Label>, a: nat, b: nat)
    requires CanRun(START, ls) && a in After(START, ls).invocations && b in After(START, ls).invocations
    ensures a == b && After(START, ls).flags.processing
  {
    RunKeeps(ls);
  }

  /** What is processed is in order of arrival, nothing twice; so are dispatches and entry evaluations. */
  lemma ProcessedInOrderOfArrival(ls: seq<Label>)
    requires CanRun(START, ls)
    ensures var s := After(START, ls);
            && InArrivalOrder(s.started) && InArrivalOrder(s.dispatched) && InArrivalOrder(s.evaluated)
            && forall i :: 0 <= i < |s.started| ==> s.started[i] < s.arrived
  {
    RunKeeps(ls);
    AllBelow(After(START, ls).started, After(START, ls).arrived);
  }

  lemma AllBelow(xs: seq<nat>, n: nat)
    requires InArrivalOrder(xs) && (xs != [] ==> xs[|xs| - 1] < n)
    ensures forall i :: 0 <= i < |xs| ==> xs[i] < n
  {
    forall i | 0 <= i < |xs| ensures xs[i] < n {
      assert xs[i] <= xs[|xs| - 1];
    }
  }

  /** No lost latest: an idle session that is not stopped has processed the last snapshot that arrived,
      even if processing an earlier one threw. */
  lemma LatestIsProcessed(ls: seq<Label>)
    requires CanRun(START, ls)
    ensures var s := After(START, ls);
            !s.flags.processing && !s.flags.stopped && s.arrived > 0 ==> LastIs(s.started, s.arrived - 1)
  {
    RunKeeps(ls);
  }

  // ---------------------------------------------------------------- What follows what

  /** The step is the return, without an error, of what invocation and snapshot awaited at that stage. */
  predicate ReturnsFrom(s: State, l: Label, stage: Stage) {
    l.Resumes? && l.outcome.Returns? && l.invocation in s.invocations && s.invocations[l.invocation].stage == stage
  }

  /** History: how many snapshots of the session's pair came before it was stopped. */
  ghost function ArrivalsOf(ls: seq<Label>): nat
    requires CanRun(START, ls)
  {
    if ls == [] then 0
    else
      var init, l := ls[..|ls| - 1], ls[|ls| - 1];
      ArrivalsOf(init) + if l.Arrives? && l.ofThisPair && !After(START, init).flags.stopped then 1 else 0
  }

  /** None of them is overlooked; and one that finds the session idle is processed at once. */
  lemma {:induction false} ArrivalsAreNoticed(ls: seq<Label>)
    requires CanRun(START, ls)
    ensures After(START, ls).arrived == ArrivalsOf(ls)
    ensures ls != [] && ls[|ls| - 1] == Arrives(true) ==>
              var s, n := After(START, ls[..|ls| - 1]), After(START, ls);
              !s.flags.stopped && !s.flags.processing ==> n.started == s.started + [s.arrived]
  {
    if ls != [] { ArrivalsAreNoticed(ls[..|ls| - 1]); }
  }

  /** History: the snapshots whose extremes update returned, in order. */
  ghost function Updated(ls: seq<Label>): seq<nat>
    requires CanRun(START, ls)
  {
    if ls == [] then []
    else
      var init, l := ls[..|ls| - 1], ls[|ls| - 1];
      var s := After(START, init);
      Updated(init) + if ReturnsFrom(s, l, UpdatingExtremes) then [s.invocations[l.invocation].snapshot] else []
  }

  /** History: the snapshots whose dispatch returned with no reason to halt, in order. */
  ghost function Passed(ls: seq<Label>): seq<nat>
    requires CanRun(START, ls)
  {
    if ls == [] then []
    else
      var init, l := ls[..|ls| - 1], ls[|ls| - 1];
      var s := After(START, init);
      Passed(init)
        + if ReturnsFrom(s, l, Dispatching) && !l.outcome.kill then [s.invocations[l.invocation].snapshot] else []
  }

  /** History: some dispatch returned with a reason to halt. */
  ghost predicate HaltAsked(ls: seq<Label>)
    requires CanRun(START, ls)
  {
    ls != [] && (HaltAsked(ls[..|ls| - 1])
                 || (ReturnsFrom(After(START, ls[..|ls| - 1]), ls[|ls| - 1], Dispatching) && ls[|ls| - 1].outcome.kill))
  }

  /**
   The order of a snapshot's processing, over every run: its exits are dispatched exactly when its extremes have
   been updated, an entry evaluation begins exactly when its dispatch has returned with no reason to halt, and
   the session is killed exactly when one returned with a reason.
   */
  lemma {:induction false} EachStageFollows(ls: seq<Label>)
    requires CanRun(START, ls)
    ensures After(START, ls).dispatched == Updated(ls)
    ensures After(START, ls).evaluated == Passed(ls)
    ensures After(START, ls).killed <==> HaltAsked(ls)
  {
    if ls != [] {
      var init := ls[..|ls| - 1];
      EachStageFollows(init);
      StepFollows(After(START, init), ls[|ls| - 1]);
    }
  }

  lemma StepFollows(s: State, l: Label)
    requires Enabled(s, l)
    ensures var n := Step(s, l);
            && n.dispatched == s.dispatched
                 + (if ReturnsFrom(s, l, UpdatingExtremes) then [s.invocations[l.invocation].snapshot] else [])
            && n.evaluated == s.evaluated
                 + (if ReturnsFrom(s, l, Dispatching) && !l.outcome.kill then [s.invocations[l.invocation].snapshot] else [])
            && (n.killed <==> s.killed || (ReturnsFrom(s, l, Dispatching) && l.outcome.kill))
  {
  }

  // ---------------------------------------------------------------- After a stop

  predicate Extends(before: State, after: State) {
    && (before.flags.stopped ==> after.flags.stopped && after.started == before.started)
    && (before.killed ==> after.killed && after.dispatched == before.dispatched && after.evaluated == before.evaluated)
  }

  lemma StepIsFinal(s: State, l: Label)
    requires Inv(s) && Enabled(s, l)
    ensures Extends(s, Step(s, l))
  {
  }

  lemma {:induction false} StopIsFinal(ls: seq<Label>, n: nat)
    requires CanRun(START, ls) && n <= |ls| && CanRun(START, ls[..n])
    ensures Extends(After(START, ls[..n]), After(START, ls))
    decreases |ls|
  {
    if n == |ls| {
      assert ls[..n] == ls;
    } else {
      var init := ls[..|ls| - 1];
      assert init[..n] == ls[..n];
      StopIsFinal(init, n);
      RunKeeps(init);
      StepIsFinal(After(START, init), ls[|ls| - 1]);
    }
  }

  /**
   After the kill-switch has fired no dispatch and no entry evaluation ever begins; after any stop no
   further snapshot is taken into processing.
   */
  lemma NothingAfterKill(ls: seq<Label>, n: nat)
    requires CanRun(START, ls) && n <= |ls| && CanRun(START, ls[..n])
    ensures var earlier, now := After(START, ls[..n]), After(START, ls);
            && (earlier.flags.stopped ==> now.started == earlier.started)
            && (earlier.killed ==> now.dispatched == earlier.dispatched && now.evaluated == earlier.evaluated)
  {
    StopIsFinal(ls, n);
  }
}
