/**
 The session and its circuit breaker together: what a dispatch returns to the session is what the
 breaker counted in it.
 */
module SessionHalt {
  import opened ExitBreaker
  import opened PositionStore
  import Session = TradingSession

  /** A step of the session; a dispatch that returns brings what it met at each open position. */
  datatype Label =
    | Other(step: Session.Label)
    | DispatchReturns(invocation: nat, visits: seq<Visit>)

  /** `dispatches` are the dispatches that have returned, in order. A dispatch that throws could not read
      the open positions and has not reached the breaker. */
  datatype State = State(session: Session.State, dispatches: seq<seq<Visit>>)

  const START := State(Session.START, [])

  predicate IsDispatching(s: Session.State, invocation: nat) {
    invocation in s.invocations && s.invocations[invocation].stage.Dispatching?
  }

  predicate Enabled(s: State, l: Label) {
    match l
    case Other(step) =>
      Session.Enabled(s.session, step)
      && !(step.Resumes? && step.outcome.Returns? && IsDispatching(s.session, step.invocation))
    case DispatchReturns(invocation, visits) => IsDispatching(s.session, invocation) && VisitedOnce(visits)
  }

  /** The session's own step: after a dispatch it asks the breaker whether to halt. */
  function SessionStep(s: State, cooldown: nat, threshold: nat, l: Label): Session.Label {
    match l
    case Other(step) => step
    case DispatchReturns(invocation, visits) =>
      Session.Resumes(invocation, Session.Returns(Kills(Run(cooldown, s.dispatches + [visits]), threshold)))
  }

  function Step(s: State, cooldown: nat, threshold: nat, l: Label): State
    requires Enabled(s, l)
  {
    State(Session.Step(s.session, SessionStep(s, cooldown, threshold, l)),
          if l.DispatchReturns? then s.dispatches + [l.visits] else s.dispatches)
  }

  ghost predicate CanRun(cooldown: nat, threshold: nat, ls: seq<Label>)
    decreases |ls|, 0
  {
    ls == [] || (CanRun(cooldown, threshold, ls[..|ls| - 1])
                 && Enabled(After(cooldown, threshold, ls[..|ls| - 1]), ls[|ls| - 1]))
  }

  ghost function After(cooldown: nat, threshold: nat, ls: seq<Label>): State
    requires CanRun(cooldown, threshold, ls)
    decreases |ls|, 1
  {
    if ls == [] then START else Step(After(cooldown, threshold, ls[..|ls| - 1]), cooldown, threshold, ls[|ls| - 1])
  }

  // ---------------------------------------------------------------- A run is a run of the session

  ghost function SessionRun(cooldown: nat, threshold: nat, ls: seq<Label>): (run: seq<Session.Label>)
    requires CanRun(cooldown, threshold, ls)
    ensures |run| == |ls|
  {
    if ls == [] then []
    else
      var init := ls[..|ls| - 1];
      SessionRun(cooldown, threshold, init) + [SessionStep(After(cooldown, threshold, init), cooldown, threshold, ls[|ls| - 1])]
  }

  lemma {:induction false} RunOfTheSession(cooldown: nat, threshold: nat, ls: seq<Label>)
    requires CanRun(cooldown, threshold, ls)
    ensures var run := SessionRun(cooldown, threshold, ls);
            Session.CanRun(Session.START, run) && Session.After(Session.START, run) == After(cooldown, threshold, ls).session
  {
    if ls != [] {
      var init := ls[..|ls| - 1];
      RunOfTheSession(cooldown, threshold, init);
      var run := SessionRun(cooldown, threshold, ls);
      assert run[..|run| - 1] == SessionRun(cooldown, threshold, init);
    }
  }

  lemma {:induction false} PrefixRuns(cooldown: nat, threshold: nat, ls: seq<Label>, n: nat)
    requires CanRun(cooldown, threshold, ls) && n <= |ls|
    ensures CanRun(cooldown, threshold, ls[..n])
    ensures SessionRun(cooldown, threshold, ls[..n]) == SessionRun(cooldown, threshold, ls)[..n]
  {
    if n == |ls| {
      assert ls[..n] == ls;
    } else {
      var init := ls[..|ls| - 1];
      PrefixRuns(cooldown, threshold, init, n);
      assert init[..n] == ls[..n];
    }
  }

  // ---------------------------------------------------------------- What every run keeps

  ghost predicate NeverKilled(cooldown: nat, threshold: nat, ds: seq<seq<Visit>>) {
    forall k :: 0 <= k <= |ds| ==> !Kills(Run(cooldown, ds[..k]), threshold)
  }

  /** The session is killed exactly at the first dispatch after which the breaker asks for it. */
  ghost predicate Inv(s: State, cooldown: nat, threshold: nat) {
    && AllVisitedOnce(s.dispatches)
    && (if s.session.killed then HaltsAt(cooldown, threshold, s.dispatches)
        else NeverKilled(cooldown, threshold, s.dispatches))
  }

  lemma ReturnKeeps(ds: seq<seq<Visit>>, cooldown: nat, threshold: nat, visits: seq<Visit>)
    requires AllVisitedOnce(ds) && NeverKilled(cooldown, threshold, ds) && VisitedOnce(visits)
    ensures var now := ds + [visits];
            && AllVisitedOnce(now)
            && (if Kills(Run(cooldown, now), threshold) then HaltsAt(cooldown, threshold, now)
                else NeverKilled(cooldown, threshold, now))
  {
    var now := ds + [visits];
    forall k | 0 <= k < |now| ensures !Kills(Run(cooldown, now[..k]), threshold) {
      assert now[..k] == ds[..k];
    }
    assert now[..|now|] == now;
  }

  /** Nothing but a returning dispatch kills. */
  lemma KilledByReturn(s: State, cooldown: nat, threshold: nat, l: Label)
    requires Enabled(s, l)
    ensures l.Other? ==> Step(s, cooldown, threshold, l).session.killed == s.session.killed
    ensures l.DispatchReturns? && !s.session.killed ==>
              (Step(s, cooldown, threshold, l).session.killed <==> Kills(Run(cooldown, s.dispatches + [l.visits]), threshold))
  {
  }

  lemma StepKeeps(s: State, cooldown: nat, threshold: nat, l: Label)
    requires Inv(s, cooldown, threshold) && Enabled(s, l) && (l.DispatchReturns? ==> !s.session.killed)
    ensures Inv(Step(s, cooldown, threshold, l), cooldown, threshold)
  {
    KilledByReturn(s, cooldown, threshold, l);
    if l.DispatchReturns? { ReturnKeeps(s.dispatches, cooldown, threshold, l.visits); }
  }

  lemma StartHolds(cooldown: nat, threshold: nat)
    requires threshold >= 1
    ensures Inv(START, cooldown, threshold)
  {
    assert START.dispatches[..0] == [];
  }

  lemma {:induction false} RunKeeps(cooldown: nat, threshold: nat, ls: seq<Label>)
    requires threshold >= 1 && CanRun(cooldown, threshold, ls)
    ensures Inv(After(cooldown, threshold, ls), cooldown, threshold)
  {
    if ls == [] {
      StartHolds(cooldown, threshold);
    } else {
      var init, l := ls[..|ls| - 1], ls[|ls| - 1];
      RunKeeps(cooldown, threshold, init);
      if l.DispatchReturns? { NoDispatchOnceKilled(cooldown, threshold, init, l.invocation); }
      StepKeeps(After(cooldown, threshold, init), cooldown, threshold, l);
    }
  }

  lemma NoDispatchOnceKilled(cooldown: nat, threshold: nat, ls: seq<Label>, invocation: nat)
    requires CanRun(cooldown, threshold, ls) && IsDispatching(After(cooldown, threshold, ls).session, invocation)
    ensures !After(cooldown, threshold, ls).session.killed
  {
    RunOfTheSession(cooldown, threshold, ls);
    Session.RunKeeps(SessionRun(cooldown, threshold, ls));
  }

  // ---------------------------------------------------------------- The kill-switch

  /** The failures in a row of a position, over the dispatches that have returned. */
  ghost function FailuresInARow(cooldown: nat, s: State, id: PositionId): nat {
    |FailTicks(cooldown, s.dispatches, id)|
  }

  /**
   At every moment of every run: the session is killed if and only if the failures in a row of some
   position have reached the threshold, and no position ever fails more often than that.
   */
  lemma KilledExactly(cooldown: nat, threshold: nat, ls: seq<Label>)
    requires threshold >= 1 && CanRun(cooldown, threshold, ls)
    ensures var s := After(cooldown, threshold, ls);
            && (s.session.killed <==> exists id :: FailuresInARow(cooldown, s, id) >= threshold)
            && forall id :: FailuresInARow(cooldown, s, id) <= threshold
  {
    var s := After(cooldown, threshold, ls);
    RunKeeps(cooldown, threshold, ls);
    KillsExactly(cooldown, threshold, s.dispatches);
    assert s.dispatches[..|s.dispatches|] == s.dispatches;
    if s.session.killed {
      var id := HaltBounds(cooldown, threshold, s.dispatches);
      assert FailuresInARow(cooldown, s, id) >= threshold;
      forall other ensures FailuresInARow(cooldown, s, other) <= threshold {
        assert |FailTicks(cooldown, s.dispatches, other)| <= threshold;
      }
    } else {
      forall other ensures FailuresInARow(cooldown, s, other) < threshold {
        assert !(|FailTicks(cooldown, s.dispatches, other)| >= threshold);
      }
    }
  }

  /**
   Once the failures in a row of some position have reached the threshold, the session is stopped and
   nothing more begins, whatever arrives afterwards: no snapshot is taken in, no dispatch and no entry
   evaluation begins, and none that began before is still to return.
   */
  lemma NothingBeginsAfterThreshold(cooldown: nat, threshold: nat, ls: seq<Label>, n: nat, id: PositionId)
    requires threshold >= 1 && n <= |ls| && CanRun(cooldown, threshold, ls) && CanRun(cooldown, threshold, ls[..n])
    requires FailuresInARow(cooldown, After(cooldown, threshold, ls[..n]), id) >= threshold
    ensures var earlier, now := After(cooldown, threshold, ls[..n]), After(cooldown, threshold, ls);
            && now.session.flags.stopped
            && now.session.started == earlier.session.started
            && now.session.dispatched == earlier.session.dispatched
            && now.session.evaluated == earlier.session.evaluated
            && forall invocation :: !IsDispatching(now.session, invocation)
  {
    PrefixRuns(cooldown, threshold, ls, n);
    RunOfTheSession(cooldown, threshold, ls);
    RunOfTheSession(cooldown, threshold, ls[..n]);
    KilledExactly(cooldown, threshold, ls[..n]);
    Session.RunKeeps(SessionRun(cooldown, threshold, ls));
    Session.RunKeeps(SessionRun(cooldown, threshold, ls[..n]));
    Session.NothingAfterKill(SessionRun(cooldown, threshold, ls), n);
    Session.StopIsFinal(SessionRun(cooldown, threshold, ls), n);
  }
}
