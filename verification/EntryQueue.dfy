/**
 The queue between a signal and its order: first in first out, one placement at a time, stale
 signals dropped, everything left dropped at shutdown. A step runs from one await to the next.
 */
module EntryQueue {
  import opened Outcomes

  /** A queued command: when it was submitted and the margin it will need, in yen. */
  datatype Item = Item(submittedAt: int, requiredMargin: int)

  function Reserved(queue: seq<Item>): int {
    if queue == [] then 0 else Reserved(queue[..|queue| - 1]) + queue[|queue| - 1].requiredMargin
  }

  // ---------------------------------------------------------------- The step system

  /** What became of a command that left the queue, with its age when it left. */
  datatype Fate = Placing(age: int) | Placed(age: int) | Failed(age: int) | Expired(age: int) | Dropped

  /** A drain in progress, by the await it is at; `Settled` once its own work is over. */
  datatype Drain = AtBroker(index: nat) | Notifying | Settled

  /** A `stop()` in progress: waiting for drain number `drain`, dropping, or over. */
  datatype Stop = WaitsFor(drain: nat) | Drops(drain: nat) | Resolved(drain: nat)

  /** `accepted` is every command ever taken in; the first `|fates|` of them have left the queue.
      `drains` numbers the drains. */
  datatype State = State(accepted: seq<Item>, queue: seq<Item>, fates: seq<Fate>, timer: bool, stopped: bool,
                         drain: Option<Drain>, drains: nat, stops: map<nat, Stop>)

  const START := State([], [], [], false, false, None, 0, map[])

  datatype Label =
    | Enqueues(item: Item)
    | StartsTimer
    | StartsDrain(byTimer: bool, now: int)
    | PlacementReturns(ok: bool)
    | NotificationReturns
    | DrainReturns
    | CallsStop(stop: nat)
    | StopResumes(stop: nat)

  predicate Enabled(s: State, l: Label) {
    match l
    case Enqueues(_) => true
    case StartsTimer => true
    case StartsDrain(byTimer, _) => s.drain.None? && s.queue != [] && (byTimer ==> s.timer)
    case PlacementReturns(_) => s.drain.Some? && s.drain.value.AtBroker? && s.drain.value.index < |s.fates|
                                && s.fates[s.drain.value.index].Placing?
    case NotificationReturns => s.drain == Some(Notifying)
    case DrainReturns => s.drain == Some(Settled)
    case CallsStop(stop) => stop !in s.stops
    case StopResumes(stop) => stop in s.stops && CanResume(s, s.stops[stop])
  }

  /** A stop that waits goes on once the drain it found is over. */
  predicate CanResume(s: State, stop: Stop) {
    match stop
    case WaitsFor(drain) => s.drains > drain || s.drain == None || s.drain == Some(Settled)
    case Drops(_) => true
    case Resolved(_) => false
  }

  /** The head leaves the queue with the given fate. */
  function Shifted(s: State, fate: Fate): State
    requires s.queue != []
  {
    s.(queue := s.queue[1..], fates := s.fates + [fate])
  }

  function DrainStarted(s: State, ttl: int, now: int): State
    requires s.queue != []
  {
    var age := now - s.queue[0].submittedAt;
    if age > ttl then Shifted(s, Expired(age)).(drain := Some(Notifying), drains := s.drains + 1)
    else Shifted(s, Placing(age)).(drain := Some(AtBroker(|s.fates|)), drains := s.drains + 1)
  }

  function PlacementDone(s: State, ok: bool): State
    requires Enabled(s, PlacementReturns(ok))
  {
    var i := s.drain.value.index;
    var age := s.fates[i].age;
    if ok then s.(fates := s.fates[i := Placed(age)], drain := Some(Settled))
    else s.(fates := s.fates[i := Failed(age)], drain := Some(Notifying))
  }

  /** The shutdown loop up to its next await: one command dropped, or the stop is over. */
  function DropLoop(s: State, stop: nat, drain: nat): State {
    if s.queue == [] then s.(stops := s.stops[stop := Resolved(drain)])
    else Shifted(s, Dropped).(stops := s.stops[stop := Drops(drain)])
  }

  function Stopping(s: State, stop: nat): State {
    var halted := s.(stopped := true, timer := false);
    if s.drain.Some? then halted.(stops := s.stops[stop := WaitsFor(s.drains)]) else DropLoop(halted, stop, s.drains)
  }

  function Step(s: State, ttl: int, l: Label): State
    requires Enabled(s, l)
  {
    match l
    case Enqueues(item) => if s.stopped then s else s.(accepted := s.accepted + [item], queue := s.queue + [item])
    case StartsTimer => s.(timer := true)
    case StartsDrain(_, now) => DrainStarted(s, ttl, now)
    case PlacementReturns(ok) => PlacementDone(s, ok)
    case NotificationReturns => s.(drain := Some(Settled))
    case DrainReturns => s.(drain := None)
    case CallsStop(stop) => Stopping(s, stop)
    case StopResumes(stop) => DropLoop(s, stop, s.stops[stop].drain)
  }

  // ---------------------------------------------------------------- The mutable object

  class EntryQueue {
    var queue: seq<Item>
    var stopped: bool
    var draining: bool
    var timer: bool
    const ttlMs: int
    /** Where the step system stands: the fields, what became of earlier commands, who awaits what. */
    ghost var model: State

    ghost predicate Valid()
      reads this
    {
      && queue == model.queue && stopped == model.stopped && timer == model.timer
      && (draining <==> model.drain.Some?)
    }

    constructor (ttlMs: int)
      ensures this.ttlMs == ttlMs && Valid() && model == START
    {
      this.ttlMs, queue, stopped, draining, timer, model := ttlMs, [], false, false, false, START;
    }

    method Start()
      requires Valid()
      modifies this
      ensures Valid() && model == Step(old(model), ttlMs, StartsTimer)
    {
      timer := true;
      model := Step(model, ttlMs, StartsTimer);
    }

    /** Ignored after a stop. */
    method Enqueue(item: Item)
      requires Valid()
      modifies this
      ensures Valid() && model == Step(old(model), ttlMs, Enqueues(item))
      ensures queue == if stopped then old(queue) else old(queue) + [item]
    {
      model := Step(model, ttlMs, Enqueues(item));
      if stopped { return; }
      queue := queue + [item];
    }

    /** The first segment of a drain: the head leaves the queue; Some(true) when it is to be placed,
        Some(false) when it is too old, None when there is nothing to do. */
    method BeginDrain(ghost byTimer: bool, now: int) returns (place: Option<bool>)
      requires Valid() && (byTimer ==> timer)
      modifies this
      ensures Valid()
      ensures if Enabled(old(model), StartsDrain(byTimer, now))
              then model == Step(old(model), ttlMs, StartsDrain(byTimer, now)) && place == Some(model.drain.value.AtBroker?)
              else model == old(model) && place == None
      ensures place.Some? <==> !old(draining) && old(queue) != []
      ensures place.Some? ==> draining && queue == old(queue)[1..]
                              && place.value == (now - old(queue)[0].submittedAt <= ttlMs)
    {
      if draining { return None; }
      if |queue| == 0 { return None; }
      draining := true;
      var head := queue[0];
      queue := queue[1..];
      model := Step(model, ttlMs, StartsDrain(byTimer, now));
      var age := now - head.submittedAt;
      place := Some(!(age > ttlMs));
    }

    /** After the broker call: only a failure is notified. */
    method PlacementReturned(ok: bool) returns (notifies: bool)
      requires Valid() && Enabled(model, PlacementReturns(ok))
      modifies this
      ensures Valid() && model == Step(old(model), ttlMs, PlacementReturns(ok))
      ensures notifies <==> model.drain == Some(Notifying)
    {
      model := Step(model, ttlMs, PlacementReturns(ok));
      notifies := !ok;
    }

    /** The `finally` of a drain whose own work is over. */
    method EndDrain()
      requires Valid() && Enabled(model, DrainReturns)
      modifies this
      ensures Valid() && model == Step(old(model), ttlMs, DrainReturns)
    {
      model := Step(model, ttlMs, DrainReturns);
      draining := false;
    }

    /** The first segment of a stop, up to its wait for the drain in progress or its first notification. */
    method BeginStop(ghost stop: nat) returns (waits: bool, dropped: Option<Item>)
      requires Valid() && Enabled(model, CallsStop(stop))
      modifies this
      ensures Valid() && model == Step(old(model), ttlMs, CallsStop(stop))
      ensures waits <==> model.stops[stop].WaitsFor?
      ensures dropped.Some? <==> model.stops[stop].Drops?
    {
      stopped, timer := true, false;
      if draining {
        model := Step(model, ttlMs, CallsStop(stop));
        return true, None;
      }
      ghost var drain := model.drains;
      model := model.(stopped := true, timer := false);
      waits := false;
      dropped := DropNext(stop, drain);
    }

    /** A stop goes on after its wait or a notification. */
    method ResumeStop(ghost stop: nat) returns (dropped: Option<Item>)
      requires Valid() && Enabled(model, StopResumes(stop))
      modifies this
      ensures Valid() && model == Step(old(model), ttlMs, StopResumes(stop))
      ensures dropped.Some? <==> model.stops[stop].Drops?
    {
      dropped := DropNext(stop, model.stops[stop].drain);
    }

    /** One round of the shutdown loop. */
    method DropNext(ghost stop: nat, ghost drain: nat) returns (dropped: Option<Item>)
      requires Valid()
      modifies this
      ensures Valid() && model == DropLoop(old(model), stop, drain)
      ensures dropped == if old(queue) == [] then None else Some(old(queue)[0])
    {
      model := DropLoop(model, stop, drain);
      if |queue| == 0 { return None; }
      dropped := Some(queue[0]);
      queue := queue[1..];
    }

    method ReservedMargin() returns (sum: int)
      ensures sum == Reserved(queue)
    {
      sum := 0;
      for i := 0 to |queue|
        invariant sum == Reserved(queue[..i])
      {
        assert queue[..i + 1][..i] == queue[..i];
        sum := sum + queue[i].requiredMargin;
      }
      assert queue[..|queue|] == queue;
    }
  }

  // ---------------------------------------------------------------- Runs

  ghost predicate CanRun(s: State, ttl: int, ls: seq<Label>)
    decreases |ls|, 0
  {
    ls == [] || (CanRun(s, ttl, ls[..|ls| - 1]) && Enabled(After(s, ttl, ls[..|ls| - 1]), ls[|ls| - 1]))
  }

  ghost function After(s: State, ttl: int, ls: seq<Label>): State
    requires CanRun(s, ttl, ls)
    decreases |ls|, 1
  {
    if ls == [] then s else Step(After(s, ttl, ls[..|ls| - 1]), ttl, ls[|ls| - 1])
  }

  // ---------------------------------------------------------------- What every run keeps

  /** Every accepted command is queued or has exactly one fate, in the order of acceptance. */
  predicate Accounted(s: State) {
    |s.fates| <= |s.accepted| && s.queue == s.accepted[|s.fates|..]
  }

  /** One placement at most: the one of the drain in progress. */
  predicate OneAtBroker(s: State) {
    && (s.drain.Some? && s.drain.value.AtBroker? ==>
          s.drain.value.index < |s.fates| && s.fates[s.drain.value.index].Placing?)
    && forall i :: 0 <= i < |s.fates| && s.fates[i].Placing? ==> s.drain == Some(AtBroker(i))
  }

  predicate FateFits(f: Fate, ttl: int) {
    match f
    case Expired(age) => age > ttl
    case Dropped => true
    case _ => f.age <= ttl
  }

  predicate AgesFit(s: State, ttl: int) {
    forall i :: 0 <= i < |s.fates| ==> FateFits(s.fates[i], ttl)
  }

  /** A stop under way has closed the queue; past its wait, the drain it found is over; once over, the
      queue is empty. */
  predicate StopFits(s: State, stop: Stop) {
    && s.stopped && stop.drain <= s.drains
    && (!stop.WaitsFor? && stop.drain == s.drains ==> s.drain.None? || s.drain == Some(Settled))
    && (stop.Resolved? ==> s.queue == [])
  }

  ghost predicate Inv(s: State, ttl: int) {
    && Accounted(s) && OneAtBroker(s) && AgesFit(s, ttl)
    && forall k :: k in s.stops ==> StopFits(s, s.stops[k])
  }

  lemma DrainKeeps(s: State, ttl: int, now: int)
    requires Inv(s, ttl) && s.drain.None? && s.queue != []
    ensures Inv(DrainStarted(s, ttl, now), ttl)
  {
    assert s.accepted[|s.fates|..][1..] == s.accepted[|s.fates| + 1..];
  }

  lemma DropKeeps(s: State, ttl: int, stop: nat, drain: nat)
    requires Inv(s, ttl) && s.stopped && drain <= s.drains
    requires drain == s.drains ==> s.drain.None? || s.drain == Some(Settled)
    ensures Inv(DropLoop(s, stop, drain), ttl)
  {
    if s.queue != [] {
      assert s.accepted[|s.fates|..][1..] == s.accepted[|s.fates| + 1..];
    }
  }

  lemma StepKeeps(s: State, ttl: int, l: Label)
    requires Inv(s, ttl) && Enabled(s, l)
    ensures Inv(Step(s, ttl, l), ttl)
  {
    match l
    case Enqueues(item) =>
      assert (s.accepted + [item])[|s.fates|..] == s.accepted[|s.fates|..] + [item];
    case StartsDrain(_, now) => DrainKeeps(s, ttl, now);
    case CallsStop(stop) =>
      if s.drain.None? { DropKeeps(s.(stopped := true, timer := false), ttl, stop, s.drains); }
    case StopResumes(stop) => DropKeeps(s, ttl, stop, s.stops[stop].drain);
    case _ =>
  }

  lemma {:induction false} RunKeeps(ttl: int, ls: seq<Label>)
    requires CanRun(START, ttl, ls)
    ensures Inv(After(START, ttl, ls), ttl)
  {
    if ls != [] {
      RunKeeps(ttl, ls[..|ls| - 1]);
      StepKeeps(After(START, ttl, ls[..|ls| - 1]), ttl, ls[|ls| - 1]);
    }
  }

  /**
   Nothing is lost, duplicated or reordered: at every moment the accepted commands are, in order, those
   with a fate followed by those queued; at most one is at the broker; a command is at the broker or got
   there only if its age when it left the queue was within the limit, and expired only if it was not.
   */
  lemma EveryCommandIsAccountedFor(ttl: int, ls: seq<Label>)
    requires CanRun(START, ttl, ls)
    ensures var s := After(START, ttl, ls);
            && |s.accepted| == |s.fates| + |s.queue| && s.queue == s.accepted[|s.fates|..]
            && (forall i, j :: 0 <= i < |s.fates| && 0 <= j < |s.fates| && s.fates[i].Placing? && s.fates[j].Placing? ==> i == j)
            && forall i :: 0 <= i < |s.fates| ==> FateFits(s.fates[i], ttl)
  {
    RunKeeps(ttl, ls);
  }

  // ---------------------------------------------------------------- What became of each command

  /** History: when each command left the queue, in order; None when a stop dropped it. */
  ghost function TimesOf(ttl: int, ls: seq<Label>): seq<Option<int>>
    requires CanRun(START, ttl, ls)
  {
    if ls == [] then []
    else
      var init, l := ls[..|ls| - 1], ls[|ls| - 1];
      TimesOf(ttl, init) + Leaving(After(START, ttl, init), l)
  }

  function Leaving(s: State, l: Label): seq<Option<int>> {
    match l
    case StartsDrain(_, now) => [Some(now)]
    case CallsStop(_) => if s.drain.None? && s.queue != [] then [None] else []
    case StopResumes(_) => if s.queue != [] then [None] else []
    case _ => []
  }

  /** History: what the broker call of a command came to, by its number. */
  ghost function AnswersOf(ttl: int, ls: seq<Label>): map<nat, bool>
    requires CanRun(START, ttl, ls)
  {
    if ls == [] then map[]
    else
      var init, l := ls[..|ls| - 1], ls[|ls| - 1];
      if l.PlacementReturns? then AnswersOf(ttl, init)[After(START, ttl, init).drain.value.index := l.ok]
      else AnswersOf(ttl, init)
  }

  predicate HasStop(ls: seq<Label>) {
    exists k :: 0 <= k < |ls| && ls[k].CallsStop?
  }

  /** History: what was submitted while no stop had been called, in order. */
  function SubmittedOf(ls: seq<Label>): seq<Item> {
    if ls == [] then []
    else
      var init, l := ls[..|ls| - 1], ls[|ls| - 1];
      SubmittedOf(init) + if l.Enqueues? && !HasStop(init) then [l.item] else []
  }

  lemma StepAccepts(s: State, ttl: int, l: Label)
    requires Enabled(s, l)
    ensures Step(s, ttl, l).accepted == s.accepted + if l.Enqueues? && !s.stopped then [l.item] else []
    ensures Step(s, ttl, l).stopped <==> s.stopped || l.CallsStop?
  {
  }

  /** Every command submitted before the first stop is accepted, in order, and no other. */
  lemma {:induction false} AcceptedAreSubmitted(ttl: int, ls: seq<Label>)
    requires CanRun(START, ttl, ls)
    ensures After(START, ttl, ls).accepted == SubmittedOf(ls)
    ensures After(START, ttl, ls).stopped <==> HasStop(ls)
  {
    if ls != [] {
      var init, l := ls[..|ls| - 1], ls[|ls| - 1];
      AcceptedAreSubmitted(ttl, init);
      StepAccepts(After(START, ttl, init), ttl, l);
      assert HasStop(ls) <==> HasStop(init) || l.CallsStop? by { assert ls == init + [l]; }
    }
  }

  /** The fate of a command from when it was submitted, when it left the queue, and what the broker answered. */
  function FateOf(submittedAt: int, left: Option<int>, answer: Option<bool>, ttl: int): Fate {
    if left.None? then Dropped
    else
      var age := left.value - submittedAt;
      if age > ttl then Expired(age)
      else if answer.None? then Placing(age)
      else if answer.value then Placed(age)
      else Failed(age)
  }

  ghost predicate FateFitsAt(s: State, ttl: int, times: seq<Option<int>>, answers: map<nat, bool>, i: nat)
    requires i < |s.fates| == |times| <= |s.accepted|
  {
    s.fates[i] == FateOf(s.accepted[i].submittedAt, times[i], if i in answers then Some(answers[i]) else None, ttl)
  }

  ghost predicate FatesFit(s: State, ttl: int, times: seq<Option<int>>, answers: map<nat, bool>) {
    && |times| == |s.fates| <= |s.accepted| && (forall i :: i in answers ==> i < |s.fates|)
    && forall i :: 0 <= i < |s.fates| ==> FateFitsAt(s, ttl, times, answers, i)
  }

  /** One more command leaves the queue. */
  lemma FateAdded(s: State, ttl: int, times: seq<Option<int>>, answers: map<nat, bool>, left: Option<int>, n: State)
    requires FatesFit(s, ttl, times, answers) && |s.fates| < |s.accepted| && n.accepted == s.accepted
    requires n.fates == s.fates + [FateOf(s.accepted[|s.fates|].submittedAt, left, None, ttl)]
    ensures FatesFit(n, ttl, times + [left], answers)
  {
    forall i | 0 <= i < |n.fates| ensures FateFitsAt(n, ttl, times + [left], answers, i) {
      if i < |s.fates| { assert FateFitsAt(s, ttl, times, answers, i); }
    }
  }

  lemma FatesStay(s: State, ttl: int, times: seq<Option<int>>, answers: map<nat, bool>, n: State)
    requires FatesFit(s, ttl, times, answers) && n.fates == s.fates && s.accepted <= n.accepted
    ensures FatesFit(n, ttl, times + [], answers)
  {
    assert times + [] == times;
    forall i | 0 <= i < |n.fates| ensures FateFitsAt(n, ttl, times, answers, i) {
      assert FateFitsAt(s, ttl, times, answers, i);
    }
  }

  lemma PlacementFatesFit(s: State, ttl: int, ok: bool, times: seq<Option<int>>, answers: map<nat, bool>)
    requires Inv(s, ttl) && Enabled(s, PlacementReturns(ok)) && FatesFit(s, ttl, times, answers)
    ensures FatesFit(PlacementDone(s, ok), ttl, times, answers[s.drain.value.index := ok])
  {
    var n, now := PlacementDone(s, ok), answers[s.drain.value.index := ok];
    forall i | 0 <= i < |n.fates| ensures FateFitsAt(n, ttl, times, now, i) {
      assert FateFitsAt(s, ttl, times, answers, i);
    }
  }

  lemma StepFatesFit(s: State, ttl: int, l: Label, times: seq<Option<int>>, answers: map<nat, bool>)
    requires Inv(s, ttl) && Enabled(s, l) && FatesFit(s, ttl, times, answers)
    ensures FatesFit(Step(s, ttl, l), ttl, times + Leaving(s, l),
                     if l.PlacementReturns? then answers[s.drain.value.index := l.ok] else answers)
  {
    var n := Step(s, ttl, l);
    if s.queue != [] { assert s.queue[0] == s.accepted[|s.fates|]; }
    if l.PlacementReturns? {
      PlacementFatesFit(s, ttl, l.ok, times, answers);
      assert times + [] == times;
    } else if Leaving(s, l) == [] {
      FatesStay(s, ttl, times, answers, n);
    } else {
      FateAdded(s, ttl, times, answers, Leaving(s, l)[0], n);
    }
  }

  /**
   What became of every command that left the queue, and why: dropped by a stop, expired, at the broker, placed
   or failed, by its age when it left and by what the broker answered, over every run.
   */
  lemma {:induction false} FatesAreWhatHappened(ttl: int, ls: seq<Label>)
    requires CanRun(START, ttl, ls)
    ensures FatesFit(After(START, ttl, ls), ttl, TimesOf(ttl, ls), AnswersOf(ttl, ls))
  {
    if ls != [] {
      var init := ls[..|ls| - 1];
      FatesAreWhatHappened(ttl, init);
      RunKeeps(ttl, init);
      StepFatesFit(After(START, ttl, init), ttl, ls[|ls| - 1], TimesOf(ttl, init), AnswersOf(ttl, init));
    }
  }

  /** Nothing is reserved for nothing, and each command adds its own margin. */
  lemma ReservedGrows(xs: seq<Item>, x: Item)
    ensures Reserved([]) == 0 && Reserved(xs + [x]) == Reserved(xs) + x.requiredMargin
  {
    assert (xs + [x])[..|xs|] == xs;
  }

  lemma {:induction false} ReservedSplits(xs: seq<Item>, ys: seq<Item>)
    ensures Reserved(xs + ys) == Reserved(xs) + Reserved(ys)
  {
    if ys == [] {
      assert xs + ys == xs;
    } else {
      ReservedSplits(xs, ys[..|ys| - 1]);
      assert (xs + ys)[..|xs + ys| - 1] == xs + ys[..|ys| - 1];
    }
  }

  /** The margin reserved is that of everything accepted less what has left the queue. */
  lemma ReservedIsWhatIsQueued(ttl: int, ls: seq<Label>)
    requires CanRun(START, ttl, ls)
    ensures var s := After(START, ttl, ls);
            |s.fates| <= |s.accepted|
            && Reserved(s.queue) == Reserved(s.accepted) - Reserved(s.accepted[..|s.fates|])
  {
    RunKeeps(ttl, ls);
    var s := After(START, ttl, ls);
    ReservedSplits(s.accepted[..|s.fates|], s.accepted[|s.fates|..]);
    assert s.accepted == s.accepted[..|s.fates|] + s.accepted[|s.fates|..];
  }

  // ---------------------------------------------------------------- After a stop

  /** Once a stop has been called nothing is accepted any more and no fate is undone. */
  predicate StaysStopped(before: State, after: State) {
    && (before.stopped ==> after.stopped && after.accepted == before.accepted)
    && |before.fates| <= |after.fates|
    && forall i :: 0 <= i < |before.fates| && !before.fates[i].Placing? ==> after.fates[i] == before.fates[i]
  }

  lemma StepStaysStopped(s: State, ttl: int, l: Label)
    requires Inv(s, ttl) && Enabled(s, l)
    ensures StaysStopped(s, Step(s, ttl, l))
  {
  }

  lemma {:induction false} FatesAreFinal(ttl: int, ls: seq<Label>, n: nat)
    requires n <= |ls| && CanRun(START, ttl, ls) && CanRun(START, ttl, ls[..n])
    ensures StaysStopped(After(START, ttl, ls[..n]), After(START, ttl, ls))
  {
    if n == |ls| {
      assert ls[..n] == ls;
    } else {
      var init := ls[..|ls| - 1];
      assert init[..n] == ls[..n];
      FatesAreFinal(ttl, init, n);
      RunKeeps(ttl, init);
      StepStaysStopped(After(START, ttl, init), ttl, ls[|ls| - 1]);
    }
  }

  lemma StepKeepsResolved(s: State, ttl: int, l: Label, stop: nat)
    requires Enabled(s, l) && stop in s.stops && s.stops[stop].Resolved?
    ensures stop in Step(s, ttl, l).stops && Step(s, ttl, l).stops[stop] == s.stops[stop]
  {
  }

  lemma {:induction false} ResolvedStays(ttl: int, ls: seq<Label>, n: nat, stop: nat)
    requires n <= |ls| && CanRun(START, ttl, ls) && CanRun(START, ttl, ls[..n])
    requires stop in After(START, ttl, ls[..n]).stops && After(START, ttl, ls[..n]).stops[stop].Resolved?
    ensures stop in After(START, ttl, ls).stops
            && After(START, ttl, ls).stops[stop] == After(START, ttl, ls[..n]).stops[stop]
  {
    if n == |ls| {
      assert ls[..n] == ls;
    } else {
      var init := ls[..|ls| - 1];
      assert init[..n] == ls[..n];
      ResolvedStays(ttl, init, n, stop);
      StepKeepsResolved(After(START, ttl, init), ttl, ls[|ls| - 1], stop);
    }
  }

  /**
   When a `stop()` has resolved, and ever after: the queue is empty, the drain it found running is
   over, no command leaves the queue any more, and no drain, by timer or otherwise, can start.
   */
  lemma StopLeavesNothing(ttl: int, ls: seq<Label>, n: nat, stop: nat)
    requires n <= |ls| && CanRun(START, ttl, ls) && CanRun(START, ttl, ls[..n])
    requires stop in After(START, ttl, ls[..n]).stops && After(START, ttl, ls[..n]).stops[stop].Resolved?
    ensures var resolved, now := After(START, ttl, ls[..n]), After(START, ttl, ls);
            && now.queue == [] && |now.fates| == |resolved.fates|
            && (now.drain.Some? && !now.drain.value.Settled? ==> now.drains > resolved.stops[stop].drain)
            && forall byTimer, time :: !Enabled(now, StartsDrain(byTimer, time))
  {
    RunKeeps(ttl, ls);
    RunKeeps(ttl, ls[..n]);
    ResolvedStays(ttl, ls, n, stop);
    FatesAreFinal(ttl, ls, n);
    var resolved, now := After(START, ttl, ls[..n]), After(START, ttl, ls);
    assert StopFits(resolved, resolved.stops[stop]) && StopFits(now, now.stops[stop]);
  }

  /** What the session's wiring does after a stop: drains are only the timer's, and it stays off. */
  predicate OnlyTimerDrains(l: Label) {
    l.StartsDrain? ==> l.byTimer
  }

  predicate TimerStaysOff(ls: seq<Label>, n: nat) {
    forall i :: n <= i < |ls| ==> OnlyTimerDrains(ls[i]) && !ls[i].StartsTimer?
  }

  /** No drain has started since the stop was called. */
  predicate NoDrainSince(s: State, stop: nat) {
    !s.timer && stop in s.stops && s.stops[stop].drain == s.drains
  }

  lemma StepStartsNoDrain(s: State, ttl: int, l: Label, stop: nat)
    requires Enabled(s, l) && NoDrainSince(s, stop) && OnlyTimerDrains(l) && !l.StartsTimer?
    ensures NoDrainSince(Step(s, ttl, l), stop)
  {
  }

  lemma {:induction false} NoDrainAfterStop(ttl: int, ls: seq<Label>, n: nat, stop: nat)
    requires 0 < n <= |ls| && ls[n - 1] == CallsStop(stop) && TimerStaysOff(ls, n) && CanRun(START, ttl, ls)
    ensures NoDrainSince(After(START, ttl, ls), stop)
  {
    if n < |ls| {
      var init := ls[..|ls| - 1];
      NoDrainAfterStop(ttl, init, n, stop);
      StepStartsNoDrain(After(START, ttl, init), ttl, ls[|ls| - 1], stop);
    }
  }

  /**
   When the drains after the call of a `stop()` are only the timer's and nobody restarts it, nothing is
   left at all once that stop has resolved: nothing queued, nothing at the broker, no drain still to work.
   */
  lemma StopLeavesNothingAtBroker(ttl: int, ls: seq<Label>, n: nat, stop: nat)
    requires 0 < n <= |ls| && ls[n - 1] == CallsStop(stop) && TimerStaysOff(ls, n) && CanRun(START, ttl, ls)
    ensures var s := After(START, ttl, ls);
            stop in s.stops && (s.stops[stop].Resolved? ==>
              && s.queue == [] && (s.drain.None? || s.drain == Some(Settled))
              && forall i :: 0 <= i < |s.fates| ==> !s.fates[i].Placing?)
  {
    NoDrainAfterStop(ttl, ls, n, stop);
    RunKeeps(ttl, ls);
    var s := After(START, ttl, ls);
    assert StopFits(s, s.stops[stop]);
  }
}
