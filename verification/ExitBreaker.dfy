/**
 The circuit breaker over failing exits, and the dispatch loop that asks and feeds it: failed
 positions cool down, and enough failures in a row halt the session.
 */
module ExitBreaker {
  import opened Outcomes
  import opened PositionStore

  datatype Record = Record(consecutiveFailures: nat, cooldownUntil: nat)

  /** Time is counted in dispatches. */
  datatype Breaker = Breaker(tick: nat, records: map<PositionId, Record>)

  const NEW_BREAKER := Breaker(0, map[])

  /** A dispatch begins: records of positions that are no longer open go. */
  function TickBegun(b: Breaker, active: set<PositionId>): Breaker {
    Breaker(b.tick + 1, map id | id in b.records && id in active :: b.records[id])
  }

  predicate Admits(b: Breaker, id: PositionId) {
    id !in b.records || b.tick >= b.records[id].cooldownUntil
  }

  function FailuresOf(b: Breaker, id: PositionId): nat {
    if id in b.records then b.records[id].consecutiveFailures else 0
  }

  function FailureRecorded(b: Breaker, id: PositionId, cooldown: nat): Breaker {
    b.(records := b.records[id := Record(FailuresOf(b, id) + 1, b.tick + cooldown)])
  }

  function SuccessRecorded(b: Breaker, id: PositionId): Breaker {
    b.(records := b.records - {id})
  }

  /** Some position has failed often enough in a row. */
  predicate Kills(b: Breaker, threshold: nat) {
    exists id :: id in b.records && b.records[id].consecutiveFailures >= threshold
  }

  function Removed(ids: seq<PositionId>, id: PositionId): (r: seq<PositionId>)
    ensures forall other :: other in r <==> other in ids && other != id
  {
    if ids == [] then []
    else if ids[0] == id then Removed(ids[1..], id)
    else [ids[0]] + Removed(ids[1..], id)
  }

  class ExitFailureCircuitBreaker {
    const threshold: nat
    const cooldownTicks: nat
    var tick: nat
    var records: map<PositionId, Record>
    var order: seq<PositionId>              // the records' keys as the map iterates over them

    ghost predicate Valid()
      reads this
    {
      forall id :: id in order <==> id in records
    }

    function State(): Breaker
      reads this
    {
      Breaker(tick, records)
    }

    constructor (threshold: nat, cooldownTicks: nat)
      ensures this.threshold == threshold && this.cooldownTicks == cooldownTicks
      ensures Valid() && State() == NEW_BREAKER
    {
      this.threshold, this.cooldownTicks, tick, records, order := threshold, cooldownTicks, 0, map[], [];
    }

    method BeginTick(active: set<PositionId>)
      requires Valid()
      modifies this
      ensures Valid() && State() == TickBegun(old(State()), active)
      ensures tick == old(tick) + 1
      ensures forall id :: id in records <==> id in old(records) && id in active
      ensures forall id :: id in records ==> records[id] == old(records)[id]
    {
      tick := tick + 1;
      var keys, kept := order, [];
      for i := 0 to |keys|
        invariant tick == old(tick) + 1 && keys == old(order)
        invariant records == map id | id in old(records) && (id in active || id !in keys[..i]) :: old(records)[id]
        invariant forall id :: id in kept <==> id in keys[..i] && id in active
      {
        assert keys[..i + 1] == keys[..i] + [keys[i]];
        if keys[i] !in active {
          records := records - {keys[i]};
        } else {
          kept := kept + [keys[i]];
        }
      }
      assert keys[..|keys|] == keys;
      assert forall id :: id in old(records) ==> id in keys;
      assert records == TickBegun(old(State()), active).records;
      order := kept;
    }

    predicate AdmitAttempt(id: PositionId)
      reads this
    {
      id !in records || tick >= records[id].cooldownUntil
    }

    method RecordFailure(id: PositionId) returns (consecutiveFailures: nat)
      requires Valid()
      modifies this
      ensures Valid() && State() == FailureRecorded(old(State()), id, cooldownTicks)
      ensures consecutiveFailures == (if id in old(records) then old(records)[id].consecutiveFailures else 0) + 1
      ensures tick == old(tick) && records == old(records)[id := Record(consecutiveFailures, tick + cooldownTicks)]
    {
      if id !in records { order := order + [id]; }
      consecutiveFailures := (if id in records then records[id].consecutiveFailures else 0) + 1;
      records := records[id := Record(consecutiveFailures, tick + cooldownTicks)];
    }

    method RecordSuccess(id: PositionId)
      requires Valid()
      modifies this
      ensures Valid() && State() == SuccessRecorded(old(State()), id)
      ensures tick == old(tick) && records == old(records) - {id}
    {
      records := records - {id};
      order := Removed(order, id);
    }

    /** The position that failed most often in a row, if that is often enough. */
    method KillDetail() returns (worst: Option<PositionId>)
      requires Valid()
      ensures worst.Some? <==> Kills(State(), threshold)
      ensures worst.Some? ==> worst.value in records
                              && forall id :: id in records ==>
                                   records[id].consecutiveFailures <= records[worst.value].consecutiveFailures
    {
      worst := None;
      for i := 0 to |order|
        invariant worst.Some? ==> worst.value in records && records[worst.value].consecutiveFailures >= threshold
        invariant forall id :: id in order[..i] ==>
                    records[id].consecutiveFailures < threshold
                    || (worst.Some? && records[id].consecutiveFailures <= records[worst.value].consecutiveFailures)
      {
        assert order[..i + 1] == order[..i] + [order[i]];
        var key := order[i];
        assert key in order;
        if records[key].consecutiveFailures >= threshold {
          if worst.None? || records[key].consecutiveFailures > records[worst.value].consecutiveFailures {
            worst := Some(key);
          }
        }
      }
      assert order[..|order|] == order;
      ghost var b := State();
      forall id | id in b.records
        ensures b.records[id].consecutiveFailures < threshold
                || (worst.Some? && b.records[id].consecutiveFailures <= b.records[worst.value].consecutiveFailures)
      {
        assert id in order[..|order|];
      }
      if worst.Some? {
        ghost var id := worst.value;
        assert id in b.records && b.records[id].consecutiveFailures >= threshold;
        assert Kills(b, threshold);
      }
    }
  }

  // ---------------------------------------------------------------- One dispatch

  /** What the dispatch loop meets at a position: the compensation shield, and the rule's answer with
      what comes of it. */
  datatype Answer = Shielded | NoRule | Silent | NoExtremes | Closes | Throws

  datatype Visit = Visit(id: PositionId, answer: Answer)

  datatype Verdict = Skipped | Untouched | ClosedOut | FailedOut

  function VerdictOn(b: Breaker, v: Visit): Verdict {
    if v.answer == Shielded || !Admits(b, v.id) then Skipped
    else
      match v.answer
      case Silent => Untouched
      case Closes => ClosedOut
      case Throws => FailedOut
      case _ => Skipped
  }

  function Visited(b: Breaker, cooldown: nat, v: Visit): Breaker {
    match VerdictOn(b, v)
    case ClosedOut => SuccessRecorded(b, v.id)
    case FailedOut => FailureRecorded(b, v.id, cooldown)
    case _ => b
  }

  function Looped(b: Breaker, cooldown: nat, vs: seq<Visit>): Breaker {
    if vs == [] then b else Visited(Looped(b, cooldown, vs[..|vs| - 1]), cooldown, vs[|vs| - 1])
  }

  function IdsOf(vs: seq<Visit>): (ids: set<PositionId>)
    ensures forall id :: id in ids <==> exists i :: 0 <= i < |vs| && vs[i].id == id
  {
    if vs == [] then {} else IdsOf(vs[..|vs| - 1]) + {vs[|vs| - 1].id}
  }

  function Dispatched(b: Breaker, cooldown: nat, vs: seq<Visit>): Breaker {
    Looped(TickBegun(b, IdsOf(vs)), cooldown, vs)
  }

  /** The ids with a given verdict, in the order visited. */
  function With(b: Breaker, cooldown: nat, vs: seq<Visit>, verdict: Verdict): seq<PositionId> {
    if vs == [] then []
    else
      var init, v := vs[..|vs| - 1], vs[|vs| - 1];
      var before := With(b, cooldown, init, verdict);
      if VerdictOn(Looped(b, cooldown, init), v) == verdict then before + [v.id] else before
  }

  datatype DispatchResult = DispatchResult(closed: seq<PositionId>, skipped: seq<PositionId>, failed: seq<PositionId>)

  class ExitDispatcher {
    const breaker: ExitFailureCircuitBreaker

    constructor (breaker: ExitFailureCircuitBreaker)
      ensures this.breaker == breaker
    {
      this.breaker := breaker;
    }

    method Dispatch(visits: seq<Visit>) returns (r: DispatchResult)
      requires breaker.Valid()
      modifies breaker
      ensures breaker.Valid()
      ensures breaker.State() == Dispatched(old(breaker.State()), breaker.cooldownTicks, visits)
      ensures var begun := TickBegun(old(breaker.State()), IdsOf(visits));
              r == DispatchResult(With(begun, breaker.cooldownTicks, visits, ClosedOut),
                                  With(begun, breaker.cooldownTicks, visits, Skipped),
                                  With(begun, breaker.cooldownTicks, visits, FailedOut))
      ensures VisitedOnce(visits) ==> ListedByAnswer(old(breaker.State()), visits, r)
      ensures VisitedOnce(visits) ==>
                RecordedByAnswer(old(breaker.State()), breaker.State(), breaker.cooldownTicks, visits)
    {
      breaker.BeginTick(IdsOf(visits));
      ghost var begun := breaker.State();
      var closed, skipped, failed := [], [], [];
      for i := 0 to |visits|
        invariant breaker.Valid()
        invariant breaker.State() == Looped(begun, breaker.cooldownTicks, visits[..i])
        invariant closed == With(begun, breaker.cooldownTicks, visits[..i], ClosedOut)
        invariant skipped == With(begun, breaker.cooldownTicks, visits[..i], Skipped)
        invariant failed == With(begun, breaker.cooldownTicks, visits[..i], FailedOut)
      {
        var v := visits[i];
        assert visits[..i + 1][..i] == visits[..i];
        if v.answer == Shielded {
          skipped := skipped + [v.id];
        } else if !breaker.AdmitAttempt(v.id) {
          skipped := skipped + [v.id];
        } else if v.answer == NoRule || v.answer == NoExtremes {
          skipped := skipped + [v.id];
        } else if v.answer == Closes {
          closed := closed + [v.id];
          breaker.RecordSuccess(v.id);
        } else if v.answer == Throws {
          var consecutiveFailures := breaker.RecordFailure(v.id);
          failed := failed + [v.id];
        }
      }
      assert visits[..|visits|] == visits;
      r := DispatchResult(closed, skipped, failed);
      if VisitedOnce(visits) { DispatchedByAnswer(old(breaker.State()), breaker.cooldownTicks, visits); }
    }
  }

  // ---------------------------------------------------------------- Runs of dispatches

  /** Open positions are listed once each. */
  predicate VisitedOnce(vs: seq<Visit>) {
    forall i, j :: 0 <= i < j < |vs| ==> vs[i].id != vs[j].id
  }

  /** What the dispatch comes to for one position; None when it is not open. */
  function VerdictFor(b: Breaker, cooldown: nat, vs: seq<Visit>, id: PositionId): Option<Verdict> {
    if vs == [] then None
    else
      var init, v := vs[..|vs| - 1], vs[|vs| - 1];
      if v.id == id then Some(VerdictOn(Looped(b, cooldown, init), v)) else VerdictFor(b, cooldown, init, id)
  }

  /** What the loop leaves of the record of a position, by its verdict. */
  predicate RecordFollows(b: Breaker, now: Breaker, cooldown: nat, verdict: Option<Verdict>, id: PositionId) {
    && now.tick == b.tick
    && (verdict == Some(FailedOut) ==>
          Admits(b, id) && id in now.records
          && now.records[id] == Record(FailuresOf(b, id) + 1, b.tick + cooldown))
    && (verdict == Some(ClosedOut) ==> id !in now.records)
    && (verdict != Some(FailedOut) && verdict != Some(ClosedOut) ==>
          (id in now.records <==> id in b.records) && (id in b.records ==> now.records[id] == b.records[id]))
  }

  /** The record of one position after the loop depends only on its own verdict. */
  lemma {:induction false} LoopFor(b: Breaker, cooldown: nat, vs: seq<Visit>, id: PositionId)
    requires VisitedOnce(vs)
    ensures RecordFollows(b, Looped(b, cooldown, vs), cooldown, VerdictFor(b, cooldown, vs, id), id)
  {
    if vs != [] {
      var init, v := vs[..|vs| - 1], vs[|vs| - 1];
      LoopFor(b, cooldown, init, id);
      if v.id == id {
        NotVisited(b, cooldown, init, id);
      }
    }
  }

  lemma {:induction false} NotVisited(b: Breaker, cooldown: nat, vs: seq<Visit>, id: PositionId)
    requires forall i :: 0 <= i < |vs| ==> vs[i].id != id
    ensures VerdictFor(b, cooldown, vs, id) == None
  {
    if vs != [] { NotVisited(b, cooldown, vs[..|vs| - 1], id); }
  }

  lemma {:induction false} VisitedIffOpen(b: Breaker, cooldown: nat, vs: seq<Visit>, id: PositionId)
    ensures VerdictFor(b, cooldown, vs, id).Some? <==> id in IdsOf(vs)
  {
    if vs != [] { VisitedIffOpen(b, cooldown, vs[..|vs| - 1], id); }
  }

  /** The verdict on an open position is that of its own answer, whatever the loop did before. */
  predicate VerdictFits(b: Breaker, vs: seq<Visit>, id: PositionId, verdict: Option<Verdict>) {
    && (verdict.None? <==> id !in IdsOf(vs))
    && (verdict == Some(ClosedOut) <==> Visit(id, Closes) in vs && Admits(b, id))
    && (verdict == Some(FailedOut) <==> Visit(id, Throws) in vs && Admits(b, id))
    && (verdict == Some(Untouched) <==> Visit(id, Silent) in vs && Admits(b, id))
  }

  lemma {:induction false} VerdictByAnswer(b: Breaker, cooldown: nat, vs: seq<Visit>, id: PositionId)
    requires VisitedOnce(vs)
    ensures VerdictFits(b, vs, id, VerdictFor(b, cooldown, vs, id))
  {
    if vs != [] {
      var init, v := vs[..|vs| - 1], vs[|vs| - 1];
      assert vs == init + [v];
      if v.id == id {
        NotVisited(b, cooldown, init, id);
        LoopFor(b, cooldown, init, id);
        assert forall u :: u in init ==> u.id != id;
        OwnVerdict(b, Looped(b, cooldown, init), init, v);
      } else {
        VerdictByAnswer(b, cooldown, init, id);
      }
    }
  }

  /** The visit itself, with the breaker as the loop before it left it. */
  lemma OwnVerdict(b: Breaker, now: Breaker, before: seq<Visit>, v: Visit)
    requires forall u :: u in before ==> u.id != v.id
    requires now.tick == b.tick && (v.id in now.records <==> v.id in b.records)
    requires v.id in b.records ==> now.records[v.id] == b.records[v.id]
    ensures VerdictFits(b, before + [v], v.id, Some(VerdictOn(now, v)))
  {
    assert v in before + [v] && (before + [v])[|before|] == v;
    assert forall a :: Visit(v.id, a) in before + [v] <==> a == v.answer;
  }

  lemma {:induction false} ListedByVerdict(b: Breaker, cooldown: nat, vs: seq<Visit>, verdict: Verdict, id: PositionId)
    requires VisitedOnce(vs)
    ensures id in With(b, cooldown, vs, verdict) <==> VerdictFor(b, cooldown, vs, id) == Some(verdict)
  {
    if vs != [] {
      var init, v := vs[..|vs| - 1], vs[|vs| - 1];
      ListedByVerdict(b, cooldown, init, verdict, id);
      if v.id == id { NotVisited(b, cooldown, init, id); }
    }
  }

  /** The cooldown is over when this dispatch counts itself. */
  predicate AdmittedNext(b: Breaker, id: PositionId) {
    id !in b.records || b.tick + 1 >= b.records[id].cooldownUntil
  }

  predicate Met(vs: seq<Visit>, id: PositionId) {
    exists i :: 0 <= i < |vs| && vs[i].id == id
  }

  predicate ListedFor(b: Breaker, vs: seq<Visit>, r: DispatchResult, id: PositionId) {
    && (id in r.closed <==> Visit(id, Closes) in vs && AdmittedNext(b, id))
    && (id in r.failed <==> Visit(id, Throws) in vs && AdmittedNext(b, id))
    && (id in r.skipped <==>
          && Met(vs, id)
          && (Visit(id, Shielded) in vs || Visit(id, NoRule) in vs || Visit(id, NoExtremes) in vs || !AdmittedNext(b, id)))
  }

  predicate RecordedFor(b: Breaker, now: Breaker, cooldown: nat, vs: seq<Visit>, id: PositionId) {
    if !Met(vs, id) || (Visit(id, Closes) in vs && AdmittedNext(b, id)) then id !in now.records
    else if Visit(id, Throws) in vs && AdmittedNext(b, id) then
      && id in now.records
      && now.records[id].consecutiveFailures == (if id in b.records then b.records[id].consecutiveFailures else 0) + 1
      && now.records[id].cooldownUntil == b.tick + 1 + cooldown
    else
      (id in now.records <==> id in b.records) && (id in b.records ==> now.records[id] == b.records[id])
  }

  /** Every open position is listed by what was met at it: nothing else decides. */
  ghost predicate ListedByAnswer(b: Breaker, vs: seq<Visit>, r: DispatchResult) {
    forall id :: ListedFor(b, vs, r, id)
  }

  /** And recorded by it: a close or absence ends the record, a throw adds one failure, the rest leaves it. */
  ghost predicate RecordedByAnswer(b: Breaker, now: Breaker, cooldown: nat, vs: seq<Visit>) {
    now.tick == b.tick + 1 && forall id :: RecordedFor(b, now, cooldown, vs, id)
  }

  lemma {:induction false} LoopKeepsTick(b: Breaker, cooldown: nat, vs: seq<Visit>)
    ensures Looped(b, cooldown, vs).tick == b.tick
  {
    if vs != [] { LoopKeepsTick(b, cooldown, vs[..|vs| - 1]); }
  }

  lemma OneByAnswer(b: Breaker, cooldown: nat, vs: seq<Visit>, id: PositionId)
    requires VisitedOnce(vs)
    ensures var begun := TickBegun(b, IdsOf(vs));
            ListedFor(b, vs, DispatchResult(With(begun, cooldown, vs, ClosedOut), With(begun, cooldown, vs, Skipped),
                                            With(begun, cooldown, vs, FailedOut)), id)
    ensures RecordedFor(b, Dispatched(b, cooldown, vs), cooldown, vs, id)
  {
    var begun := TickBegun(b, IdsOf(vs));
    LoopFor(begun, cooldown, vs, id);
    VerdictByAnswer(begun, cooldown, vs, id);
    SkippedIsTheRest(begun, vs, id, VerdictFor(begun, cooldown, vs, id));
    ListedByVerdict(begun, cooldown, vs, ClosedOut, id);
    ListedByVerdict(begun, cooldown, vs, FailedOut, id);
    ListedByVerdict(begun, cooldown, vs, Skipped, id);
    assert Met(vs, id) ==> (Admits(begun, id) <==> AdmittedNext(b, id));
  }

  /** An open position has one answer of the six: what is neither closed, failed nor silent was skipped. */
  lemma SkippedIsTheRest(b: Breaker, vs: seq<Visit>, id: PositionId, verdict: Option<Verdict>)
    requires VisitedOnce(vs) && VerdictFits(b, vs, id, verdict)
    ensures verdict == Some(Skipped) <==>
            && Met(vs, id)
            && (Visit(id, Shielded) in vs || Visit(id, NoRule) in vs || Visit(id, NoExtremes) in vs || !Admits(b, id))
  {
    if Met(vs, id) {
      var i :| 0 <= i < |vs| && vs[i].id == id;
      var a := vs[i].answer;
      assert Visit(id, a) == vs[i];
      assert a == Shielded || a == NoRule || a == Silent || a == NoExtremes || a == Closes || a == Throws;
      forall other | Visit(id, other) in vs ensures other == a {
        var j :| 0 <= j < |vs| && vs[j] == Visit(id, other);
      }
      assert Visit(id, a) in vs;
      match verdict.value
      case Skipped =>
      case Untouched =>
      case ClosedOut =>
      case FailedOut =>
    }
  }

  /** The three lists of a dispatch, and what the breaker knows after it, by what was met at each open position. */
  lemma DispatchedByAnswer(b: Breaker, cooldown: nat, vs: seq<Visit>)
    requires VisitedOnce(vs)
    ensures var begun := TickBegun(b, IdsOf(vs));
            ListedByAnswer(b, vs, DispatchResult(With(begun, cooldown, vs, ClosedOut), With(begun, cooldown, vs, Skipped),
                                                 With(begun, cooldown, vs, FailedOut)))
    ensures RecordedByAnswer(b, Dispatched(b, cooldown, vs), cooldown, vs)
  {
    var begun, now := TickBegun(b, IdsOf(vs)), Dispatched(b, cooldown, vs);
    var r := DispatchResult(With(begun, cooldown, vs, ClosedOut), With(begun, cooldown, vs, Skipped),
                            With(begun, cooldown, vs, FailedOut));
    LoopKeepsTick(begun, cooldown, vs);
    forall id ensures ListedFor(b, vs, r, id) && RecordedFor(b, now, cooldown, vs, id) {
      OneByAnswer(b, cooldown, vs, id);
    }
  }

  function Run(cooldown: nat, ds: seq<seq<Visit>>): Breaker {
    if ds == [] then NEW_BREAKER else Dispatched(Run(cooldown, ds[..|ds| - 1]), cooldown, ds[|ds| - 1])
  }

  /** The failures in a row once dispatch number `n` has met the position, or not: what was met decides, unless
      the last failure is less than the cooldown ago. */
  function Continued(before: seq<nat>, cooldown: nat, vs: seq<Visit>, n: nat, id: PositionId): seq<nat> {
    if id !in IdsOf(vs) then []
    else if before != [] && n < before[|before| - 1] + cooldown then before
    else if Visit(id, Throws) in vs then before + [n]
    else if Visit(id, Closes) in vs then []
    else before
  }

  /** The dispatches at which closing the position threw, since it last succeeded or was not open. */
  function FailTicks(cooldown: nat, ds: seq<seq<Visit>>, id: PositionId): seq<nat> {
    if ds == [] then [] else Continued(FailTicks(cooldown, ds[..|ds| - 1], id), cooldown, ds[|ds| - 1], |ds|, id)
  }

  function Spacing(cooldown: nat): nat {
    if cooldown > 1 then cooldown else 1
  }

  predicate Spaced(ticks: seq<nat>, gap: nat) {
    forall i :: 0 <= i < |ticks| - 1 ==> ticks[i] + gap <= ticks[i + 1]
  }

  ghost predicate AllVisitedOnce(ds: seq<seq<Visit>>) {
    forall k :: 0 <= k < |ds| ==> VisitedOnce(ds[k])
  }

  /** After `n` dispatches the record of a position says what its failures were. */
  predicate Counts(b: Breaker, cooldown: nat, ticks: seq<nat>, n: nat, id: PositionId) {
    && b.tick == n && FailuresOf(b, id) == |ticks| && Spaced(ticks, Spacing(cooldown))
    && (ticks == [] <==> id !in b.records)
    && (ticks != [] ==> ticks[|ticks| - 1] <= n && b.records[id].cooldownUntil == ticks[|ticks| - 1] + cooldown)
  }

  lemma TickCounts(b: Breaker, active: set<PositionId>, cooldown: nat, ticks: seq<nat>, n: nat, id: PositionId)
    requires Counts(b, cooldown, ticks, n, id)
    ensures var begun := TickBegun(b, active);
            && begun.tick == n + 1
            && (id in active ==> (id in begun.records <==> id in b.records)
                                 && (id in b.records ==> begun.records[id] == b.records[id]))
            && (id !in active ==> id !in begun.records)
  {
  }

  lemma FailureCounts(b: Breaker, begun: Breaker, now: Breaker, cooldown: nat, ticks: seq<nat>, n: nat, id: PositionId)
    requires Counts(b, cooldown, ticks, n, id) && begun.tick == n + 1
    requires id in begun.records <==> id in b.records
    requires id in b.records ==> begun.records[id] == b.records[id]
    requires RecordFollows(begun, now, cooldown, Some(FailedOut), id)
    ensures Counts(now, cooldown, ticks + [n + 1], n + 1, id)
  {
    var after := ticks + [n + 1];
    forall i | 0 <= i < |after| - 1 ensures after[i] + Spacing(cooldown) <= after[i + 1] {
      if i < |ticks| - 1 { assert ticks[i] + Spacing(cooldown) <= ticks[i + 1]; }
    }
  }

  lemma OthersCount(b: Breaker, begun: Breaker, now: Breaker, cooldown: nat, verdict: Option<Verdict>, ticks: seq<nat>,
                    n: nat, id: PositionId)
    requires Counts(b, cooldown, ticks, n, id) && begun.tick == n + 1
    requires if verdict.None? then id !in begun.records
             else (id in begun.records <==> id in b.records) && (id in b.records ==> begun.records[id] == b.records[id])
    requires verdict != Some(FailedOut) && RecordFollows(begun, now, cooldown, verdict, id)
    ensures Counts(now, cooldown, if verdict.None? || verdict == Some(ClosedOut) then [] else ticks, n + 1, id)
  {
  }

  /**
   The counter of a position is the number of its failures since its last success or absence; these
   are at least max(1, cooldown) dispatches apart, and the last one set the cooldown.
   */
  lemma {:induction false} CounterIsFailures(cooldown: nat, ds: seq<seq<Visit>>, id: PositionId)
    requires AllVisitedOnce(ds)
    ensures Counts(Run(cooldown, ds), cooldown, FailTicks(cooldown, ds, id), |ds|, id)
  {
    if ds != [] {
      var init, vs := ds[..|ds| - 1], ds[|ds| - 1];
      var b, ticks := Run(cooldown, init), FailTicks(cooldown, init, id);
      CounterIsFailures(cooldown, init, id);
      DispatchCounts(b, cooldown, ticks, |init|, vs, id);
    }
  }

  /** One dispatch: what becomes of the failures follows from the answer met, and so does the record. */
  lemma DispatchCounts(b: Breaker, cooldown: nat, ticks: seq<nat>, n: nat, vs: seq<Visit>, id: PositionId)
    requires VisitedOnce(vs) && Counts(b, cooldown, ticks, n, id)
    ensures Counts(Dispatched(b, cooldown, vs), cooldown, Continued(ticks, cooldown, vs, n + 1, id), n + 1, id)
  {
    var begun, now := TickBegun(b, IdsOf(vs)), Dispatched(b, cooldown, vs);
    var verdict := VerdictFor(begun, cooldown, vs, id);
    LoopFor(begun, cooldown, vs, id);
    VerdictByAnswer(begun, cooldown, vs, id);
    TickCounts(b, IdsOf(vs), cooldown, ticks, n, id);
    if verdict == Some(FailedOut) {
      FailureCounts(b, begun, now, cooldown, ticks, n, id);
    } else {
      OthersCount(b, begun, now, cooldown, verdict, ticks, n, id);
    }
  }

  // ---------------------------------------------------------------- The kill-switch

  /** The session asks after every dispatch and halts when a position has failed often enough. */
  ghost predicate HaltsAt(cooldown: nat, threshold: nat, ds: seq<seq<Visit>>) {
    && ds != [] && Kills(Run(cooldown, ds), threshold)
    && forall k :: 0 <= k < |ds| ==> !Kills(Run(cooldown, ds[..k]), threshold)
  }

  lemma {:induction false} SpacedSpan(ticks: seq<nat>, gap: nat, k: nat)
    requires Spaced(ticks, gap) && k < |ticks|
    ensures ticks[0] + k * gap <= ticks[k]
  {
    if k > 0 {
      SpacedSpan(ticks, gap, k - 1);
      assert ticks[k - 1] + gap <= ticks[k - 1 + 1];
      assert k * gap == (k - 1) * gap + gap;
    }
  }

  lemma FailsAtMostOncePerDispatch(cooldown: nat, ds: seq<seq<Visit>>, id: PositionId)
    requires ds != []
    ensures |FailTicks(cooldown, ds, id)| <= |FailTicks(cooldown, ds[..|ds| - 1], id)| + 1
    ensures |FailTicks(cooldown, ds, id)| > |FailTicks(cooldown, ds[..|ds| - 1], id)| ==>
              FailTicks(cooldown, ds, id)[|FailTicks(cooldown, ds, id)| - 1] == |ds|
  {
  }

  /**
   The halt: some position has failed exactly `threshold` times in a row, the last time just now, and
   no earlier than (threshold - 1) * max(1, cooldown) dispatches after the first; no position ever
   fails more than `threshold` times in a row before the session halts.
   */
  lemma HaltBounds(cooldown: nat, threshold: nat, ds: seq<seq<Visit>>) returns (id: PositionId)
    requires AllVisitedOnce(ds) && threshold >= 1 && HaltsAt(cooldown, threshold, ds)
    ensures var ticks := FailTicks(cooldown, ds, id);
            && |ticks| == threshold && ticks[threshold - 1] == |ds|
            && |ds| >= ticks[0] + (threshold - 1) * Spacing(cooldown)
    ensures forall other :: |FailTicks(cooldown, ds, other)| <= threshold
  {
    var b := Run(cooldown, ds);
    forall other ensures |FailTicks(cooldown, ds, other)| <= threshold {
      BelowUntilHalt(cooldown, threshold, ds, other);
      FailsAtMostOncePerDispatch(cooldown, ds, other);
    }
    id :| id in b.records && b.records[id].consecutiveFailures >= threshold;
    BelowUntilHalt(cooldown, threshold, ds, id);
    FailsAtMostOncePerDispatch(cooldown, ds, id);
    CounterIsFailures(cooldown, ds, id);
    SpacedSpan(FailTicks(cooldown, ds, id), Spacing(cooldown), threshold - 1);
  }

  lemma BelowUntilHalt(cooldown: nat, threshold: nat, ds: seq<seq<Visit>>, id: PositionId)
    requires AllVisitedOnce(ds) && threshold >= 1 && HaltsAt(cooldown, threshold, ds)
    ensures |FailTicks(cooldown, ds[..|ds| - 1], id)| < threshold
  {
    var init := ds[..|ds| - 1];
    assert AllVisitedOnce(init);
    CounterIsFailures(cooldown, init, id);
    assert !Kills(Run(cooldown, ds[..|ds| - 1]), threshold);
  }

  /** The session halts exactly when some position's failures in a row reach the threshold. */
  lemma KillsExactly(cooldown: nat, threshold: nat, ds: seq<seq<Visit>>)
    requires AllVisitedOnce(ds) && threshold >= 1
    ensures Kills(Run(cooldown, ds), threshold) <==> exists id :: |FailTicks(cooldown, ds, id)| >= threshold
  {
    forall id ensures FailuresOf(Run(cooldown, ds), id) == |FailTicks(cooldown, ds, id)| {
      CounterIsFailures(cooldown, ds, id);
    }
    if exists id :: |FailTicks(cooldown, ds, id)| >= threshold {
      var id :| |FailTicks(cooldown, ds, id)| >= threshold;
      assert id in Run(cooldown, ds).records;
    }
    if Kills(Run(cooldown, ds), threshold) {
      var id :| id in Run(cooldown, ds).records && Run(cooldown, ds).records[id].consecutiveFailures >= threshold;
      assert |FailTicks(cooldown, ds, id)| >= threshold;
    }
  }
}
