/**
 Simple moving averages kept bar by bar, with a provisional value for the candle under
 way, and what they are in batch: means over the last closes.
 */
module SmaLedger {
  import opened Outcomes

  /** Window lengths are positive; the configuration refuses others. */
  type Window = n: nat | n > 0 witness 1

  function SumOf(values: seq<real>, from: nat, to: nat): real
    requires to <= |values|
  {
    if to <= from then 0.0 else SumOf(values, from, to - 1) + values[to - 1]
  }

  /** The mean of the last `p` values, once there are that many. */
  function Sma(p: Window, values: seq<real>): Option<real> {
    if |values| < p then None else Some(SumOf(values, |values| - p, |values|) / p as real)
  }

  /** Two calculators of one line: closed bars only, and closed bars plus the provisional value. */
  datatype Tracker = Tracker(p: Window, confirmed: seq<real>, forming: seq<real>, current: Option<real>,
                             prev: Option<real>, formingCurrent: Option<real>, hasForming: bool)

  function NewTracker(p: Window): Tracker {
    Tracker(p, [], [], None, None, None, false)
  }

  function AddConfirmed(t: Tracker, close: real): Tracker {
    var values := t.confirmed + [close];
    t.(prev := t.current, confirmed := values, current := if |values| >= t.p then Sma(t.p, values) else t.current)
  }

  function AddFormingForWarmUp(t: Tracker, close: real): Tracker {
    t.(forming := t.forming + [close])
  }

  /** The provisional value becomes the confirmed close. */
  function ResetForming(t: Tracker, close: real): Tracker {
    t.(forming := (if t.hasForming then ButLast(t.forming) else t.forming) + [close],
       formingCurrent := None, hasForming := false)
  }

  function UpdateForming(t: Tracker, close: real): Tracker {
    var values := (if t.hasForming then ButLast(t.forming) else t.forming) + [close];
    t.(forming := values, hasForming := true,
       formingCurrent := if |values| >= t.p then Sma(t.p, values) else t.formingCurrent)
  }

  function WarmedUp(t: Tracker, closes: seq<real>): Tracker {
    if closes == [] then t
    else AddFormingForWarmUp(AddConfirmed(WarmedUp(t, ButLast(closes)), closes[|closes| - 1]), closes[|closes| - 1])
  }

  function Reseeded(t: Tracker, closes: seq<real>): Tracker {
    WarmedUp(NewTracker(t.p), closes)
  }

  // ---------------------------------------------------------------- The mutable objects

  /** The contract of a calculator: add a value, replace the last one, mean of the window. */
  class SmaCalculator {
    const period: Window
    var values: seq<real>

    constructor (period: Window)
      ensures this.period == period && values == []
    {
      this.period, values := period, [];
    }

    method Add(value: real)
      modifies this
      ensures values == old(values) + [value]
    {
      values := values + [value];
    }

    method Replace(value: real)
      modifies this
      ensures values == ButLast(old(values)) + [value]
    {
      values := ButLast(values) + [value];
    }

    predicate IsStable()
      reads this
    {
      |values| >= period
    }

    function GetResult(): real
      requires IsStable()
      reads this
    {
      Sma(period, values).value
    }
  }

  class SmaTracker {
    const period: Window
    var confirmed: SmaCalculator
    var forming: SmaCalculator
    var current: Option<real>
    var prev: Option<real>
    var formingCurrent: Option<real>
    var hasForming: bool

    ghost predicate Valid()
      reads this, confirmed, forming
    {
      confirmed != forming && confirmed.period == period && forming.period == period
    }

    function Footprint(): set<object>
      reads this
    {
      {this, confirmed, forming}
    }

    function State(): Tracker
      reads this, confirmed, forming
    {
      Tracker(period, confirmed.values, forming.values, current, prev, formingCurrent, hasForming)
    }

    constructor (period: Window)
      ensures Valid() && fresh(Footprint()) && State() == NewTracker(period)
    {
      this.period := period;
      confirmed := new SmaCalculator(period);
      forming := new SmaCalculator(period);
      current, prev, formingCurrent, hasForming := None, None, None, false;
    }

    method AddConfirmedClose(close: real)
      requires Valid()
      modifies this, confirmed
      ensures Valid() && confirmed == old(confirmed) && forming == old(forming)
      ensures State() == AddConfirmed(old(State()), close)
    {
      prev := current;
      confirmed.Add(close);
      if confirmed.IsStable() {
        current := Some(confirmed.GetResult());
      }
    }

    method AddFormingClose(close: real)
      requires Valid()
      modifies forming
      ensures Valid() && State() == AddFormingForWarmUp(old(State()), close)
    {
      forming.Add(close);
    }

    method Reset(confirmedClose: real)
      requires Valid()
      modifies this, forming
      ensures Valid() && confirmed == old(confirmed) && forming == old(forming)
      ensures State() == ResetForming(old(State()), confirmedClose)
    {
      if hasForming {
        forming.Replace(confirmedClose);
      } else {
        forming.Add(confirmedClose);
      }
      formingCurrent, hasForming := None, false;
    }

    method Update(close: real)
      requires Valid()
      modifies this, forming
      ensures Valid() && confirmed == old(confirmed) && forming == old(forming)
      ensures State() == UpdateForming(old(State()), close)
    {
      if hasForming {
        forming.Replace(close);
      } else {
        forming.Add(close);
        hasForming := true;
      }
      if forming.IsStable() {
        formingCurrent := Some(forming.GetResult());
      }
    }

    /** Builds both calculators anew from the closes. */
    method Reseed(closes: seq<real>)
      requires Valid()
      modifies this
      ensures Valid() && fresh({confirmed, forming})
      ensures State() == Reseeded(old(State()), closes)
    {
      confirmed := new SmaCalculator(period);
      forming := new SmaCalculator(period);
      current, prev, formingCurrent, hasForming := None, None, None, false;
      for i := 0 to |closes|
        invariant Valid() && fresh({confirmed, forming})
        invariant State() == WarmedUp(NewTracker(period), closes[..i])
      {
        assert ButLast(closes[..i + 1]) == closes[..i];
        AddConfirmedClose(closes[i]);
        forming.Add(closes[i]);
      }
      assert closes[..|closes|] == closes;
    }
  }

  // ---------------------------------------------------------------- The ledger

  datatype Ledger = Ledger(short: Tracker, long: Tracker)

  datatype SmaSnapshot = SmaSnapshot(short: real, long: real, previousShort: real, previousLong: real)

  datatype IndicatorValues = IndicatorValues(confirmed: SmaSnapshot, forming: SmaSnapshot)

  datatype Event = BarConfirmed(close: real) | FormingUpdated(close: real)

  function NewLedger(shortPeriod: Window, longPeriod: Window): Ledger {
    Ledger(NewTracker(shortPeriod), NewTracker(longPeriod))
  }

  function LedgerWarmedUp(l: Ledger, closes: seq<real>): Ledger {
    Ledger(WarmedUp(l.short, closes), WarmedUp(l.long, closes))
  }

  function LedgerWarmedUpBy(l: Ledger, close: real): Ledger {
    Ledger(AddFormingForWarmUp(AddConfirmed(l.short, close), close),
           AddFormingForWarmUp(AddConfirmed(l.long, close), close))
  }

  function OnEvent(l: Ledger, e: Event): Ledger {
    match e
    case BarConfirmed(close) =>
      Ledger(ResetForming(AddConfirmed(l.short, close), close), ResetForming(AddConfirmed(l.long, close), close))
    case FormingUpdated(close) =>
      Ledger(UpdateForming(l.short, close), UpdateForming(l.long, close))
  }

  function OnEvents(l: Ledger, events: seq<Event>): Ledger {
    if events == [] then l else OnEvent(OnEvents(l, events[..|events| - 1]), events[|events| - 1])
  }

  function RequiredBars(l: Ledger): nat {
    if l.short.p > l.long.p then l.short.p else l.long.p
  }

  predicate Stable(l: Ledger) {
    l.short.current.Some? && l.long.current.Some?
  }

  function Else(o: Option<real>, fallback: real): real {
    if o.Some? then o.value else fallback
  }

  function SnapshotOrNull(l: Ledger): Option<SmaSnapshot> {
    if !Stable(l) then None
    else
      var s, g := l.short.current.value, l.long.current.value;
      Some(SmaSnapshot(s, g, Else(l.short.prev, s), Else(l.long.prev, g)))
  }

  /** Throws before both averages are stable. */
  function CurrentValues(l: Ledger): Result<IndicatorValues, string> {
    if !Stable(l) then Err("averages not stable yet")
    else
      var s, g := l.short.current.value, l.long.current.value;
      Ok(IndicatorValues(SnapshotOrNull(l).value,
                         SmaSnapshot(Else(l.short.formingCurrent, s), Else(l.long.formingCurrent, g), s, g)))
  }

  datatype Reconciliation = Reconciliation(before: Option<SmaSnapshot>, after: Option<SmaSnapshot>, corrected: bool)

  function LedgerReseeded(l: Ledger, closes: seq<real>): Ledger {
    Ledger(Reseeded(l.short, closes), Reseeded(l.long, closes))
  }

  function ReconciliationOf(l: Ledger, closes: seq<real>): Reconciliation {
    var before, after := SnapshotOrNull(l), SnapshotOrNull(LedgerReseeded(l, closes));
    Reconciliation(before, after, before != after)
  }

  class IndicatorLedger {
    const short: SmaTracker
    const long: SmaTracker
    const requiredBarsForStable: nat
    ghost var model: Ledger
    ghost var repr: set<object>

    ghost predicate Valid()
      reads this, repr
    {
      && this in repr && short in repr && long in repr
      && short.Footprint() <= repr && long.Footprint() <= repr
      && this !in short.Footprint() && this !in long.Footprint() && short.Footprint() !! long.Footprint()
      && short.Valid() && long.Valid()
      && model == Ledger(short.State(), long.State())
      && requiredBarsForStable == RequiredBars(model)
    }

    constructor (shortPeriod: Window, longPeriod: Window)
      ensures Valid() && fresh(repr) && model == NewLedger(shortPeriod, longPeriod)
    {
      short := new SmaTracker(shortPeriod);
      long := new SmaTracker(longPeriod);
      requiredBarsForStable := if shortPeriod > longPeriod then shortPeriod else longPeriod;
      model := NewLedger(shortPeriod, longPeriod);
      new;
      repr := {this} + short.Footprint() + long.Footprint();
    }

    method WarmUp(closes: seq<real>)
      requires Valid()
      modifies repr
      ensures Valid() && repr == old(repr)
      ensures model == LedgerWarmedUp(old(model), closes)
    {
      for i := 0 to |closes|
        invariant Valid() && repr == old(repr)
        invariant model == LedgerWarmedUp(old(model), closes[..i])
      {
        assert ButLast(closes[..i + 1]) == closes[..i];
        WarmUpOne(closes[i]);
      }
      assert closes[..|closes|] == closes;
    }

    method WarmUpOne(close: real)
      requires Valid()
      modifies repr
      ensures Valid() && repr == old(repr)
      ensures model == LedgerWarmedUpBy(old(model), close)
    {
      short.AddConfirmedClose(close);
      long.AddConfirmedClose(close);
      short.AddFormingClose(close);
      long.AddFormingClose(close);
      model := LedgerWarmedUpBy(model, close);
    }

    method OnCandleConfirmed(close: real)
      requires Valid()
      modifies repr
      ensures Valid() && repr == old(repr)
      ensures model == OnEvent(old(model), BarConfirmed(close))
    {
      short.AddConfirmedClose(close);
      long.AddConfirmedClose(close);
      short.Reset(close);
      long.Reset(close);
      model := OnEvent(model, BarConfirmed(close));
    }

    method OnCandleUpdated(close: real)
      requires Valid()
      modifies repr
      ensures Valid() && repr == old(repr)
      ensures model == OnEvent(old(model), FormingUpdated(close))
    {
      short.Update(close);
      long.Update(close);
      model := OnEvent(model, FormingUpdated(close));
    }

    method ReconcileWith(closes: seq<real>) returns (r: Reconciliation)
      requires Valid()
      modifies repr
      ensures Valid() && fresh(repr - old(repr))
      ensures model == LedgerReseeded(old(model), closes)
      ensures r == ReconciliationOf(old(model), closes)
    {
      var before := Snapshot();
      ReseedBoth(closes);
      var after := Snapshot();
      r := Reconciliation(before, after, before != after);
    }

    method ReseedBoth(closes: seq<real>)
      requires Valid()
      modifies repr
      ensures Valid() && fresh(repr - old(repr))
      ensures model == LedgerReseeded(old(model), closes)
    {
      short.Reseed(closes);
      long.Reseed(closes);
      model := LedgerReseeded(model, closes);
      repr := {this} + short.Footprint() + long.Footprint();
    }

    method Snapshot() returns (r: Option<SmaSnapshot>)
      requires Valid()
      ensures r == SnapshotOrNull(model)
    {
      r := SnapshotOrNull(Ledger(short.State(), long.State()));
    }

    method Values() returns (r: Result<IndicatorValues, string>)
      requires Valid()
      ensures r == CurrentValues(model)
    {
      r := CurrentValues(Ledger(short.State(), long.State()));
    }
  }

  // ---------------------------------------------------------------- The batch definition

  /** One line after the closes `closes` with the provisional value `f`, defined at one go. */
  function Batch(p: Window, closes: seq<real>, f: Option<real>): Tracker {
    var forming := if f.Some? then closes + [f.value] else closes;
    Tracker(p, closes, forming, Sma(p, closes), Sma(p, ButLast(closes)),
            if f.Some? then Sma(p, forming) else None, f.Some?)
  }

  function BatchLedger(shortPeriod: Window, longPeriod: Window, closes: seq<real>, f: Option<real>): Ledger {
    Ledger(Batch(shortPeriod, closes, f), Batch(longPeriod, closes, f))
  }

  lemma ConfirmIsBatch(p: Window, closes: seq<real>, f: Option<real>, close: real)
    ensures ResetForming(AddConfirmed(Batch(p, closes, f), close), close) == Batch(p, closes + [close], None)
    ensures AddFormingForWarmUp(AddConfirmed(Batch(p, closes, None), close), close) == Batch(p, closes + [close], None)
  {
    assert ButLast(closes + [close]) == closes;
    if f.Some? { assert ButLast(closes + [f.value]) == closes; }
  }

  lemma UpdateIsBatch(p: Window, closes: seq<real>, f: Option<real>, close: real)
    ensures UpdateForming(Batch(p, closes, f), close) == Batch(p, closes, Some(close))
  {
    if f.Some? { assert ButLast(closes + [f.value]) == closes; }
  }

  lemma LastAppended(closes: seq<real>, more: seq<real>)
    requires more != []
    ensures closes + ButLast(more) + [more[|more| - 1]] == closes + more
  {
  }

  lemma {:induction false} WarmUpIsBatch(p: Window, closes: seq<real>, more: seq<real>)
    ensures WarmedUp(Batch(p, closes, None), more) == Batch(p, closes + more, None)
  {
    if more == [] {
      assert closes + more == closes;
    } else {
      var init, last := ButLast(more), more[|more| - 1];
      WarmUpIsBatch(p, closes, init);
      ConfirmIsBatch(p, closes + init, None, last);
      LastAppended(closes, more);
    }
  }

  lemma FreshIsBatch(p: Window, closes: seq<real>)
    ensures WarmedUp(NewTracker(p), closes) == Batch(p, closes, None)
  {
    WarmUpIsBatch(p, [], closes);
    assert [] + closes == closes;
  }

  /** The closes a run of events confirms. */
  function ClosesOf(events: seq<Event>): seq<real> {
    if events == [] then []
    else
      var e := events[|events| - 1];
      ClosesOf(events[..|events| - 1]) + if e.BarConfirmed? then [e.close] else []
  }

  /** The provisional value a run of events leaves. */
  function ProvisionalOf(events: seq<Event>): Option<real> {
    if events == [] || events[|events| - 1].BarConfirmed? then None else Some(events[|events| - 1].close)
  }

  lemma EventIsBatch(shortPeriod: Window, longPeriod: Window, closes: seq<real>, f: Option<real>, e: Event)
    ensures OnEvent(BatchLedger(shortPeriod, longPeriod, closes, f), e)
         == if e.BarConfirmed? then BatchLedger(shortPeriod, longPeriod, closes + [e.close], None)
            else BatchLedger(shortPeriod, longPeriod, closes, Some(e.close))
  {
    if e.BarConfirmed? {
      ConfirmIsBatch(shortPeriod, closes, f, e.close);
      ConfirmIsBatch(longPeriod, closes, f, e.close);
    } else {
      UpdateIsBatch(shortPeriod, closes, f, e.close);
      UpdateIsBatch(longPeriod, closes, f, e.close);
    }
  }

  lemma ClosesNext(closes: seq<real>, events: seq<Event>)
    requires events != []
    ensures var init, e := events[..|events| - 1], events[|events| - 1];
            closes + ClosesOf(events) ==
            if e.BarConfirmed? then closes + ClosesOf(init) + [e.close] else closes + ClosesOf(init)
  {
    var init := ClosesOf(events[..|events| - 1]);
    assert init + [] == init;
  }

  lemma NextIsBatch(shortPeriod: Window, longPeriod: Window, before: seq<real>, f: Option<real>, e: Event, after: seq<real>)
    requires after == if e.BarConfirmed? then before + [e.close] else before
    ensures OnEvent(BatchLedger(shortPeriod, longPeriod, before, f), e)
         == BatchLedger(shortPeriod, longPeriod, after, if e.BarConfirmed? then None else Some(e.close))
  {
    EventIsBatch(shortPeriod, longPeriod, before, f, e);
  }

  lemma {:induction false} EventsAreBatch(shortPeriod: Window, longPeriod: Window, closes: seq<real>, events: seq<Event>)
    ensures OnEvents(BatchLedger(shortPeriod, longPeriod, closes, None), events)
         == BatchLedger(shortPeriod, longPeriod, closes + ClosesOf(events), ProvisionalOf(events))
  {
    if events == [] {
      assert closes + ClosesOf(events) == closes;
    } else {
      var init, e := events[..|events| - 1], events[|events| - 1];
      EventsAreBatch(shortPeriod, longPeriod, closes, init);
      ClosesNext(closes, events);
      NextIsBatch(shortPeriod, longPeriod, closes + ClosesOf(init), ProvisionalOf(init), e, closes + ClosesOf(events));
    }
  }

  /**
   The ledger equals its batch definition after any warm-up and any events: closes are the
   warm-up's and the confirmed bars', and only the latest update since the last confirmed
   bar is provisional.
   */
  lemma LedgerIsBatch(shortPeriod: Window, longPeriod: Window, closes: seq<real>, events: seq<Event>)
    ensures OnEvents(LedgerWarmedUp(NewLedger(shortPeriod, longPeriod), closes), events)
         == BatchLedger(shortPeriod, longPeriod, closes + ClosesOf(events), ProvisionalOf(events))
  {
    FreshIsBatch(shortPeriod, closes);
    FreshIsBatch(longPeriod, closes);
    EventsAreBatch(shortPeriod, longPeriod, closes, events);
  }

  // ---------------------------------------------------------------- What a reader sees

  /** The values are ready exactly from `RequiredBars` closes on. */
  lemma StableExactly(shortPeriod: Window, longPeriod: Window, closes: seq<real>, f: Option<real>)
    ensures var l := BatchLedger(shortPeriod, longPeriod, closes, f);
            && (CurrentValues(l).Ok? <==> |closes| >= RequiredBars(l))
            && (SnapshotOrNull(l).Some? <==> |closes| >= RequiredBars(l))
  {
  }

  /**
   What is read once stable: current averages over the closes, previous ones over all but
   the last close, forming ones over the closes and the provisional value. With exactly a
   window's worth of closes there is no previous average and the current one stands in.
   */
  lemma ValuesAreMeans(shortPeriod: Window, longPeriod: Window, closes: seq<real>, f: Option<real>)
    requires |closes| >= shortPeriod && |closes| >= longPeriod
    ensures var v := CurrentValues(BatchLedger(shortPeriod, longPeriod, closes, f)).value;
            var withForming := if f.Some? then closes + [f.value] else closes;
            && Some(v.confirmed.short) == Sma(shortPeriod, closes)
            && Some(v.confirmed.long) == Sma(longPeriod, closes)
            && Some(v.confirmed.previousShort) == Sma(shortPeriod, if |closes| > shortPeriod then ButLast(closes) else closes)
            && Some(v.confirmed.previousLong) == Sma(longPeriod, if |closes| > longPeriod then ButLast(closes) else closes)
            && Some(v.forming.short) == Sma(shortPeriod, withForming)
            && Some(v.forming.long) == Sma(longPeriod, withForming)
            && v.forming.previousShort == v.confirmed.short
            && v.forming.previousLong == v.confirmed.long
  {
  }

  // ---------------------------------------------------------------- What an average is

  lemma {:induction false} SumBehind(more: seq<real>, values: seq<real>, from: nat, to: nat)
    requires from <= to <= |values|
    ensures SumOf(more + values, |more| + from, |more| + to) == SumOf(values, from, to)
  {
    if from < to {
      SumBehind(more, values, from, to - 1);
      assert (more + values)[|more| + to - 1] == values[to - 1];
    }
  }

  lemma {:induction false} SumFromFirst(values: seq<real>, from: nat, to: nat)
    requires from < to <= |values|
    ensures SumOf(values, from, to) == values[from] + SumOf(values, from + 1, to)
  {
    if from + 1 < to { SumFromFirst(values, from, to - 1); }
  }

  lemma {:induction false} SumOfPrefix(values: seq<real>, x: real, from: nat, to: nat)
    requires to <= |values|
    ensures SumOf(values + [x], from, to) == SumOf(values, from, to)
  {
    if from < to { SumOfPrefix(values, x, from, to - 1); }
  }

  lemma {:induction false} SumOfEqual(values: seq<real>, c: real, from: nat, to: nat)
    requires from <= to <= |values| && forall i :: from <= i < to ==> values[i] == c
    ensures SumOf(values, from, to) == (to - from) as real * c
  {
    if from < to {
      SumOfEqual(values, c, from, to - 1);
      OnceMore(to - 1 - from, c);
    }
  }

  lemma OnceMore(n: int, c: real)
    ensures (n + 1) as real * c == n as real * c + c
  {
    assert (n + 1) as real == n as real + 1.0;
    assert (n as real + 1.0) * c == n as real * c + c;
  }

  /** Only the last `p` values count: whatever came before them. */
  lemma AverageForgets(p: Window, more: seq<real>, values: seq<real>)
    requires |values| >= p
    ensures Sma(p, more + values) == Sma(p, values)
  {
    SumBehind(more, values, |values| - p, |values|);
  }

  /** A further value moves the average by its difference to the value that leaves the window, spread over the window. */
  lemma AverageSlides(p: Window, values: seq<real>, x: real)
    requires |values| >= p
    ensures Sma(p, values).Some? && Sma(p, values + [x]).Some?
    ensures Sma(p, values + [x]).value - Sma(p, values).value == (x - values[|values| - p]) / p as real
  {
    var n := |values|;
    SumFromFirst(values, n - p, n);
    SumOfPrefix(values, x, n - p + 1, n);
    assert SumOf(values + [x], n + 1 - p, n + 1) == SumOf(values, n - p, n) - values[n - p] + x;
    Spread(SumOf(values + [x], n + 1 - p, n + 1), SumOf(values, n - p, n), p);
  }

  lemma Spread(a: real, b: real, p: Window)
    ensures a / p as real - b / p as real == (a - b) / p as real
  {
  }

  /** The average of equal values is that value. */
  lemma AverageOfEqual(p: Window, values: seq<real>, c: real)
    requires |values| >= p && forall i :: |values| - p <= i < |values| ==> values[i] == c
    ensures Sma(p, values) == Some(c)
  {
    SumOfEqual(values, c, |values| - p, |values|);
    Cancel(SumOf(values, |values| - p, |values|), p as real, c);
  }

  lemma Cancel(sum: real, p: real, c: real)
    requires p != 0.0 && sum == p * c
    ensures sum / p == c
  {
  }

  /** Fewer values than the window have no average. */
  lemma AverageNeeds(p: Window, values: seq<real>)
    ensures Sma(p, values).Some? <==> |values| >= p
  {
  }

  lemma {:induction false} SumIsPositive(values: seq<real>, from: nat, to: nat)
    requires to <= |values| && forall i :: 0 <= i < |values| ==> values[i] > 0.0
    ensures SumOf(values, from, to) >= 0.0 && (from < to ==> SumOf(values, from, to) > 0.0)
  {
    if from < to { SumIsPositive(values, from, to - 1); }
  }

  /** Averages of prices are prices: the value object that refuses other numbers never throws. */
  lemma SmaIsPositive(p: Window, values: seq<real>)
    requires forall i :: 0 <= i < |values| ==> values[i] > 0.0
    ensures Sma(p, values).Some? ==> Sma(p, values).value > 0.0
  {
    if |values| >= p {
      SumIsPositive(values, |values| - p, |values|);
    }
  }

  // ---------------------------------------------------------------- Reconciliation

  /**
   Whatever state a ledger is in, reconciling it with a series leaves it indistinguishable
   from a new ledger warmed up on that series: the same state, snapshots and values after
   every run of later events.
   */
  lemma {:induction false} ReconciledIsFresh(l: Ledger, closes: seq<real>, events: seq<Event>)
    ensures var reconciled := OnEvents(LedgerReseeded(l, closes), events);
            var rebuilt := OnEvents(LedgerWarmedUp(NewLedger(l.short.p, l.long.p), closes), events);
            reconciled == rebuilt
            == BatchLedger(l.short.p, l.long.p, closes + ClosesOf(events), ProvisionalOf(events))
  {
    LedgerIsBatch(l.short.p, l.long.p, closes, events);
  }

  /** The snapshot a series of closes stands for: the current averages and those one close earlier. */
  function MeansOf(shortPeriod: Window, longPeriod: Window, closes: seq<real>): Option<SmaSnapshot> {
    if |closes| < shortPeriod || |closes| < longPeriod then None
    else Some(SmaSnapshot(Sma(shortPeriod, closes).value, Sma(longPeriod, closes).value,
                          Sma(shortPeriod, if |closes| > shortPeriod then ButLast(closes) else closes).value,
                          Sma(longPeriod, if |closes| > longPeriod then ButLast(closes) else closes).value))
  }

  /**
   A reconciliation of any ledger that stands for some closes: it reports their averages before, the official
   ones after, and a correction exactly when one of the four differs or only one of them exists.
   */
  lemma CorrectsExactly(shortPeriod: Window, longPeriod: Window, closes: seq<real>, f: Option<real>, official: seq<real>)
    ensures var r := ReconciliationOf(BatchLedger(shortPeriod, longPeriod, closes, f), official);
            var was, now := MeansOf(shortPeriod, longPeriod, closes), MeansOf(shortPeriod, longPeriod, official);
            && r.before == was && r.after == now
            && (r.corrected <==> if was.None? || now.None? then was.Some? || now.Some?
                                 else was.value.short != now.value.short || was.value.long != now.value.long
                                      || was.value.previousShort != now.value.previousShort
                                      || was.value.previousLong != now.value.previousLong)
  {
    var l := BatchLedger(shortPeriod, longPeriod, closes, f);
    FreshIsBatch(shortPeriod, official);
    FreshIsBatch(longPeriod, official);
    SnapshotIsMeans(shortPeriod, longPeriod, closes, f);
    SnapshotIsMeans(shortPeriod, longPeriod, official, None);
    assert LedgerReseeded(l, official) == BatchLedger(shortPeriod, longPeriod, official, None);
  }

  lemma SnapshotIsMeans(shortPeriod: Window, longPeriod: Window, closes: seq<real>, f: Option<real>)
    ensures SnapshotOrNull(BatchLedger(shortPeriod, longPeriod, closes, f)) == MeansOf(shortPeriod, longPeriod, closes)
  {
    var l := BatchLedger(shortPeriod, longPeriod, closes, f);
    if |closes| >= shortPeriod && |closes| >= longPeriod {
      ValuesAreMeans(shortPeriod, longPeriod, closes, f);
      assert SnapshotOrNull(l) == Some(CurrentValues(l).value.confirmed);
    } else {
      assert !Stable(l);
    }
  }

  predicate OnlyUpdates(events: seq<Event>) {
    forall e :: e in events ==> e.FormingUpdated?
  }

  lemma {:induction false} UpdatesKeepSnapshot(l: Ledger, events: seq<Event>)
    requires OnlyUpdates(events)
    ensures SnapshotOrNull(OnEvents(l, events)) == SnapshotOrNull(l)
    ensures OnEvents(l, events).short.p == l.short.p && OnEvents(l, events).long.p == l.long.p
  {
    if events != [] {
      var init, e := events[..|events| - 1], events[|events| - 1];
      assert e in events;
      UpdatesKeepSnapshot(l, init);
    }
  }

  /** Reconciling again with the same series, with only forming updates in between, corrects nothing. */
  lemma SecondReconcileCorrectsNothing(l: Ledger, closes: seq<real>, events: seq<Event>)
    requires OnlyUpdates(events)
    ensures !ReconciliationOf(OnEvents(LedgerReseeded(l, closes), events), closes).corrected
  {
    UpdatesKeepSnapshot(LedgerReseeded(l, closes), events);
    ReconciledIsFresh(l, closes, []);
  }
}
