/**
 Candles built tick by tick, and what they are in batch: per period, the first, largest,
 smallest and last bid.
 */
module Candles {
  import opened Outcomes

  datatype TimeFrame = ONE_MINUTE | FIFTEEN_MINUTE | ONE_HOUR | ONE_DAY

  const LIVE_TIMEFRAMES: seq<TimeFrame> := [ONE_MINUTE, FIFTEEN_MINUTE, ONE_HOUR, ONE_DAY]

  function DurationMs(tf: TimeFrame): (ms: int)
    ensures ms > 0
  {
    match tf
    case ONE_MINUTE => 60_000
    case FIFTEEN_MINUTE => 900_000
    case ONE_HOUR => 3_600_000
    case ONE_DAY => 86_400_000
  }

  /** Times are epoch milliseconds. */
  datatype Tick = Tick(time: int, bid: real, ask: real)

  datatype Candle = Candle(open: real, high: real, low: real, close: real, openTime: int, closeTime: int, tf: TimeFrame)

  function Closes(cs: seq<Candle>): seq<real> {
    seq(|cs|, i requires 0 <= i < |cs| => cs[i].close)
  }

  /** The value of a forming candle. Its open time is the time of its first tick. */
  datatype Forming = Forming(open: real, high: real, low: real, close: real, openTime: int)

  datatype Accumulator = Accumulator(forming: Option<Forming>, lastConfirmed: Option<Candle>)

  /** The period a time falls in (Math.floor: also below the epoch). */
  function Period(time: int, tf: TimeFrame): int {
    match tf
    case ONE_MINUTE => time / 60_000
    case FIFTEEN_MINUTE => time / 900_000
    case ONE_HOUR => time / 3_600_000
    case ONE_DAY => time / 86_400_000
  }

  /** Where a period starts, in epoch milliseconds. */
  function PeriodStart(q: int, tf: TimeFrame): int {
    match tf
    case ONE_MINUTE => q * 60_000
    case FIFTEEN_MINUTE => q * 900_000
    case ONE_HOUR => q * 3_600_000
    case ONE_DAY => q * 86_400_000
  }

  function Opened(tick: Tick): Forming {
    Forming(tick.bid, tick.bid, tick.bid, tick.bid, tick.time)
  }

  function Grown(f: Forming, bid: real): Forming {
    f.(high := if bid > f.high then bid else f.high, low := if f.low > bid then bid else f.low, close := bid)
  }

  function Confirmed(f: Forming, tf: TimeFrame): Candle {
    Candle(f.open, f.high, f.low, f.close, f.openTime, PeriodStart(Period(f.openTime, tf) + 1, tf), tf)
  }

  predicate Sound(f: Forming) {
    f.low <= f.open <= f.high && f.low <= f.close <= f.high
  }

  /** What the factory of confirmed candles demands; it throws otherwise. */
  predicate Acceptable(c: Candle) {
    c.open <= c.high && c.close <= c.high && c.low <= c.open && c.low <= c.close && c.low <= c.high
    && c.openTime < c.closeTime
  }

  /** Whether the tick ends the forming candle. */
  predicate Ends(a: Accumulator, tick: Tick, tf: TimeFrame) {
    a.forming.Some? && Period(tick.time, tf) != Period(a.forming.value.openTime, tf)
  }

  function Accumulated(a: Accumulator, tick: Tick, tf: TimeFrame): Accumulator {
    if a.forming.None? then a.(forming := Some(Opened(tick)))
    else if Ends(a, tick, tf) then Accumulator(Some(Opened(tick)), Some(Confirmed(a.forming.value, tf)))
    else a.(forming := Some(Grown(a.forming.value, tick.bid)))
  }

  /** `reconcileLastConfirmed` accepts an official candle of the same time frame that opened
      before the forming candle's first tick. */
  predicate Reconcilable(a: Accumulator, official: Candle, tf: TimeFrame) {
    official.tf == tf && (a.forming.Some? ==> official.openTime < a.forming.value.openTime)
  }

  // ---------------------------------------------------------------- The mutable objects

  class FormingCandle {
    const open: real
    const openTime: int
    var high: real
    var low: real
    var close: real
    var confirmed: bool

    function Value(): Forming
      reads this
    {
      Forming(open, high, low, close, openTime)
    }

    constructor Open(tick: Tick)
      ensures Value() == Opened(tick) && !confirmed
      ensures open == high == low == close == tick.bid && openTime == tick.time
    {
      open, openTime := tick.bid, tick.time;
      high, low, close := tick.bid, tick.bid, tick.bid;
      confirmed := false;
    }

    /** Throws once the candle is confirmed. */
    method Update(tick: Tick) returns (r: Result<(), string>)
      modifies this
      ensures r.Ok? <==> !old(confirmed)
      ensures Value() == if r.Ok? then Grown(old(Value()), tick.bid) else old(Value())
      ensures confirmed == old(confirmed)
      ensures r.Ok? ==> close == tick.bid && high == (if tick.bid > old(high) then tick.bid else old(high))
                        && low == (if tick.bid < old(low) then tick.bid else old(low))
    {
      if confirmed { return Err("already confirmed"); }
      if tick.bid > high { high := tick.bid; }
      if low > tick.bid { low := tick.bid; }
      close := tick.bid;
      r := Ok(());
    }

    method Confirm()
      modifies this
      ensures confirmed && Value() == old(Value())
    {
      confirmed := true;
    }
  }

  class CandleAccumulator {
    const tf: TimeFrame
    var forming: FormingCandle?
    var lastConfirmed: Option<Candle>

    ghost predicate Valid()
      reads this, forming
    {
      forming != null ==> !forming.confirmed && Sound(forming.Value())
    }

    function State(): Accumulator
      reads this, forming
    {
      Accumulator(if forming == null then None else Some(forming.Value()), lastConfirmed)
    }

    constructor (tf: TimeFrame)
      ensures this.tf == tf && Valid() && State() == Accumulator(None, None) && forming == null
    {
      this.tf, forming, lastConfirmed := tf, null, None;
    }

    /** True when a candle was confirmed. A candle under way is grown in place; a new period
        gets a new object. */
    method Accumulate(tick: Tick) returns (confirmed: bool)
      requires Valid()
      modifies this, forming
      ensures Valid() && (forming == old(forming) || fresh(forming))
      ensures forming != null
      ensures State() == Accumulated(old(State()), tick, tf)
      ensures confirmed <==> Ends(old(State()), tick, tf)
      ensures confirmed ==> Acceptable(lastConfirmed.value)
      ensures confirmed <==> old(forming) != null
                             && tick.time / DurationMs(tf) != old(forming).openTime / DurationMs(tf)
      ensures old(forming) == null || confirmed ==>
                fresh(forming) && forming.Value() == Forming(tick.bid, tick.bid, tick.bid, tick.bid, tick.time)
      ensures old(forming) != null && !confirmed ==> forming == old(forming) && forming.close == tick.bid
      ensures if confirmed
              then lastConfirmed == Some(Candle(old(forming).open, old(forming.high), old(forming.low), old(forming.close),
                                                old(forming).openTime,
                                                (old(forming).openTime / DurationMs(tf) + 1) * DurationMs(tf), tf))
              else lastConfirmed == old(lastConfirmed)
    {
      var duration := DurationMs(tf);
      var tickPeriodStart := tick.time / duration * duration;
      if forming == null {
        forming := new FormingCandle.Open(tick);
        return false;
      }
      var formingPeriodStart := forming.openTime / duration * duration;
      StartOfPeriod(tick.time, tf);
      StartOfPeriod(forming.openTime, tf);
      PeriodIsQuotient(tick.time, tf);
      PeriodIsQuotient(forming.openTime, tf);
      if tickPeriodStart == formingPeriodStart {
        var updated := forming.Update(tick);
        return false;
      }
      var closeTime := formingPeriodStart + duration;
      forming.Confirm();
      lastConfirmed := Some(Candle(forming.open, forming.high, forming.low, forming.close, forming.openTime, closeTime, tf));
      forming := new FormingCandle.Open(tick);
      confirmed := true;
    }

    /** Throws on an empty history. */
    method SeedHistory(candles: seq<Candle>) returns (r: Result<(), string>)
      modifies this`lastConfirmed
      ensures r.Ok? <==> candles != []
      ensures lastConfirmed == if candles != [] then Some(candles[|candles| - 1]) else old(lastConfirmed)
    {
      if |candles| == 0 { return Err("empty history"); }
      lastConfirmed := Some(candles[|candles| - 1]);
      r := Ok(());
    }

    method ReconcileLastConfirmed(official: Candle) returns (r: Result<(), string>)
      modifies this`lastConfirmed
      ensures r.Ok? <==> Reconcilable(old(State()), official, tf)
      ensures r.Ok? <==> official.tf == tf && (forming == null || official.openTime < forming.openTime)
      ensures lastConfirmed == if r.Ok? then Some(official) else old(lastConfirmed)
    {
      if official.tf != tf { return Err("other time frame"); }
      if forming != null && official.openTime >= forming.openTime {
        return Err("official candle reaches into the forming candle");
      }
      lastConfirmed := Some(official);
      r := Ok(());
    }
  }

  lemma PeriodIsQuotient(time: int, tf: TimeFrame)
    ensures Period(time, tf) == time / DurationMs(tf)
  {
  }

  /** A quarter of an hour, an hour and a day in minutes, and a minute in milliseconds. */
  lemma DurationsNest()
    ensures DurationMs(ONE_DAY) == 24 * DurationMs(ONE_HOUR) && DurationMs(ONE_HOUR) == 4 * DurationMs(FIFTEEN_MINUTE)
    ensures DurationMs(FIFTEEN_MINUTE) == 15 * DurationMs(ONE_MINUTE) && DurationMs(ONE_MINUTE) == 60 * 1000
  {
  }

  lemma StartOfPeriod(time: int, tf: TimeFrame)
    ensures time / DurationMs(tf) * DurationMs(tf) == PeriodStart(Period(time, tf), tf)
    ensures PeriodStart(Period(time, tf) + 1, tf) == PeriodStart(Period(time, tf), tf) + DurationMs(tf)
    ensures PeriodStart(Period(time, tf), tf) <= time < PeriodStart(Period(time, tf) + 1, tf)
  {
    match tf
    case ONE_MINUTE =>
    case FIFTEEN_MINUTE =>
    case ONE_HOUR =>
    case ONE_DAY =>
  }

  // ---------------------------------------------------------------- A stream of ticks

  /** The accumulator after the ticks, and the candles it confirmed on the way. */
  datatype Fed = Fed(acc: Accumulator, bars: seq<Candle>)

  function Feed(a: Accumulator, ticks: seq<Tick>, tf: TimeFrame): Fed {
    if ticks == [] then Fed(a, [])
    else
      var before := Feed(a, ticks[..|ticks| - 1], tf);
      var tick := ticks[|ticks| - 1];
      var after := Accumulated(before.acc, tick, tf);
      Fed(after, before.bars + if Ends(before.acc, tick, tf) then [after.lastConfirmed.value] else [])
  }

  lemma {:induction false} FeedAppends(a: Accumulator, xs: seq<Tick>, ys: seq<Tick>, tf: TimeFrame)
    ensures var mid := Feed(a, xs, tf);
            var end := Feed(mid.acc, ys, tf);
            Feed(a, xs + ys, tf) == Fed(end.acc, mid.bars + end.bars)
  {
    if ys == [] {
      assert xs + ys == xs;
    } else {
      var init := ys[..|ys| - 1];
      assert (xs + ys)[..|xs + ys| - 1] == xs + init;
      FeedAppends(a, xs, init, tf);
    }
  }

  // ---------------------------------------------------------------- The batch definition

  /** The ticks of one period, in order. */
  function InPeriod(ticks: seq<Tick>, q: int, tf: TimeFrame): seq<Tick> {
    if ticks == [] then []
    else
      var init, last := ticks[..|ticks| - 1], ticks[|ticks| - 1];
      if Period(last.time, tf) == q then InPeriod(init, q, tf) + [last] else InPeriod(init, q, tf)
  }

  /** The periods that have ticks, by first appearance. */
  function Periods(ticks: seq<Tick>, tf: TimeFrame): seq<int> {
    if ticks == [] then []
    else
      var qs := Periods(ticks[..|ticks| - 1], tf);
      var q := Period(ticks[|ticks| - 1].time, tf);
      if q in qs then qs else qs + [q]
  }

  /** The periods listed are exactly those that have ticks. */
  lemma {:induction false} ListedIffNonEmpty(ticks: seq<Tick>, q: int, tf: TimeFrame)
    ensures q in Periods(ticks, tf) <==> InPeriod(ticks, q, tf) != []
  {
    if ticks != [] {
      ListedIffNonEmpty(ticks[..|ticks| - 1], q, tf);
    }
  }

  lemma {:induction false} GroupIsOfItsPeriod(ticks: seq<Tick>, q: int, tf: TimeFrame)
    requires InPeriod(ticks, q, tf) != []
    ensures Period(InPeriod(ticks, q, tf)[0].time, tf) == q
  {
    var init := ticks[..|ticks| - 1];
    if InPeriod(init, q, tf) != [] { GroupIsOfItsPeriod(init, q, tf); }
  }

  function LargestBid(ticks: seq<Tick>): real
    requires ticks != []
  {
    var last := ticks[|ticks| - 1].bid;
    if |ticks| == 1 then last
    else
      var m := LargestBid(ticks[..|ticks| - 1]);
      if last > m then last else m
  }

  function SmallestBid(ticks: seq<Tick>): real
    requires ticks != []
  {
    var last := ticks[|ticks| - 1].bid;
    if |ticks| == 1 then last
    else
      var m := SmallestBid(ticks[..|ticks| - 1]);
      if m > last then last else m
  }

  lemma {:induction false} BidsAreWithin(ticks: seq<Tick>, i: nat)
    requires i < |ticks|
    ensures SmallestBid(ticks) <= ticks[i].bid <= LargestBid(ticks)
  {
    if i < |ticks| - 1 { BidsAreWithin(ticks[..|ticks| - 1], i); }
  }

  lemma {:induction false} BoundsAreBids(ticks: seq<Tick>) returns (i: nat, j: nat)
    requires ticks != []
    ensures i < |ticks| && ticks[i].bid == SmallestBid(ticks)
    ensures j < |ticks| && ticks[j].bid == LargestBid(ticks)
  {
    var n := |ticks| - 1;
    if n == 0 { return 0, 0; }
    i, j := BoundsAreBids(ticks[..n]);
    if SmallestBid(ticks) == ticks[n].bid { i := n; }
    if LargestBid(ticks) == ticks[n].bid { j := n; }
  }

  /** First, largest, smallest and last bid. */
  function BarOf(ticks: seq<Tick>): Forming
    requires ticks != []
  {
    Forming(ticks[0].bid, LargestBid(ticks), SmallestBid(ticks), ticks[|ticks| - 1].bid, ticks[0].time)
  }

  function BatchBar(group: seq<Tick>, q: int, tf: TimeFrame): Candle
    requires group != []
  {
    var b := BarOf(group);
    Candle(b.open, b.high, b.low, b.close, b.openTime, PeriodStart(q + 1, tf), tf)
  }

  lemma {:induction false} GroupHasTick(ticks: seq<Tick>, q: int, tf: TimeFrame, t: Tick)
    ensures t in InPeriod(ticks, q, tf) <==> t in ticks && Period(t.time, tf) == q
  {
    if ticks != [] {
      GroupHasTick(ticks[..|ticks| - 1], q, tf, t);
      assert ticks == ticks[..|ticks| - 1] + [ticks[|ticks| - 1]];
    }
  }

  lemma {:induction false} GroupEnds(ticks: seq<Tick>, q: int, tf: TimeFrame, n: nat, m: nat)
    requires n <= m < |ticks| && Period(ticks[n].time, tf) == q == Period(ticks[m].time, tf)
    requires forall i :: 0 <= i < n || m < i < |ticks| ==> Period(ticks[i].time, tf) != q
    ensures var g := InPeriod(ticks, q, tf); g != [] && g[0] == ticks[n] && g[|g| - 1] == ticks[m]
  {
    var init := ticks[..|ticks| - 1];
    if m < |ticks| - 1 {
      GroupEnds(init, q, tf, n, m);
    } else if n == m {
      NoGroup(init, q, tf);
    } else {
      var k := LastOf(init, q, tf, n);
      GroupEnds(init, q, tf, n, k);
    }
  }

  lemma {:induction false} NoGroup(ticks: seq<Tick>, q: int, tf: TimeFrame)
    requires forall i :: 0 <= i < |ticks| ==> Period(ticks[i].time, tf) != q
    ensures InPeriod(ticks, q, tf) == []
  {
    if ticks != [] { NoGroup(ticks[..|ticks| - 1], q, tf); }
  }

  lemma {:induction false} LastOf(ticks: seq<Tick>, q: int, tf: TimeFrame, n: nat) returns (m: nat)
    requires n < |ticks| && Period(ticks[n].time, tf) == q
    ensures n <= m < |ticks| && Period(ticks[m].time, tf) == q
    ensures forall i :: m < i < |ticks| ==> Period(ticks[i].time, tf) != q
  {
    m := |ticks| - 1;
    if Period(ticks[m].time, tf) != q { m := LastOf(ticks[..m], q, tf, n); }
  }

  /**
   What the candle of a period shows of the ticks: the bid and the time of the first tick in it, the bid of the
   last one, no bid outside its high and low, both of them bids of the period, and a close on the period's end.
   */
  lemma BarShowsTicks(ticks: seq<Tick>, q: int, tf: TimeFrame, n: nat, m: nat)
    requires n <= m < |ticks| && Period(ticks[n].time, tf) == q == Period(ticks[m].time, tf)
    requires forall i :: 0 <= i < n || m < i < |ticks| ==> Period(ticks[i].time, tf) != q
    ensures InPeriod(ticks, q, tf) != []
    ensures var c := BatchBar(InPeriod(ticks, q, tf), q, tf);
            && c.open == ticks[n].bid && c.openTime == ticks[n].time && c.close == ticks[m].bid
            && c.closeTime == (q + 1) * DurationMs(tf) && c.tf == tf
            && (forall t :: t in ticks && t.time / DurationMs(tf) == q ==> c.low <= t.bid <= c.high)
            && (exists t :: t in ticks && t.time / DurationMs(tf) == q && t.bid == c.low)
            && (exists t :: t in ticks && t.time / DurationMs(tf) == q && t.bid == c.high)
  {
    var g := InPeriod(ticks, q, tf);
    GroupEnds(ticks, q, tf, n, m);
    StartIsMultiple(q + 1, tf);
    forall t ensures t in g <==> t in ticks && t.time / DurationMs(tf) == q {
      GroupHasTick(ticks, q, tf, t);
      PeriodIsQuotient(t.time, tf);
    }
    forall t | t in g ensures SmallestBid(g) <= t.bid <= LargestBid(g) {
      var i :| 0 <= i < |g| && g[i] == t;
      BidsAreWithin(g, i);
    }
    var i, j := BoundsAreBids(g);
    assert g[i] in g && g[j] in g;
  }

  lemma StartIsMultiple(q: int, tf: TimeFrame)
    ensures PeriodStart(q, tf) == q * DurationMs(tf)
  {
  }

  /** The candles of the given periods; a period without ticks has none. */
  function Bars(ticks: seq<Tick>, qs: seq<int>, tf: TimeFrame): seq<Candle> {
    if qs == [] then []
    else
      var q := qs[|qs| - 1];
      var group := InPeriod(ticks, q, tf);
      Bars(ticks, qs[..|qs| - 1], tf) + if group == [] then [] else [BatchBar(group, q, tf)]
  }

  /** Every period with ticks but the last, each once, as a candle. */
  function BatchBars(ticks: seq<Tick>, tf: TimeFrame): seq<Candle> {
    Bars(ticks, ButLast(Periods(ticks, tf)), tf)
  }

  ghost predicate Nondecreasing(ticks: seq<Tick>) {
    forall i, j :: 0 <= i < j < |ticks| ==> ticks[i].time <= ticks[j].time
  }

  ghost predicate PeriodsAscend(qs: seq<int>) {
    forall i, j :: 0 <= i < j < |qs| ==> qs[i] < qs[j]
  }

  lemma PeriodIsMonotone(a: int, b: int, tf: TimeFrame)
    requires a <= b
    ensures Period(a, tf) <= Period(b, tf)
  {
  }

  /** With nondecreasing times the periods appear in increasing order and the last tick is in
      the last one. */
  lemma {:induction false} PeriodsIncrease(ticks: seq<Tick>, tf: TimeFrame)
    requires Nondecreasing(ticks) && ticks != []
    ensures PeriodsAscend(Periods(ticks, tf)) && Periods(ticks, tf) != []
    ensures Periods(ticks, tf)[|Periods(ticks, tf)| - 1] == Period(ticks[|ticks| - 1].time, tf)
  {
    var init, last := ticks[..|ticks| - 1], ticks[|ticks| - 1];
    var q := Period(last.time, tf);
    if init == [] {
      assert Periods(init, tf) == [];
    } else {
      PeriodsIncrease(init, tf);
      PeriodIsMonotone(init[|init| - 1].time, last.time, tf);
      OneMore(Periods(init, tf), q);
    }
  }

  lemma OneMore(qs: seq<int>, q: int)
    requires qs != [] && qs[|qs| - 1] <= q && PeriodsAscend(qs)
    ensures q in qs <==> q == qs[|qs| - 1]
    ensures q !in qs ==> PeriodsAscend(qs + [q])
    ensures qs[|qs| - 1] !in ButLast(qs)
  {
    forall i | 0 <= i < |qs| - 1 ensures qs[i] < qs[|qs| - 1] {
    }
  }

  lemma GroupGrows(g: seq<Tick>, last: Tick)
    requires g != []
    ensures BarOf(g + [last]) == Grown(BarOf(g), last.bid)
  {
    assert (g + [last])[..|g|] == g;
  }

  lemma {:induction false} SameGroupsSameBars(xs: seq<Tick>, ys: seq<Tick>, qs: seq<int>, tf: TimeFrame)
    requires forall q :: q in qs ==> InPeriod(xs, q, tf) == InPeriod(ys, q, tf)
    ensures Bars(xs, qs, tf) == Bars(ys, qs, tf)
  {
    if qs != [] {
      assert qs[|qs| - 1] in qs;
      SameGroupsSameBars(xs, ys, qs[..|qs| - 1], tf);
    }
  }

  /** What an accumulator has done with the ticks, in batch terms. */
  ghost predicate IsBatch(fed: Fed, before: Option<Candle>, ticks: seq<Tick>, tf: TimeFrame) {
    && ticks != []
    && var group := InPeriod(ticks, Period(ticks[|ticks| - 1].time, tf), tf);
    && group != []
    && fed.acc.forming == Some(BarOf(group))
    && fed.bars == BatchBars(ticks, tf)
    && fed.acc.lastConfirmed == if fed.bars == [] then before else Some(fed.bars[|fed.bars| - 1])
  }

  /**
   Tick by tick equals batch: after any nondecreasing ticks, the confirmed candles are exactly
   the batch candles of all periods but the last, in order, and the forming candle is the
   batch candle of the last period so far.
   */
  lemma {:induction false} CandlesAreBatch(a: Accumulator, ticks: seq<Tick>, tf: TimeFrame)
    requires a.forming.None? && Nondecreasing(ticks) && ticks != []
    ensures IsBatch(Feed(a, ticks, tf), a.lastConfirmed, ticks, tf)
  {
    var init, last := ticks[..|ticks| - 1], ticks[|ticks| - 1];
    if init == [] {
      FirstTick(a, ticks, tf);
    } else {
      CandlesAreBatch(a, init, tf);
      PeriodsIncrease(init, tf);
      PeriodIsMonotone(init[|init| - 1].time, last.time, tf);
      OneMore(Periods(init, tf), Period(last.time, tf));
      if Period(last.time, tf) == Period(init[|init| - 1].time, tf) {
        SamePeriodTick(a, ticks, tf);
      } else {
        NewPeriodTick(a, ticks, tf);
      }
    }
  }

  lemma SamePeriodTick(a: Accumulator, ticks: seq<Tick>, tf: TimeFrame)
    requires |ticks| > 1
    requires var init := ticks[..|ticks| - 1];
             var ps := Periods(init, tf);
             && IsBatch(Feed(a, init, tf), a.lastConfirmed, init, tf)
             && ps != [] && ps[|ps| - 1] == Period(ticks[|ticks| - 1].time, tf) && ps[|ps| - 1] !in ButLast(ps)
             && Period(init[|init| - 1].time, tf) == Period(ticks[|ticks| - 1].time, tf)
    ensures IsBatch(Feed(a, ticks, tf), a.lastConfirmed, ticks, tf)
  {
    var init, last := ticks[..|ticks| - 1], ticks[|ticks| - 1];
    var q := Period(last.time, tf);
    var group := InPeriod(init, q, tf);
    GroupIsOfItsPeriod(init, q, tf);
    GroupGrows(group, last);
    BarsStay(ticks, tf);
  }

  lemma NewPeriodTick(a: Accumulator, ticks: seq<Tick>, tf: TimeFrame)
    requires |ticks| > 1
    requires var init := ticks[..|ticks| - 1];
             var ps := Periods(init, tf);
             && IsBatch(Feed(a, init, tf), a.lastConfirmed, init, tf)
             && ps != [] && ps[|ps| - 1] == Period(init[|init| - 1].time, tf)
             && Period(ticks[|ticks| - 1].time, tf) !in ps
    ensures IsBatch(Feed(a, ticks, tf), a.lastConfirmed, ticks, tf)
  {
    var init := ticks[..|ticks| - 1];
    var p := Period(init[|init| - 1].time, tf);
    ListedIffNonEmpty(init, p, tf);
    NewPeriodFeed(a, ticks, tf);
    BarsGrow(ticks, tf);
    NewPeriodGroup(ticks, tf);
  }

  /** The tick confirms the batch candle of the period before and opens its own. */
  lemma NewPeriodFeed(a: Accumulator, ticks: seq<Tick>, tf: TimeFrame)
    requires |ticks| > 1
    requires var init := ticks[..|ticks| - 1];
             && IsBatch(Feed(a, init, tf), a.lastConfirmed, init, tf)
             && Period(ticks[|ticks| - 1].time, tf) != Period(init[|init| - 1].time, tf)
    ensures var init := ticks[..|ticks| - 1];
            var p := Period(init[|init| - 1].time, tf);
            var bar := BatchBar(InPeriod(init, p, tf), p, tf);
            Feed(a, ticks, tf) == Fed(Accumulator(Some(Opened(ticks[|ticks| - 1])), Some(bar)), Feed(a, init, tf).bars + [bar])
  {
    var init := ticks[..|ticks| - 1];
    var p := Period(init[|init| - 1].time, tf);
    GroupIsOfItsPeriod(init, p, tf);
    ConfirmedIsBatch(InPeriod(init, p, tf), p, tf);
    EndingTick(a, ticks, tf);
  }

  lemma ConfirmedIsBatch(group: seq<Tick>, q: int, tf: TimeFrame)
    requires group != [] && Period(group[0].time, tf) == q
    ensures BarOf(group).openTime == group[0].time && Confirmed(BarOf(group), tf) == BatchBar(group, q, tf)
  {
  }

  lemma EndingTick(a: Accumulator, ticks: seq<Tick>, tf: TimeFrame)
    requires ticks != [] && Ends(Feed(a, ticks[..|ticks| - 1], tf).acc, ticks[|ticks| - 1], tf)
    ensures var before := Feed(a, ticks[..|ticks| - 1], tf);
            var bar := Confirmed(before.acc.forming.value, tf);
            Feed(a, ticks, tf) == Fed(Accumulator(Some(Opened(ticks[|ticks| - 1])), Some(bar)), before.bars + [bar])
  {
  }

  lemma NewPeriodGroup(ticks: seq<Tick>, tf: TimeFrame)
    requires ticks != [] && Period(ticks[|ticks| - 1].time, tf) !in Periods(ticks[..|ticks| - 1], tf)
    ensures InPeriod(ticks, Period(ticks[|ticks| - 1].time, tf), tf) == [ticks[|ticks| - 1]]
    ensures BarOf([ticks[|ticks| - 1]]) == Opened(ticks[|ticks| - 1])
  {
    ListedIffNonEmpty(ticks[..|ticks| - 1], Period(ticks[|ticks| - 1].time, tf), tf);
  }

  lemma FirstTick(a: Accumulator, ticks: seq<Tick>, tf: TimeFrame)
    requires a.forming.None? && |ticks| == 1
    ensures IsBatch(Feed(a, ticks, tf), a.lastConfirmed, ticks, tf)
  {
    assert ticks[..0] == [];
    assert Feed(a, ticks[..0], tf) == Fed(a, []);
    assert Periods(ticks[..0], tf) == [];
    assert InPeriod(ticks, Period(ticks[0].time, tf), tf) == [ticks[0]];
    assert ButLast(Periods(ticks, tf)) == [];
  }

  /** Another tick of the last period changes no confirmed candle. */
  lemma BarsStay(ticks: seq<Tick>, tf: TimeFrame)
    requires |ticks| > 1
    requires var ps := Periods(ticks[..|ticks| - 1], tf);
             ps != [] && ps[|ps| - 1] == Period(ticks[|ticks| - 1].time, tf) && ps[|ps| - 1] !in ButLast(ps)
    ensures BatchBars(ticks, tf) == BatchBars(ticks[..|ticks| - 1], tf)
  {
    var init := ticks[..|ticks| - 1];
    var ps := Periods(init, tf);
    var q := ps[|ps| - 1];
    assert q in ps;
    SameGroupsSameBars(ticks, init, ButLast(ps), tf);
  }

  /** The first tick of a new period confirms the candle of the one before. */
  lemma BarsGrow(ticks: seq<Tick>, tf: TimeFrame)
    requires |ticks| > 1
    requires var ps := Periods(ticks[..|ticks| - 1], tf);
             ps != [] && Period(ticks[|ticks| - 1].time, tf) !in ps
             && InPeriod(ticks[..|ticks| - 1], ps[|ps| - 1], tf) != []
    ensures var init := ticks[..|ticks| - 1];
            var q := Periods(init, tf)[|Periods(init, tf)| - 1];
            BatchBars(ticks, tf) == BatchBars(init, tf) + [BatchBar(InPeriod(init, q, tf), q, tf)]
  {
    var init := ticks[..|ticks| - 1];
    var ps := Periods(init, tf);
    assert ButLast(Periods(ticks, tf)) == ps;
    forall q | q in ps ensures InPeriod(ticks, q, tf) == InPeriod(init, q, tf) {
    }
    SameGroupsSameBars(ticks, init, ps, tf);
  }
}
