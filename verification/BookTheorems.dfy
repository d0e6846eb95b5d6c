/**
 What a book entry is after any run of ticks and reconciliations: the batch definition over
 the confirmed series.
 */
module BookTheorems {
  import opened Outcomes
  import opened Candles
  import opened TimeFrameBook

  datatype Input = TickIn(tick: Tick) | ReconcileIn(official: seq<Candle>)

  function Step(e: Entry, input: Input): Entry {
    match input
    case TickIn(tick) => Processed(e, tick)
    case ReconcileIn(official) => Reconciled(e, official)
  }

  function Run(e: Entry, inputs: seq<Input>): Entry {
    if inputs == [] then e else Step(Run(e, inputs[..|inputs| - 1]), inputs[|inputs| - 1])
  }

  function TicksOf(inputs: seq<Input>): seq<Tick> {
    if inputs == [] then []
    else
      var last := inputs[|inputs| - 1];
      TicksOf(inputs[..|inputs| - 1]) + if last.TickIn? then [last.tick] else []
  }

  /** The confirmed series: what was warmed up or officially taken over last, and the bars since. */
  function SeriesStep(e: Entry, series: seq<Candle>, input: Input): seq<Candle> {
    match input
    case TickIn(tick) => if Ends(e.acc, tick, e.tf) then series + [Confirmed(e.acc.forming.value, e.tf)] else series
    case ReconcileIn(official) => if Takes(e, official) then official else series
  }

  function Series(e: Entry, history: seq<Candle>, inputs: seq<Input>): seq<Candle> {
    if inputs == [] then history
    else
      var init := inputs[..|inputs| - 1];
      SeriesStep(Run(e, init), Series(e, history, init), inputs[|inputs| - 1])
  }

  /** The bid of the last tick, unless a reconciliation has been taken over since. */
  function Provisional(e: Entry, inputs: seq<Input>): Option<real> {
    if inputs == [] then None
    else
      var init := inputs[..|inputs| - 1];
      match inputs[|inputs| - 1]
      case TickIn(tick) => Some(tick.bid)
      case ReconcileIn(official) => if Takes(Run(e, init), official) then None else Provisional(e, init)
  }

  function Start(tf: TimeFrame, shortPeriod: SmaLedger.Window, longPeriod: SmaLedger.Window, history: seq<Candle>): Entry {
    WarmedUp(NewEntry(tf, shortPeriod, longPeriod), history)
  }

  /** The batch definition of an entry. */
  ghost predicate IsBatchOf(e: Entry, shortPeriod: SmaLedger.Window, longPeriod: SmaLedger.Window,
                            forming: Option<Forming>, series: seq<Candle>, provisional: Option<real>) {
    && series != [] && AllOf(e.tf, series)
    && e.acc == Accumulator(forming, Some(Last(series)))
    && e.ledger == SmaLedger.BatchLedger(shortPeriod, longPeriod, Closes(series), provisional)
  }

  lemma CloseAdded(series: seq<Candle>, bar: Candle)
    ensures Closes(series + [bar]) == Closes(series) + [bar.close] && Last(series + [bar]) == bar
  {
  }

  lemma TickIsBatch(e: Entry, s: SmaLedger.Window, l: SmaLedger.Window, forming: Option<Forming>, series: seq<Candle>,
                    provisional: Option<real>, tick: Tick)
    requires IsBatchOf(e, s, l, forming, series, provisional)
    ensures IsBatchOf(Processed(e, tick), s, l, Accumulated(e.acc, tick, e.tf).forming,
                      SeriesStep(e, series, TickIn(tick)), Some(tick.bid))
  {
    var closes := Closes(series);
    if Ends(e.acc, tick, e.tf) {
      var bar := Confirmed(e.acc.forming.value, e.tf);
      CloseAdded(series, bar);
      SmaLedger.EventIsBatch(s, l, closes, provisional, SmaLedger.BarConfirmed(bar.close));
      SmaLedger.EventIsBatch(s, l, closes + [bar.close], None, SmaLedger.FormingUpdated(tick.bid));
    } else {
      SmaLedger.EventIsBatch(s, l, closes, provisional, SmaLedger.FormingUpdated(tick.bid));
    }
  }

  lemma ReconcileIsBatch(e: Entry, s: SmaLedger.Window, l: SmaLedger.Window, forming: Option<Forming>,
                         series: seq<Candle>, provisional: Option<real>, official: seq<Candle>)
    requires IsBatchOf(e, s, l, forming, series, provisional)
    ensures IsBatchOf(Reconciled(e, official), s, l, forming, SeriesStep(e, series, ReconcileIn(official)),
                      if Takes(e, official) then None else provisional)
  {
    if Takes(e, official) {
      SmaLedger.FreshIsBatch(s, Closes(official));
      SmaLedger.FreshIsBatch(l, Closes(official));
    }
  }

  /** The forming candle and the bars only depend on the ticks, never on what was confirmed before. */
  lemma {:induction false} FeedIgnoresLastConfirmed(a: Accumulator, b: Accumulator, ticks: seq<Tick>, tf: TimeFrame)
    requires a.forming == b.forming
    ensures Feed(a, ticks, tf).acc.forming == Feed(b, ticks, tf).acc.forming
    ensures Feed(a, ticks, tf).bars == Feed(b, ticks, tf).bars
  {
    if ticks != [] {
      FeedIgnoresLastConfirmed(a, b, ticks[..|ticks| - 1], tf);
    }
  }

  const NO_CANDLES := Accumulator(None, None)

  lemma {:induction false} FormingIsFed(e: Entry, inputs: seq<Input>)
    requires e.acc.forming.None?
    ensures Run(e, inputs).tf == e.tf
    ensures Run(e, inputs).acc.forming == Feed(NO_CANDLES, TicksOf(inputs), e.tf).acc.forming
  {
    if inputs != [] {
      var init, last := inputs[..|inputs| - 1], inputs[|inputs| - 1];
      FormingIsFed(e, init);
      if last.TickIn? {
        assert TicksOf(inputs)[..|TicksOf(inputs)| - 1] == TicksOf(init);
      } else {
        assert TicksOf(inputs) == TicksOf(init);
      }
    }
  }

  /**
   After any run of ticks and reconciliations, the entry is its batch definition: the forming
   candle is the one the ticks alone build, the last confirmed candle ends the series, and
   both averages are those of the series with the last bid as provisional close.
   */
  lemma {:induction false} RunIsBatch(tf: TimeFrame, s: SmaLedger.Window, l: SmaLedger.Window, history: seq<Candle>,
                                      inputs: seq<Input>)
    requires IsSeries(tf, history)
    ensures var e := Start(tf, s, l, history);
            && Run(e, inputs).tf == tf
            && IsBatchOf(Run(e, inputs), s, l, Feed(NO_CANDLES, TicksOf(inputs), tf).acc.forming,
                         Series(e, history, inputs), Provisional(e, inputs))
  {
    var e := Start(tf, s, l, history);
    FormingIsFed(e, inputs);
    if inputs == [] {
      SmaLedger.FreshIsBatch(s, Closes(history));
      SmaLedger.FreshIsBatch(l, Closes(history));
    } else {
      var init, last := inputs[..|inputs| - 1], inputs[|inputs| - 1];
      RunIsBatch(tf, s, l, history, init);
      var before := Run(e, init);
      if last.TickIn? {
        TickIsBatch(before, s, l, before.acc.forming, Series(e, history, init), Provisional(e, init), last.tick);
      } else {
        ReconcileIsBatch(before, s, l, before.acc.forming, Series(e, history, init), Provisional(e, init), last.official);
      }
    }
  }

  function Ticks(ticks: seq<Tick>): seq<Input> {
    seq(|ticks|, i requires 0 <= i < |ticks| => TickIn(ticks[i]))
  }

  lemma OneMoreTick(e: Entry, history: seq<Candle>, inputs: seq<Input>, tick: Tick)
    ensures var all := inputs + [TickIn(tick)];
            && TicksOf(all) == TicksOf(inputs) + [tick]
            && Run(e, all) == Processed(Run(e, inputs), tick)
            && Series(e, history, all) == SeriesStep(Run(e, inputs), Series(e, history, inputs), TickIn(tick))
  {
    var all := inputs + [TickIn(tick)];
    assert all[..|all| - 1] == inputs;
  }

  lemma {:induction false} RunKeepsTimeFrame(e: Entry, inputs: seq<Input>)
    ensures Run(e, inputs).tf == e.tf
  {
    if inputs != [] { RunKeepsTimeFrame(e, inputs[..|inputs| - 1]); }
  }

  lemma LastTick(before: seq<Input>, ticks: seq<Tick>)
    requires ticks != []
    ensures var init, last := ticks[..|ticks| - 1], ticks[|ticks| - 1];
            && before + Ticks(init) + [TickIn(last)] == before + Ticks(ticks)
            && TicksOf(before) + init + [last] == TicksOf(before) + ticks
  {
    var init, last := ticks[..|ticks| - 1], ticks[|ticks| - 1];
    assert init + [last] == ticks && Ticks(init) + [TickIn(last)] == Ticks(ticks);
    assert TicksOf(before) + init + [last] == TicksOf(before) + (init + [last]);
  }

  /** Ticks after a run add the bars they confirm to the series. */
  lemma {:induction false} TicksExtendSeries(e: Entry, history: seq<Candle>, before: seq<Input>, ticks: seq<Tick>)
    ensures TicksOf(before + Ticks(ticks)) == TicksOf(before) + ticks
    ensures Series(e, history, before + Ticks(ticks))
         == Series(e, history, before) + Feed(Run(e, before).acc, ticks, e.tf).bars
    ensures Run(e, before + Ticks(ticks)).acc == Feed(Run(e, before).acc, ticks, e.tf).acc
  {
    if ticks == [] {
      assert before + Ticks(ticks) == before;
    } else {
      var init, last := ticks[..|ticks| - 1], ticks[|ticks| - 1];
      var upTo := before + Ticks(init);
      LastTick(before, ticks);
      TicksExtendSeries(e, history, before, init);
      OneMoreTick(e, history, upTo, last);
      RunKeepsTimeFrame(e, upTo);
      FedTickExtends(Run(e, before).acc, ticks, Run(e, upTo), Series(e, history, before), Series(e, history, upTo));
    }
  }

  lemma FedTickExtends(a: Accumulator, ticks: seq<Tick>, now: Entry, was: seq<Candle>, series: seq<Candle>)
    requires ticks != []
    requires var fed := Feed(a, ticks[..|ticks| - 1], now.tf); now.acc == fed.acc && series == was + fed.bars
    ensures var tick := ticks[|ticks| - 1];
            var fed := Feed(a, ticks, now.tf);
            SeriesStep(now, series, TickIn(tick)) == was + fed.bars && Processed(now, tick).acc == fed.acc
  {
  }

  /** Ticks alone: the series is the history and the batch candles of all periods but the last. */
  lemma TickStreamIsBatch(tf: TimeFrame, s: SmaLedger.Window, l: SmaLedger.Window, history: seq<Candle>, ticks: seq<Tick>)
    requires IsSeries(tf, history) && ticks != [] && Nondecreasing(ticks)
    ensures var group := InPeriod(ticks, Period(ticks[|ticks| - 1].time, tf), tf);
            && group != []
            && IsBatchOf(Run(Start(tf, s, l, history), Ticks(ticks)), s, l, Some(BarOf(group)),
                         history + BatchBars(ticks, tf), Some(ticks[|ticks| - 1].bid))
  {
    var e := Start(tf, s, l, history);
    RunIsBatch(tf, s, l, history, Ticks(ticks));
    SeriesOfTicks(e, history, ticks);
    assert Provisional(e, Ticks(ticks)) == Some(ticks[|ticks| - 1].bid);
    CandlesAreBatch(NO_CANDLES, ticks, tf);
  }

  lemma SeriesOfTicks(e: Entry, history: seq<Candle>, ticks: seq<Tick>)
    requires e.acc.forming.None?
    ensures TicksOf(Ticks(ticks)) == ticks
    ensures Series(e, history, Ticks(ticks)) == history + Feed(NO_CANDLES, ticks, e.tf).bars
  {
    TicksExtendSeries(e, history, [], ticks);
    assert [] + Ticks(ticks) == Ticks(ticks) && TicksOf([]) + ticks == ticks;
    FeedIgnoresLastConfirmed(NO_CANDLES, e.acc, ticks, e.tf);
  }

  /** The bars that later ticks confirm are the further batch candles of the whole stream. */
  lemma LaterBars(a: Accumulator, before: seq<Tick>, later: seq<Tick>, tf: TimeFrame)
    requires before != [] && Nondecreasing(before + later)
    requires a.forming == Feed(NO_CANDLES, before, tf).acc.forming
    ensures BatchBars(before + later, tf) == BatchBars(before, tf) + Feed(a, later, tf).bars
    ensures Feed(a, later, tf).acc.forming == Feed(NO_CANDLES, before + later, tf).acc.forming
  {
    FeedAppends(NO_CANDLES, before, later, tf);
    FeedIgnoresLastConfirmed(Feed(NO_CANDLES, before, tf).acc, a, later, tf);
    assert Nondecreasing(before) by {
      assert forall i :: 0 <= i < |before| ==> before[i] == (before + later)[i];
    }
    CandlesAreBatch(NO_CANDLES, before, tf);
    CandlesAreBatch(NO_CANDLES, before + later, tf);
  }

  /**
   A series taken over in the middle of a tick stream: from then on the confirmed series is the
   official one and the further batch candles of the stream; the candle under way is not disturbed.
   */
  lemma ReconciledStreamIsBatch(tf: TimeFrame, s: SmaLedger.Window, l: SmaLedger.Window, history: seq<Candle>,
                                before: seq<Tick>, official: seq<Candle>, later: seq<Tick>)
    requires IsSeries(tf, history) && before != [] && Nondecreasing(before + later)
    requires Takes(Run(Start(tf, s, l, history), Ticks(before)), official)
    ensures var e := Start(tf, s, l, history);
            var inputs := Ticks(before) + [ReconcileIn(official)] + Ticks(later);
            var was, bars := BatchBars(before, tf), BatchBars(before + later, tf);
            var all := before + later;
            var group := InPeriod(all, Period(all[|all| - 1].time, tf), tf);
            && was <= bars && group != []
            && Series(e, history, inputs) == official + bars[|was|..]
            && Run(e, inputs).acc.forming == Some(BarOf(group))
  {
    var e := Start(tf, s, l, history);
    var upTo := Ticks(before) + [ReconcileIn(official)];
    TakenMidway(e, history, before, official);
    TicksExtendSeries(e, history, upTo, later);
    LaterBars(Run(e, upTo).acc, before, later, tf);
    Rest(BatchBars(before, tf), Feed(Run(e, upTo).acc, later, tf).bars);
    CandlesAreBatch(NO_CANDLES, before + later, tf);
  }

  lemma TakenMidway(e: Entry, history: seq<Candle>, before: seq<Tick>, official: seq<Candle>)
    requires e.acc.forming.None? && Takes(Run(e, Ticks(before)), official)
    ensures var upTo := Ticks(before) + [ReconcileIn(official)];
            && Series(e, history, upTo) == official
            && Run(e, upTo).acc.forming == Feed(NO_CANDLES, before, e.tf).acc.forming
  {
    var upTo := Ticks(before) + [ReconcileIn(official)];
    assert upTo[..|upTo| - 1] == Ticks(before);
    SeriesOfTicks(e, history, before);
    FormingIsFed(e, upTo);
    assert TicksOf(upTo) == before;
  }

  lemma Rest(was: seq<Candle>, more: seq<Candle>)
    ensures was <= was + more && (was + more)[|was|..] == more
  {
  }

  // ---------------------------------------------------------------- Reading

  /** An entry that can be read: ready averages and a confirmed candle of its own time frame. */
  predicate Ready(e: Entry) {
    e.acc.lastConfirmed.Some? && e.acc.lastConfirmed.value.tf == e.tf && SmaLedger.Stable(e.ledger)
  }

  lemma LongSeriesStayLong(e: Entry, series: seq<Candle>, input: Input)
    requires |series| >= SmaLedger.RequiredBars(e.ledger)
    ensures |SeriesStep(e, series, input)| >= SmaLedger.RequiredBars(e.ledger)
  {
  }

  lemma BatchRequires(s: SmaLedger.Window, l: SmaLedger.Window, closes: seq<real>, provisional: Option<real>)
    ensures SmaLedger.RequiredBars(SmaLedger.BatchLedger(s, l, closes, provisional)) == if s > l then s else l
  {
  }

  lemma {:induction false} SeriesStaysLong(tf: TimeFrame, s: SmaLedger.Window, l: SmaLedger.Window,
                                           history: seq<Candle>, inputs: seq<Input>)
    requires IsSeries(tf, history) && |history| >= s && |history| >= l
    ensures |Series(Start(tf, s, l, history), history, inputs)| >= s
    ensures |Series(Start(tf, s, l, history), history, inputs)| >= l
  {
    if inputs != [] {
      var init := inputs[..|inputs| - 1];
      var e := Start(tf, s, l, history);
      RunIsBatch(tf, s, l, history, init);
      SeriesStaysLong(tf, s, l, history, init);
      BatchRequires(s, l, Closes(Series(e, history, init)), Provisional(e, init));
      LongSeriesStayLong(Run(e, init), Series(e, history, init), inputs[|inputs| - 1]);
    }
  }

  /** What is read: the last candle, the forming candle, and the means over the series and the bid. */
  ghost predicate ReadsMeans(v: TimeFrameSnapshot, s: SmaLedger.Window, l: SmaLedger.Window, forming: Option<Forming>,
                             series: seq<Candle>, bid: real) {
    var closes := Closes(series);
    var withBid := closes + [bid];
    && series != [] && v.confirmed == Last(series) && Some(v.forming) == forming
    && Some(v.indicators.confirmed.short) == SmaLedger.Sma(s, closes)
    && Some(v.indicators.confirmed.long) == SmaLedger.Sma(l, closes)
    && Some(v.indicators.forming.short) == SmaLedger.Sma(s, withBid)
    && Some(v.indicators.forming.long) == SmaLedger.Sma(l, withBid)
    && Some(v.indicators.confirmed.previousShort)
         == SmaLedger.Sma(s, if |closes| > s then ButLast(closes) else closes)
    && Some(v.indicators.confirmed.previousLong)
         == SmaLedger.Sma(l, if |closes| > l then ButLast(closes) else closes)
  }

  lemma BatchReads(e: Entry, s: SmaLedger.Window, l: SmaLedger.Window, forming: Option<Forming>, series: seq<Candle>,
                   bid: real)
    requires IsBatchOf(e, s, l, forming, series, Some(bid)) && forming.Some?
    requires |series| >= s && |series| >= l
    ensures Ready(e) && Read(e).Ok? && ReadsMeans(Read(e).value, s, l, forming, series, bid)
  {
    SmaLedger.ValuesAreMeans(s, l, Closes(series), Some(bid));
    assert Last(series).tf == e.tf;
  }

  /** What a tick reads after any run on a sufficient history, with official series in between or not; it never throws. */
  lemma EveryTickReads(tf: TimeFrame, s: SmaLedger.Window, l: SmaLedger.Window, history: seq<Candle>,
                       inputs: seq<Input>, tick: Tick)
    requires IsSeries(tf, history) && |history| >= s && |history| >= l
    ensures var e := Start(tf, s, l, history);
            var all := inputs + [TickIn(tick)];
            && Ready(Run(e, all)) && Read(Run(e, all)).Ok?
            && ReadsMeans(Read(Run(e, all)).value, s, l, Feed(NO_CANDLES, TicksOf(all), tf).acc.forming,
                          Series(e, history, all), tick.bid)
  {
    var e := Start(tf, s, l, history);
    var all := inputs + [TickIn(tick)];
    assert all[..|all| - 1] == inputs;
    RunIsBatch(tf, s, l, history, all);
    SeriesStaysLong(tf, s, l, history, all);
    assert Run(e, all) == Processed(Run(e, inputs), tick);
    BatchReads(Run(e, all), s, l, Run(e, all).acc.forming, Series(e, history, all), tick.bid);
  }

  /**
   What a tick does to the averages: the forming ones differ from the confirmed ones by the bid less the close
   that leaves the window, spread over the window; likewise the confirmed ones from those one close earlier.
   */
  lemma TickMovesAverages(tf: TimeFrame, s: SmaLedger.Window, l: SmaLedger.Window, history: seq<Candle>,
                          inputs: seq<Input>, tick: Tick)
    requires IsSeries(tf, history) && |history| >= s && |history| >= l
    ensures var e := Start(tf, s, l, history);
            var all := inputs + [TickIn(tick)];
            var series := Series(e, history, all);
            && Read(Run(e, all)).Ok? && |series| >= s && |series| >= l
            && var v := Read(Run(e, all)).value.indicators;
               && Moves(v.forming.short, v.confirmed.short, v.confirmed.previousShort, s, series, tick.bid)
               && Moves(v.forming.long, v.confirmed.long, v.confirmed.previousLong, l, series, tick.bid)
  {
    var e := Start(tf, s, l, history);
    var all := inputs + [TickIn(tick)];
    EveryTickReads(tf, s, l, history, inputs, tick);
    SeriesStaysLong(tf, s, l, history, all);
    MeansMove(Read(Run(e, all)).value, s, l, Feed(NO_CANDLES, TicksOf(all), tf).acc.forming, Series(e, history, all), tick.bid);
  }

  /** One line: from the average one close earlier to the confirmed one, and from that to the forming one. */
  predicate Moves(forming: real, confirmed: real, previous: real, p: SmaLedger.Window, series: seq<Candle>, bid: real)
    requires |series| >= p
  {
    var n := |series|;
    && forming - confirmed == (bid - series[n - p].close) / p as real
    && (n > p ==> confirmed - previous == (series[n - 1].close - series[n - 1 - p].close) / p as real)
  }

  lemma MeansMove(v: TimeFrameSnapshot, s: SmaLedger.Window, l: SmaLedger.Window, forming: Option<Forming>,
                  series: seq<Candle>, bid: real)
    requires ReadsMeans(v, s, l, forming, series, bid) && |series| >= s && |series| >= l
    ensures Moves(v.indicators.forming.short, v.indicators.confirmed.short, v.indicators.confirmed.previousShort, s, series, bid)
    ensures Moves(v.indicators.forming.long, v.indicators.confirmed.long, v.indicators.confirmed.previousLong, l, series, bid)
  {
    Slides(s, Closes(series), bid);
    Slides(l, Closes(series), bid);
  }

  lemma Slides(p: SmaLedger.Window, closes: seq<real>, bid: real)
    requires |closes| >= p
    ensures SmaLedger.Sma(p, closes).Some? && SmaLedger.Sma(p, closes + [bid]).Some?
    ensures SmaLedger.Sma(p, closes + [bid]).value - SmaLedger.Sma(p, closes).value
              == (bid - closes[|closes| - p]) / p as real
    ensures |closes| > p ==> SmaLedger.Sma(p, ButLast(closes)).Some?
                             && SmaLedger.Sma(p, closes).value - SmaLedger.Sma(p, ButLast(closes)).value
                                  == (closes[|closes| - 1] - closes[|closes| - 1 - p]) / p as real
  {
    SmaLedger.AverageSlides(p, closes, bid);
    if |closes| > p {
      SmaLedger.AverageSlides(p, ButLast(closes), closes[|closes| - 1]);
      assert ButLast(closes) + [closes[|closes| - 1]] == closes;
    }
  }

  /** Exactly when a tick can be read: once the series is as long as the longer window. */
  lemma TicksReadExactly(tf: TimeFrame, s: SmaLedger.Window, l: SmaLedger.Window, history: seq<Candle>,
                         inputs: seq<Input>, tick: Tick)
    requires IsSeries(tf, history)
    ensures var e := Start(tf, s, l, history);
            var all := inputs + [TickIn(tick)];
            Read(Run(e, all)).Ok? <==> |Series(e, history, all)| >= s && |Series(e, history, all)| >= l
  {
    var e := Start(tf, s, l, history);
    var all := inputs + [TickIn(tick)];
    assert all[..|all| - 1] == inputs && Run(e, all) == Processed(Run(e, inputs), tick);
    RunIsBatch(tf, s, l, history, all);
    ReadsExactly(Run(e, all), s, l, Run(e, all).acc.forming, Series(e, history, all), Provisional(e, all));
  }

  lemma ReadsExactly(e: Entry, s: SmaLedger.Window, l: SmaLedger.Window, forming: Option<Forming>, series: seq<Candle>,
                     provisional: Option<real>)
    requires IsBatchOf(e, s, l, forming, series, provisional) && forming.Some?
    ensures Read(e).Ok? <==> |series| >= s && |series| >= l
  {
    SmaLedger.StableExactly(s, l, Closes(series), provisional);
    BatchRequires(s, l, Closes(series), provisional);
    assert Last(series).tf == e.tf;
  }

  lemma EventKeepsStable(l: SmaLedger.Ledger, event: SmaLedger.Event)
    requires SmaLedger.Stable(l)
    ensures SmaLedger.Stable(SmaLedger.OnEvent(l, event))
  {
  }

  lemma StaysReady(e: Entry, tick: Tick)
    requires Ready(e)
    ensures Ready(Processed(e, tick)) && Read(Processed(e, tick)).Ok?
  {
    var acc := Accumulated(e.acc, tick, e.tf);
    var bid := SmaLedger.FormingUpdated(acc.forming.value.close);
    if Ends(e.acc, tick, e.tf) {
      var close := SmaLedger.BarConfirmed(acc.lastConfirmed.value.close);
      EventKeepsStable(e.ledger, close);
      EventKeepsStable(SmaLedger.OnEvent(e.ledger, close), bid);
    } else {
      EventKeepsStable(e.ledger, bid);
    }
  }

  /** Once every entry is ready, a round never throws and every entry processes the tick. */
  lemma {:induction false} RoundsNeverThrow(es: seq<Entry>, tick: Tick)
    requires forall k :: 0 <= k < |es| ==> Ready(es[k])
    ensures var r := Round(es, tick);
            && r.read.Ok? && |r.entries| == |es| == |r.read.value|
            && forall k :: 0 <= k < |es| ==>
                 r.entries[k] == Processed(es[k], tick) && Ready(r.entries[k]) && Ok(r.read.value[k]) == Read(r.entries[k])
  {
    if es != [] {
      RoundsNeverThrow(es[..|es| - 1], tick);
      StaysReady(es[|es| - 1], tick);
    }
  }

  /** The first entry that throws ends the round with its error: those up to it have the tick, the rest do not. */
  lemma {:induction false} RoundStopsAtFirst(es: seq<Entry>, tick: Tick, k: nat)
    requires k < |es| && Read(Processed(es[k], tick)).Err?
    requires forall i :: 0 <= i < k ==> Read(Processed(es[i], tick)).Ok?
    ensures var r := Round(es, tick);
            && r.read == Err(Read(Processed(es[k], tick)).error) && |r.entries| == |es|
            && forall i :: 0 <= i < |es| ==> r.entries[i] == if i <= k then Processed(es[i], tick) else es[i]
  {
    var init := es[..|es| - 1];
    if k < |init| {
      RoundStopsAtFirst(init, tick, k);
    } else {
      RoundGoesOn(init, tick);
    }
  }

  lemma {:induction false} RoundGoesOn(es: seq<Entry>, tick: Tick)
    requires forall i :: 0 <= i < |es| ==> Read(Processed(es[i], tick)).Ok?
    ensures var r := Round(es, tick);
            && r.read.Ok? && |r.entries| == |es|
            && forall i :: 0 <= i < |es| ==> r.entries[i] == Processed(es[i], tick)
  {
    if es != [] { RoundGoesOn(es[..|es| - 1], tick); }
  }

  // ---------------------------------------------------------------- Reconciling again

  lemma RunOneMoreTick(e: Entry, ticks: seq<Tick>)
    requires ticks != []
    ensures Run(e, Ticks(ticks)) == Processed(Run(e, Ticks(ticks[..|ticks| - 1])), ticks[|ticks| - 1])
  {
    var all := Ticks(ticks);
    assert all[..|all| - 1] == Ticks(ticks[..|ticks| - 1]) && all[|all| - 1] == TickIn(ticks[|ticks| - 1]);
  }

  lemma TicksFeed(e: Entry, ticks: seq<Tick>)
    ensures Run(e, Ticks(ticks)).acc == Feed(e.acc, ticks, e.tf).acc && Run(e, Ticks(ticks)).tf == e.tf
  {
    TicksExtendSeries(e, [], [], ticks);
    assert [] + Ticks(ticks) == Ticks(ticks);
    RunKeepsTimeFrame(e, Ticks(ticks));
  }

  /** Ticks that confirm no bar are only forming updates to the ledger. */
  lemma {:induction false} TicksAsUpdates(e: Entry, ticks: seq<Tick>) returns (events: seq<SmaLedger.Event>)
    requires Feed(e.acc, ticks, e.tf).bars == []
    ensures SmaLedger.OnlyUpdates(events)
    ensures Run(e, Ticks(ticks)).ledger == SmaLedger.OnEvents(e.ledger, events)
  {
    if ticks == [] { return []; }
    RunOneMoreTick(e, ticks);
    TicksFeed(e, ticks[..|ticks| - 1]);
    var before := TicksAsUpdates(e, ticks[..|ticks| - 1]);
    var now := Run(e, Ticks(ticks[..|ticks| - 1]));
    var update := SmaLedger.FormingUpdated(Accumulated(now.acc, ticks[|ticks| - 1], e.tf).forming.value.close);
    assert !Ends(now.acc, ticks[|ticks| - 1], e.tf);
    events := before + [update];
    assert events[..|before|] == before;
  }

  /** While no bar is confirmed the forming candle keeps its open time; it is the first tick's if the ticks opened it. */
  lemma {:induction false} FormingStays(a: Accumulator, ticks: seq<Tick>, tf: TimeFrame)
    requires Feed(a, ticks, tf).bars == []
    ensures var now := Feed(a, ticks, tf).acc;
            && now.lastConfirmed == a.lastConfirmed
            && (now.forming.Some? <==> a.forming.Some? || ticks != [])
            && (now.forming.Some? ==>
                  now.forming.value.openTime == if a.forming.Some? then a.forming.value.openTime else ticks[0].time)
  {
    if ticks != [] {
      var init := ticks[..|ticks| - 1];
      assert Feed(a, init, tf).bars == [];
      FormingStays(a, init, tf);
      assert init != [] ==> init[0] == ticks[0];
    }
  }

  lemma ReseedingKeepsRequiredBars(l: SmaLedger.Ledger, closes: seq<real>)
    ensures SmaLedger.RequiredBars(SmaLedger.LedgerReseeded(l, closes)) == SmaLedger.RequiredBars(l)
  {
    SmaLedger.FreshIsBatch(l.short.p, closes);
    SmaLedger.FreshIsBatch(l.long.p, closes);
  }

  lemma {:induction false} UpdatesKeepRequiredBars(l: SmaLedger.Ledger, events: seq<SmaLedger.Event>)
    ensures SmaLedger.RequiredBars(SmaLedger.OnEvents(l, events)) == SmaLedger.RequiredBars(l)
  {
    if events != [] { UpdatesKeepRequiredBars(l, events[..|events| - 1]); }
  }

  /** Whether a series that was taken over is still behind the forming candle after the ticks. */
  predicate TakesAgain(e: Entry, official: seq<Candle>, ticks: seq<Tick>)
    requires official != []
  {
    e.acc.forming.Some? || ticks == [] || Last(official).openTime < ticks[0].time
  }

  /**
   Reconciling again with the same series corrects nothing, whatever ticks came in between, until a bar is
   confirmed. It is refused only if no candle was forming at first and the first tick came no later than the
   last official candle opened.
   */
  lemma {:induction false} SecondReconcileReportsNothing(e: Entry, official: seq<Candle>, ticks: seq<Tick>)
    requires Takes(e, official)
    requires Feed(Reconciled(e, official).acc, ticks, e.tf).bars == []
    ensures var r := ReconcileResult(Run(Reconciled(e, official), Ticks(ticks)), official);
            r == if TakesAgain(e, official, ticks) then Ok(None) else Err("official candle reaches into the forming candle")
  {
    var taken := Reconciled(e, official);
    var events := TicksAsUpdates(taken, ticks);
    SmaLedger.SecondReconcileCorrectsNothing(e.ledger, Closes(official), events);
    UpdatesKeepRequiredBars(taken.ledger, events);
    FormingStays(taken.acc, ticks, e.tf);
    TicksFeed(taken, ticks);
    ReseedingKeepsRequiredBars(e.ledger, Closes(official));
  }

  // ---------------------------------------------------------------- No bar counted twice

  ghost predicate PeriodsIncreaseIn(cs: seq<Candle>, tf: TimeFrame) {
    forall i, j :: 0 <= i < j < |cs| ==> Period(cs[i].openTime, tf) < Period(cs[j].openTime, tf)
  }

  /**
   No tick is of an earlier period than the forming candle, the tick that opens one is of a later period
   than the last confirmed candle, and an official series that is taken over has each period once and
   ends before the forming candle's.
   */
  ghost predicate Fits(e: Entry, input: Input) {
    match input
    case TickIn(tick) =>
      if e.acc.forming.Some? then Period(e.acc.forming.value.openTime, e.tf) <= Period(tick.time, e.tf)
      else e.acc.lastConfirmed.Some? && Period(e.acc.lastConfirmed.value.openTime, e.tf) < Period(tick.time, e.tf)
    case ReconcileIn(official) =>
      Takes(e, official) ==>
        && PeriodsIncreaseIn(official, e.tf)
        && (e.acc.forming.Some? ==> Period(Last(official).openTime, e.tf) < Period(e.acc.forming.value.openTime, e.tf))
  }

  ghost predicate AllFit(e: Entry, inputs: seq<Input>) {
    inputs == [] || (AllFit(e, inputs[..|inputs| - 1]) && Fits(Run(e, inputs[..|inputs| - 1]), inputs[|inputs| - 1]))
  }

  /** The series has each period at most once, and the forming candle's period comes after all of them. */
  ghost predicate NothingTwice(e: Entry, series: seq<Candle>) {
    && series != [] && e.acc.lastConfirmed == Some(Last(series)) && PeriodsIncreaseIn(series, e.tf)
    && (e.acc.forming.Some? ==> Period(Last(series).openTime, e.tf) < Period(e.acc.forming.value.openTime, e.tf))
  }

  lemma OneMorePeriod(series: seq<Candle>, bar: Candle, tf: TimeFrame)
    requires series != [] && PeriodsIncreaseIn(series, tf)
    ensures PeriodsIncreaseIn(series + [bar], tf) <==> Period(Last(series).openTime, tf) < Period(bar.openTime, tf)
  {
    var longer := series + [bar];
    if Period(Last(series).openTime, tf) < Period(bar.openTime, tf) {
      forall i, j | 0 <= i < j < |longer| ensures Period(longer[i].openTime, tf) < Period(longer[j].openTime, tf) {
        assert Period(series[i].openTime, tf) <= Period(Last(series).openTime, tf);
      }
    } else {
      assert longer[|series| - 1] == Last(series) && longer[|series|] == bar;
    }
  }

  /** One input keeps every period single if and only if it fits. */
  lemma StepCountsOnceExactly(e: Entry, series: seq<Candle>, input: Input)
    requires NothingTwice(e, series)
    ensures NothingTwice(Step(e, input), SeriesStep(e, series, input)) <==> Fits(e, input)
  {
    if input.TickIn? && Ends(e.acc, input.tick, e.tf) {
      OneMorePeriod(series, Confirmed(e.acc.forming.value, e.tf), e.tf);
    }
  }

  /** At every moment of the run. */
  ghost predicate NothingTwiceThroughout(e: Entry, history: seq<Candle>, inputs: seq<Input>) {
    forall n :: 0 <= n <= |inputs| ==> NothingTwice(Run(e, inputs[..n]), Series(e, history, inputs[..n]))
  }

  lemma ThroughoutOneMore(e: Entry, history: seq<Candle>, inputs: seq<Input>)
    requires inputs != []
    ensures NothingTwiceThroughout(e, history, inputs) <==>
            NothingTwiceThroughout(e, history, inputs[..|inputs| - 1])
            && NothingTwice(Run(e, inputs), Series(e, history, inputs))
  {
    var init := inputs[..|inputs| - 1];
    assert forall n :: 0 <= n <= |init| ==> init[..n] == inputs[..n];
    assert inputs[..|inputs|] == inputs;
    if NothingTwiceThroughout(e, history, init) && NothingTwice(Run(e, inputs), Series(e, history, inputs)) {
      forall n | 0 <= n <= |inputs| ensures NothingTwice(Run(e, inputs[..n]), Series(e, history, inputs[..n])) {
        if n < |inputs| { assert init[..n] == inputs[..n]; }
      }
    }
    if NothingTwiceThroughout(e, history, inputs) {
      forall n | 0 <= n <= |init| ensures NothingTwice(Run(e, init[..n]), Series(e, history, init[..n])) {
        assert init[..n] == inputs[..n];
      }
    }
  }

  /**
   Exactly when no bar is counted twice: over any run of ticks and official series on any warmed-up history,
   the confirmed series and the forming candle hold each period at most once, in order, at every moment, if
   and only if the history does and every input fits.
   */
  lemma {:induction false} CountedOnceExactly(tf: TimeFrame, s: SmaLedger.Window, l: SmaLedger.Window,
                                              history: seq<Candle>, inputs: seq<Input>)
    requires IsSeries(tf, history)
    ensures NothingTwiceThroughout(Start(tf, s, l, history), history, inputs) <==>
            PeriodsIncreaseIn(history, tf) && AllFit(Start(tf, s, l, history), inputs)
  {
    var e := Start(tf, s, l, history);
    if inputs == [] {
      assert inputs[..0] == inputs;
      assert NothingTwice(Run(e, []), Series(e, history, [])) <==> PeriodsIncreaseIn(history, tf);
    } else {
      var init := inputs[..|inputs| - 1];
      CountedOnceExactly(tf, s, l, history, init);
      ThroughoutOneMore(e, history, inputs);
      if NothingTwiceThroughout(e, history, init) {
        assert init[..|init|] == init;
        StepCountsOnceExactly(Run(e, init), Series(e, history, init), inputs[|inputs| - 1]);
      }
    }
  }

  /** In particular, when the history has each period once and every input fits. */
  lemma {:induction false} NoBarCountedTwice(tf: TimeFrame, s: SmaLedger.Window, l: SmaLedger.Window,
                                             history: seq<Candle>, inputs: seq<Input>)
    requires IsSeries(tf, history) && PeriodsIncreaseIn(history, tf)
    requires AllFit(Start(tf, s, l, history), inputs)
    ensures NothingTwice(Run(Start(tf, s, l, history), inputs), Series(Start(tf, s, l, history), history, inputs))
  {
    CountedOnceExactly(tf, s, l, history, inputs);
    assert inputs[..|inputs|] == inputs;
  }

  /** The next bar to be confirmed repeats a period or goes back exactly when the forming candle is not past the series. */
  lemma ConfirmedTwiceExactly(e: Entry, series: seq<Candle>, tick: Tick)
    requires series != [] && PeriodsIncreaseIn(series, e.tf) && Ends(e.acc, tick, e.tf)
    ensures PeriodsIncreaseIn(SeriesStep(e, series, TickIn(tick)), e.tf) <==>
            Period(Last(series).openTime, e.tf) < Period(e.acc.forming.value.openTime, e.tf)
  {
    OneMorePeriod(series, Confirmed(e.acc.forming.value, e.tf), e.tf);
  }

  /**
   A series taken over while a candle is forming: the check compares open times, and a forming candle's
   open time is its first tick's. So the series may end in the very period that is still forming; exactly
   then the next confirmed bar repeats that period.
   */
  lemma CountedTwiceExactly(e: Entry, official: seq<Candle>, tick: Tick)
    requires Takes(e, official) && PeriodsIncreaseIn(official, e.tf)
    requires e.acc.forming.Some? && Ends(e.acc, tick, e.tf)
    ensures var after := Reconciled(e, official);
            var series := SeriesStep(after, official, TickIn(tick));
            PeriodsIncreaseIn(series, e.tf) <==>
            Period(Last(official).openTime, e.tf) != Period(e.acc.forming.value.openTime, e.tf)
  {
    ConfirmedTwiceExactly(Reconciled(e, official), official, tick);
    PeriodIsMonotone(Last(official).openTime, e.acc.forming.value.openTime, e.tf);
  }

  /**
   A history or a series that comes while no candle is forming: nothing compares it with the first tick. The
   first bar to be confirmed then repeats a period or goes back exactly when that tick is not past the series.
   */
  lemma FirstTickCountsTwiceExactly(e: Entry, series: seq<Candle>, first: Tick, next: Tick)
    requires series != [] && PeriodsIncreaseIn(series, e.tf) && e.acc.forming.None?
    requires Period(first.time, e.tf) != Period(next.time, e.tf)
    ensures var now := Processed(e, first);
            PeriodsIncreaseIn(SeriesStep(now, SeriesStep(e, series, TickIn(first)), TickIn(next)), e.tf) <==>
            Period(Last(series).openTime, e.tf) < Period(first.time, e.tf)
  {
    ConfirmedTwiceExactly(Processed(e, first), series, next);
  }

  // ---------------------------------------------------------------- On ticks alone

  lemma {:induction false} FormingNotAhead(a: Accumulator, ticks: seq<Tick>, tf: TimeFrame)
    requires a.forming.None? && ticks != [] && Nondecreasing(ticks)
    ensures var forming := Feed(a, ticks, tf).acc.forming;
            forming.Some? && forming.value.openTime <= ticks[|ticks| - 1].time
  {
    var init := ticks[..|ticks| - 1];
    if init != [] {
      assert Nondecreasing(init);
      FormingNotAhead(a, init, tf);
      assert init[|init| - 1] == ticks[|ticks| - 2];
    }
  }

  lemma {:induction false} TicksFitExactly(e: Entry, ticks: seq<Tick>)
    requires e.acc.forming.None? && e.acc.lastConfirmed.Some? && ticks != [] && Nondecreasing(ticks)
    ensures AllFit(e, Ticks(ticks)) <==>
            Period(e.acc.lastConfirmed.value.openTime, e.tf) < Period(ticks[0].time, e.tf)
  {
    var init, tick := ticks[..|ticks| - 1], ticks[|ticks| - 1];
    assert Ticks(ticks)[..|ticks| - 1] == Ticks(init);
    if init != [] {
      assert Nondecreasing(init);
      TicksFitExactly(e, init);
      TicksFeed(e, init);
      FormingNotAhead(e.acc, init, e.tf);
      assert init[|init| - 1].time <= tick.time;
      PeriodIsMonotone(Run(e, Ticks(init)).acc.forming.value.openTime, tick.time, e.tf);
    }
  }

  /**
   On a warm-up and ticks in order, without official series: nothing is ever counted twice if and only if
   the first tick's period comes after that of the last candle warmed up on.
   */
  lemma TicksCountOnceExactly(tf: TimeFrame, s: SmaLedger.Window, l: SmaLedger.Window, history: seq<Candle>,
                              ticks: seq<Tick>)
    requires IsSeries(tf, history) && PeriodsIncreaseIn(history, tf) && ticks != [] && Nondecreasing(ticks)
    ensures NothingTwiceThroughout(Start(tf, s, l, history), history, Ticks(ticks)) <==>
            Period(Last(history).openTime, tf) < Period(ticks[0].time, tf)
  {
    CountedOnceExactly(tf, s, l, history, Ticks(ticks));
    TicksFitExactly(Start(tf, s, l, history), ticks);
  }

  // ---------------------------------------------------------------- Inputs that count a bar twice

  /** A first tick 30 ms into the minute, then the official candle of that minute. */
  lemma ABarCanBeCountedTwice(c: Candle)
    requires c.tf == ONE_MINUTE
    ensures var at0 := c.(openTime := 0, closeTime := 60_000);
            var at1 := c.(openTime := 60_000, closeTime := 120_000);
            var e := Run(Start(ONE_MINUTE, 1, 2, [at0.(openTime := -60_000), at0]), [TickIn(Tick(60_030, c.close, c.close))]);
            Takes(e, [at0, at1]) && Period(at1.openTime, e.tf) == Period(e.acc.forming.value.openTime, e.tf)
  {
    var at0 := c.(openTime := 0, closeTime := 60_000);
    var at1 := c.(openTime := 60_000, closeTime := 120_000);
    var tick := Tick(60_030, c.close, c.close);
    var start := Start(ONE_MINUTE, 1, 2, [at0.(openTime := -60_000), at0]);
    var history, inputs := [at0.(openTime := -60_000), at0], [TickIn(tick)];
    assert IsSeries(ONE_MINUTE, history) && IsSeries(ONE_MINUTE, [at0, at1]);
    assert start == Start(ONE_MINUTE, 1, 2, history) && start.acc == Accumulator(None, Some(at0));
    assert inputs[..0] == [];
    assert Run(start, inputs[..0]) == start;
    var e := Run(start, inputs);
    assert e.acc == Accumulator(Some(Opened(tick)), Some(at0));
    RunIsBatch(ONE_MINUTE, 1, 2, history, inputs);
    BatchRequires(1, 2, Closes(Series(start, history, inputs)), Provisional(start, inputs));
  }

  /** Two ticks after a run that leaves no candle forming. */
  lemma CountedTwiceAfter(e: Entry, history: seq<Candle>, inputs: seq<Input>, first: Tick, next: Tick)
    requires Run(e, inputs).acc.forming.None? && Run(e, inputs).tf == e.tf
    requires Series(e, history, inputs) != [] && PeriodsIncreaseIn(Series(e, history, inputs), e.tf)
    requires Period(Last(Series(e, history, inputs)).openTime, e.tf) == Period(first.time, e.tf) < Period(next.time, e.tf)
    ensures !PeriodsIncreaseIn(Series(e, history, inputs + Ticks([first, next])), e.tf)
  {
    FirstTickCountsTwiceExactly(Run(e, inputs), Series(e, history, inputs), first, next);
    assert inputs + Ticks([first, next]) == inputs + [TickIn(first)] + [TickIn(next)];
    OneMoreTick(e, history, inputs, first);
    OneMoreTick(e, history, inputs + [TickIn(first)], next);
  }

  /** Warmed up to a minute, then a first tick 30 ms into that minute: no official series at all. */
  lemma AWarmedUpBarCanBeCountedTwice(c: Candle)
    requires c.tf == ONE_MINUTE
    ensures var history := [c.(openTime := -60_000), c.(openTime := 0)];
            var ticks := [Tick(30, c.close, c.close), Tick(60_030, c.close, c.close)];
            && IsSeries(ONE_MINUTE, history) && PeriodsIncreaseIn(history, ONE_MINUTE) && Nondecreasing(ticks)
            && !PeriodsIncreaseIn(Series(Start(ONE_MINUTE, 1, 2, history), history, Ticks(ticks)), ONE_MINUTE)
  {
    var history := [c.(openTime := -60_000), c.(openTime := 0)];
    var first, next := Tick(30, c.close, c.close), Tick(60_030, c.close, c.close);
    var e := Start(ONE_MINUTE, 1, 2, history);
    CountedTwiceAfter(e, history, [], first, next);
    assert [] + Ticks([first, next]) == Ticks([first, next]);
  }

  /** A series long enough is taken over by an entry that has seen no tick. */
  lemma TakenBeforeTicks(tf: TimeFrame, s: SmaLedger.Window, l: SmaLedger.Window, history: seq<Candle>, official: seq<Candle>)
    requires IsSeries(tf, history) && IsSeries(tf, official) && |official| >= s && |official| >= l
    ensures var e := Start(tf, s, l, history);
            && Takes(e, official) && Run(e, [ReconcileIn(official)]) == Reconciled(e, official)
            && Series(e, history, [ReconcileIn(official)]) == official
  {
    var e, inputs := Start(tf, s, l, history), [ReconcileIn(official)];
    RunIsBatch(tf, s, l, history, []);
    BatchRequires(s, l, Closes(Series(e, history, [])), Provisional(e, []));
    assert inputs[..0] == [];
  }

  /** An official series taken before the first tick, which comes 30 ms into its last minute. */
  lemma ABarTakenEarlyCanBeCountedTwice(c: Candle)
    requires c.tf == ONE_MINUTE
    ensures var history := [c.(openTime := -120_000), c.(openTime := -60_000)];
            var official := [c.(openTime := -60_000), c.(openTime := 0)];
            var ticks := [Tick(30, c.close, c.close), Tick(60_030, c.close, c.close)];
            var e := Start(ONE_MINUTE, 1, 2, history);
            && IsSeries(ONE_MINUTE, history) && Takes(e, official) && PeriodsIncreaseIn(official, ONE_MINUTE)
            && !PeriodsIncreaseIn(Series(e, history, [ReconcileIn(official)] + Ticks(ticks)), ONE_MINUTE)
  {
    var history := [c.(openTime := -120_000), c.(openTime := -60_000)];
    var official := [c.(openTime := -60_000), c.(openTime := 0)];
    TakenBeforeTicks(ONE_MINUTE, 1, 2, history, official);
    CountedTwiceAfter(Start(ONE_MINUTE, 1, 2, history), history, [ReconcileIn(official)],
                      Tick(30, c.close, c.close), Tick(60_030, c.close, c.close));
  }
}
